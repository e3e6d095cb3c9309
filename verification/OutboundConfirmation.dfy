/**
  What confirming a shipment stores of its lines, in every state of every run, and what that makes
  of their billing: nothing that a confirmed line ships or puts on pallets is left out.
 */
module OutboundConfirmation {
  import opened Wrappers
  import opened Sums
  import opened SortedSets
  import opened OutboundPallets

  /** A line as its table holds it, with its allocations. */
  datatype ShipmentLine = ShipmentLine(sku: int, quantity: int, pallets: int, unassigned: int, allocations: seq<Allocation>)

  datatype Standing = Draft | Confirmed

  datatype Shipment = Shipment(standing: Standing, lines: seq<ShipmentLine>)

  type Book = map<int, Shipment>

  // ----- the allocations of a line

  function Total(entries: seq<Allocation>): nat {
    if entries == [] then 0 else Total(entries[..|entries| - 1]) + Positive(entries[|entries| - 1].quantity)
  }

  ghost predicate AllPositive(entries: seq<Allocation>) {
    forall i :: 0 <= i < |entries| ==> 0 < entries[i].quantity
  }

  /** Entries without a quantity are dropped. Entries of one bucket are merged too, which changes no total. */
  function Taken(entries: seq<Allocation>): seq<Allocation> {
    if entries == [] then []
    else
      var last := entries[|entries| - 1];
      Taken(entries[..|entries| - 1]) + if 0 < last.quantity then [last] else []
  }

  lemma TotalAppend(entries: seq<Allocation>, a: Allocation)
    ensures Total(entries + [a]) == Total(entries) + Positive(a.quantity)
  {
    assert (entries + [a])[..|entries|] == entries;
  }

  lemma {:induction false} TakenTotal(entries: seq<Allocation>)
    ensures AllPositive(Taken(entries)) && Total(Taken(entries)) == Total(entries)
  {
    if entries != [] {
      var rest, last := entries[..|entries| - 1], entries[|entries| - 1];
      TakenTotal(rest);
      if 0 < last.quantity {
        TotalAppend(Taken(rest), last);
        assert Taken(entries) == Taken(rest) + [last];
      } else {
        assert Taken(entries) == Taken(rest);
      }
    }
  }

  // ----- confirming

  /** The allocations of every line after planning and staging, or, without a plan, what the stock offers. */
  function OfferedTo(offered: seq<seq<Allocation>>, i: nat): seq<Allocation> {
    if i < |offered| then offered[i] else []
  }

  /** A line that ships nothing stays as a plan only; another one needs allocations of just its quantity. */
  function ConfirmedLine(line: ShipmentLine, offer: seq<Allocation>): Result<ShipmentLine> {
    if line.quantity < 0 then Err(InvalidInput)
    else if line.quantity == 0 then Ok(line.(pallets := 0, allocations := []))
    else if Total(offer) != line.quantity then Err(InvalidInput)
    else Ok(line.(allocations := Taken(offer)))
  }

  predicate Confirmable(lines: seq<ShipmentLine>, offered: seq<seq<Allocation>>) {
    lines != [] && forall i :: 0 <= i < |lines| ==> ConfirmedLine(lines[i], OfferedTo(offered, i)).Ok?
  }

  function ConfirmedLines(lines: seq<ShipmentLine>, offered: seq<seq<Allocation>>): seq<ShipmentLine>
    requires Confirmable(lines, offered)
  {
    seq(|lines|, i requires 0 <= i < |lines| => ConfirmedLine(lines[i], OfferedTo(offered, i)).value)
  }

  function Confirming(book: Book, id: int, offered: seq<seq<Allocation>>): Result<Book> {
    if id !in book then Err(NotFound)
    else if book[id].standing.Confirmed? || !Confirmable(book[id].lines, offered) then Err(InvalidInput)
    else Ok(book[id := Shipment(Confirmed, ConfirmedLines(book[id].lines, offered))])
  }

  /** A draft is written as the user has it; a confirmed shipment is not edited. */
  function Saving(book: Book, id: int, lines: seq<ShipmentLine>): Result<Book> {
    if id in book && book[id].standing.Confirmed? then Err(InvalidInput) else Ok(book[id := Shipment(Draft, lines)])
  }

  function Removing(book: Book, id: int): Result<Book> {
    if id !in book then Err(NotFound) else Ok(book - {id})
  }

  function Cleared(line: ShipmentLine): ShipmentLine {
    if line.quantity == 0 then line.(pallets := 0, allocations := []) else line
  }

  /** A line after the second loop, which leaves a negative quantity to the third. */
  predicate Allocated(row: ShipmentLine, was: ShipmentLine, offer: seq<Allocation>) {
    if was.quantity < 0 then row == was.(allocations := []) else ConfirmedLine(was, offer) == Ok(row)
  }

  class Shipments {
    var book: Book

    constructor ()
      ensures book == map[]
    {
      book := map[];
    }

    method SaveDraft(id: int, lines: seq<ShipmentLine>) returns (error: Option<Error>)
      modifies this
      ensures Reports(error, Saving(old(book), id, lines), book, old(book))
    {
      if id in book && book[id].standing.Confirmed? {
        return Some(InvalidInput);
      }
      book := book[id := Shipment(Draft, lines)];
      return None;
    }

    method Remove(id: int) returns (error: Option<Error>)
      modifies this
      ensures Reports(error, Removing(old(book), id), book, old(book))
    {
      if id !in book {
        return Some(NotFound);
      }
      book := book - {id};
      return None;
    }

    /** Lines that ship nothing are cleared, the others are allocated, and only then negative quantities are refused. */
    method Confirm(id: int, offered: seq<seq<Allocation>>) returns (error: Option<Error>)
      modifies this
      ensures Reports(error, Confirming(old(book), id, offered), book, old(book))
    {
      if id !in book {
        return Some(NotFound);
      }
      if book[id].standing.Confirmed? || book[id].lines == [] {
        return Some(InvalidInput);
      }
      var was := book[id].lines;
      var rows := was;
      for i := 0 to |was|
        invariant |rows| == |was|
        invariant forall k :: 0 <= k < |was| ==> rows[k] == if k < i then Cleared(was[k]) else was[k]
      {
        if rows[i].quantity == 0 {
          rows := rows[i := rows[i].(pallets := 0, allocations := [])];
        }
      }
      for i := 0 to |was|
        invariant |rows| == |was|
        invariant forall k :: i <= k < |was| ==> rows[k] == Cleared(was[k])
        invariant forall k :: 0 <= k < i ==> Allocated(rows[k], was[k], OfferedTo(offered, k))
      {
        if rows[i].quantity <= 0 {
          rows := rows[i := rows[i].(allocations := [])];
        } else if Total(OfferedTo(offered, i)) != rows[i].quantity {
          assert ConfirmedLine(was[i], OfferedTo(offered, i)).Err?;
          return Some(InvalidInput);
        } else {
          rows := rows[i := rows[i].(allocations := Taken(OfferedTo(offered, i)))];
        }
      }
      for i := 0 to |was|
        invariant forall k :: 0 <= k < i ==> ConfirmedLine(was[k], OfferedTo(offered, k)) == Ok(rows[k])
      {
        assert Allocated(rows[i], was[i], OfferedTo(offered, i));
        if rows[i].quantity < 0 {
          assert ConfirmedLine(was[i], OfferedTo(offered, i)).Err?;
          return Some(InvalidInput);
        }
      }
      assert rows == ConfirmedLines(was, offered);
      book := book[id := Shipment(Confirmed, rows)];
      return None;
    }
  }

  // ----- what is stored, in every state of every run

  /** Positive allocations that add up to the quantity, and no pallets for nothing. */
  ghost predicate Settled(line: ShipmentLine) {
    && AllPositive(line.allocations) && Total(line.allocations) == line.quantity
    && (line.quantity == 0 ==> line.pallets == 0 && line.allocations == [])
  }

  ghost predicate AllSettled(book: Book) {
    forall id, i :: id in book && book[id].standing.Confirmed? && 0 <= i < |book[id].lines| ==> Settled(book[id].lines[i])
  }

  lemma ConfirmedIsSettled(line: ShipmentLine, offer: seq<Allocation>)
    requires ConfirmedLine(line, offer).Ok?
    ensures Settled(ConfirmedLine(line, offer).value)
  {
    TakenTotal(offer);
  }

  datatype Step = Save(id: int, lines: seq<ShipmentLine>) | Confirm(id: int, offered: seq<seq<Allocation>>) | Remove(id: int)

  function Outcome(book: Book, step: Step): Result<Book> {
    match step
    case Save(id, lines) => Saving(book, id, lines)
    case Confirm(id, offered) => Confirming(book, id, offered)
    case Remove(id) => Removing(book, id)
  }

  function Run(steps: seq<Step>): Book {
    if steps == [] then map[]
    else
      var book := Run(steps[..|steps| - 1]);
      var outcome := Outcome(book, steps[|steps| - 1]);
      if outcome.Ok? then outcome.value else book
  }

  lemma StepKeepsSettled(book: Book, step: Step)
    requires AllSettled(book) && Outcome(book, step).Ok?
    ensures AllSettled(Outcome(book, step).value)
  {
    if step.Confirm? {
      var lines := book[step.id].lines;
      forall i | 0 <= i < |lines|
        ensures Settled(ConfirmedLines(lines, step.offered)[i])
      {
        ConfirmedIsSettled(lines[i], OfferedTo(step.offered, i));
      }
    }
  }

  /** Whatever drafts hold, every line of a confirmed shipment is settled. */
  lemma {:induction false} EveryStateIsSettled(steps: seq<Step>)
    ensures AllSettled(Run(steps))
  {
    if steps != [] {
      var book, step := Run(steps[..|steps| - 1]), steps[|steps| - 1];
      EveryStateIsSettled(steps[..|steps| - 1]);
      if Outcome(book, step).Ok? {
        StepKeepsSettled(book, step);
      }
    }
  }

  // ----- and billed as a whole

  /** The line as the billing query reads it. */
  function Shown(documentId: int, line: ShipmentLine, inRange: bool): Line {
    Line(documentId, line.sku, Positive(line.quantity), Positive(line.pallets), inRange, line.unassigned, line.allocations)
  }

  /** Billing reads of a stored line its own pieces and, unless they are negative, its own pallets. */
  lemma ShownTells(documentId: int, line: ShipmentLine, inRange: bool)
    requires Settled(line)
    ensures var shown := Shown(documentId, line, inRange);
            && shown.documentId == documentId && shown.sku == line.sku && shown.inRange == inRange
            && shown.quantity == line.quantity && (0 <= line.pallets ==> shown.pallets == line.pallets)
            && (line.pallets < 0 ==> shown.pallets == 0)
            && shown.allocations == line.allocations && shown.unassigned == line.unassigned
  {
    assert 0 <= Total(line.allocations);
  }

  /** Only confirmed shipments are read. */
  ghost predicate ShownFrom(line: Line, book: Book) {
    && line.documentId in book && book[line.documentId].standing.Confirmed?
    && exists i :: 0 <= i < |book[line.documentId].lines|
                   && line == Shown(line.documentId, book[line.documentId].lines[i], line.inRange)
  }

  ghost function PooledQuantity(pools: map<Bucket, Pool>): int {
    SumOver(pools.Keys, b => PoolAt(pools, b).quantity)
  }

  function InRangeQuantity(lines: seq<Line>, n: nat): nat
    requires n <= |lines|
  {
    if n == 0 then 0 else InRangeQuantity(lines, n - 1) + if lines[n - 1].inRange then lines[n - 1].quantity else 0
  }

  /** The line's allocations are positive and add up to its quantity, and without a quantity it has no pallets. */
  ghost predicate Accounted(line: Line) {
    && AllPositive(line.allocations) && Total(line.allocations) == line.quantity
    && (line.quantity == 0 ==> line.pallets == 0)
  }

  function GroupSum(groups: seq<Group>, n: nat): int
    requires n <= |groups|
  {
    if n == 0 then 0 else GroupSum(groups, n - 1) + groups[n - 1].quantity
  }

  lemma AddShareQuantity(pools: map<Bucket, Pool>, b: Bucket, quantity: int, pallets: nat)
    ensures PooledQuantity(AddShare(pools, b, quantity, pallets)) == PooledQuantity(pools) + quantity
  {
    var after := AddShare(pools, b, quantity, pallets);
    if b in pools {
      assert after.Keys == pools.Keys;
      SumOverUpdate(pools.Keys, k => PoolAt(pools, k).quantity, k => PoolAt(after, k).quantity, b);
    } else {
      assert after.Keys == pools.Keys + {b};
      SumOverAdd(pools.Keys, k => PoolAt(after, k).quantity, b);
      SumOverEqual(pools.Keys, k => PoolAt(pools, k).quantity, k => PoolAt(after, k).quantity);
    }
  }

  lemma {:induction false} AddGroupsQuantity(pools: map<Bucket, Pool>, line: Line, groups: seq<Group>, shares: seq<nat>, n: nat)
    requires n <= |groups| == |shares|
    ensures PooledQuantity(AddGroups(pools, line, groups, shares, n)) == PooledQuantity(pools) + GroupSum(groups, n)
  {
    if n > 0 {
      AddGroupsQuantity(pools, line, groups, shares, n - 1);
      AddShareQuantity(AddGroups(pools, line, groups, shares, n - 1),
                       Bucket(line.documentId, line.sku, groups[n - 1].place), groups[n - 1].quantity, shares[n - 1]);
    }
  }

  /** Summing over the places of the allocations misses none of them. */
  lemma {:induction false} PlacesTotal(allocations: seq<Allocation>, s: set<int>)
    requires Places(allocations) <= s
    ensures SumOver(s, p => PlaceQuantity(allocations, p)) == Total(allocations)
  {
    if allocations == [] {
      SumOverSuperset({}, s, p => PlaceQuantity([], p));
    } else {
      var n := |allocations| - 1;
      var rest, a := allocations[..n], allocations[n];
      assert allocations == rest + [a];
      PlacesAppend(rest, a);
      PlacesTotal(rest, s);
      if 0 < a.quantity {
        assert a.place in s;
        SumOverUpdate(s, p => PlaceQuantity(rest, p), p => PlaceQuantity(allocations, p), a.place);
      } else {
        SumOverEqual(s, p => PlaceQuantity(rest, p), p => PlaceQuantity(allocations, p));
      }
    }
  }

  lemma {:induction false} EnumeratedSum(groups: seq<Group>, allocations: seq<Allocation>, n: nat)
    requires n <= |groups| && Grouped(groups, allocations)
    ensures GroupSum(groups, n) == SumOver(set i | 0 <= i < n :: groups[i].place, p => PlaceQuantity(allocations, p))
  {
    if n > 0 {
      EnumeratedSum(groups, allocations, n - 1);
      var before, place := set i | 0 <= i < n - 1 :: groups[i].place, groups[n - 1].place;
      forall i | 0 <= i < n - 1
        ensures groups[i].place < place
      {
        assert PlacesOf(groups)[i] < PlacesOf(groups)[n - 1];
      }
      SumOverAdd(before, p => PlaceQuantity(allocations, p), place);
      assert (set i | 0 <= i < n :: groups[i].place) == before + {place};
    }
  }

  lemma GroupsHoldAll(groups: seq<Group>, allocations: seq<Allocation>)
    requires Grouped(groups, allocations)
    ensures GroupSum(groups, |groups|) == Total(allocations)
  {
    var places := set i | 0 <= i < |groups| :: groups[i].place;
    forall p
      ensures p in places <==> p in Places(allocations)
    {
      assert p in PlacesOf(groups) <==> p in Places(allocations);
      assert forall i :: 0 <= i < |groups| ==> PlacesOf(groups)[i] == groups[i].place;
    }
    assert places == Places(allocations);
    EnumeratedSum(groups, allocations, |groups|);
    PlacesTotal(allocations, places);
  }

  lemma BilledQuantity(line: Line, groups: seq<Group>)
    requires Accounted(line) && BilledOn(line, groups)
    ensures GroupSum(groups, |groups|) == line.quantity
  {
    if Places(line.allocations) == {} {
      assert GroupSum(groups, 1) == GroupSum(groups, 0) + line.quantity;
    } else {
      GroupsHoldAll(groups, line.allocations);
    }
  }

  lemma AccountedNeverLoses(line: Line)
    requires Accounted(line)
    ensures !Loses(line)
  {
  }

  /** The pools of accounted lines hold their pallets and their pieces, all of them. */
  lemma {:induction false} AccountedAreBilledWhole(pools: map<Bucket, Pool>, lines: seq<Line>, groups: seq<seq<Group>>, n: nat)
    requires n <= |lines| && PooledFrom(pools, lines, groups, n)
    requires forall i :: 0 <= i < n ==> Accounted(lines[i])
    ensures PooledPallets(pools) == InRangePallets(lines, n)
    ensures PooledQuantity(pools) == InRangeQuantity(lines, n)
    decreases n
  {
    if n > 0 {
      var line, last := lines[n - 1], groups[n - 1];
      if Billed(line) {
        var before :| PooledFrom(before, lines, groups[..n - 1], n - 1)
                      && pools == AddGroups(before, line, last, PalletShares(line.pallets, last), |last|);
        AccountedAreBilledWhole(before, lines, groups[..n - 1], n - 1);
        AddGroupsTotal(before, line, last, PalletShares(line.pallets, last), |last|);
        AddGroupsQuantity(before, line, last, PalletShares(line.pallets, last), |last|);
        BilledShares(line, last);
        BilledQuantity(line, last);
        AccountedNeverLoses(line);
        LosingLine(line);
      } else {
        AccountedAreBilledWhole(pools, lines, groups[..n - 1], n - 1);
      }
    }
  }

  /** In every state of every run the pools hold every pallet and every piece of the confirmed lines in range. */
  lemma ConfirmedAreBilledWhole(steps: seq<Step>, pools: map<Bucket, Pool>, lines: seq<Line>, groups: seq<seq<Group>>)
    requires forall i :: 0 <= i < |lines| ==> ShownFrom(lines[i], Run(steps))
    requires PooledFrom(pools, lines, groups, |lines|)
    ensures PooledPallets(pools) == InRangePallets(lines, |lines|)
    ensures PooledQuantity(pools) == InRangeQuantity(lines, |lines|)
  {
    EveryStateIsSettled(steps);
    forall i | 0 <= i < |lines|
      ensures Accounted(lines[i])
    {
      assert ShownFrom(lines[i], Run(steps));
    }
    AccountedAreBilledWhole(pools, lines, groups, |lines|);
  }

  /** So it is with the pools that billing computes. */
  method PoolConfirmedLines(lines: seq<Line>, ghost steps: seq<Step>) returns (pools: map<Bucket, Pool>)
    requires forall i :: 0 <= i < |lines| ==> ShownFrom(lines[i], Run(steps))
    ensures PooledPallets(pools) == InRangePallets(lines, |lines|)
    ensures PooledQuantity(pools) == InRangeQuantity(lines, |lines|)
  {
    pools := PoolOutboundLines(lines);
    ghost var groups :| PooledFrom(pools, lines, groups, |lines|);
    ConfirmedAreBilledWhole(steps, pools, lines, groups);
  }
}
