/**
  What a ledger can hold, row by row in the order in which the rows were recorded, and exactly
  which openings such a ledger can turn into a failing movement check. Rows are dated by hand, so
  the order of the dates is another one.
 */
module RecordedLedgers {
  import opened Wrappers
  import opened Sums
  import opened BillingMoney
  import opened Lifecycle
  import opened PalletRelease
  import opened PalletMovement
  import opened TransferReleases
  import opened MovementCheck
  import opened ContainerStorage

  // ----- what can be recorded

  function Amount(m: Measure, e: Event): int {
    if m.Pallets? then e.pallets else e.quantity
  }

  /** Whole pallets and pieces; what is received or comes in is added, what is shipped or goes out is taken. */
  predicate ProperRow(e: Event) {
    && Whole(e.pallets) && Whole(e.quantity)
    && (e.kind == Receive || e.kind == TransferIn ==> 0 <= e.pallets && 0 <= e.quantity)
    && (e.kind == Ship || e.kind == TransferOut ==> e.pallets <= 0 && e.quantity <= 0)
  }

  /** A transfer line puts down elsewhere the pieces it takes up, on as many pallets as it likes. */
  predicate Carries(out: Event, into: Event) {
    Sides(out, into) && out.position != into.position && into.quantity == -out.quantity
  }

  /** Both sides of a transfer line are recorded together, the one that takes first. */
  ghost predicate Paired(rows: seq<Event>) {
    && (forall i :: 0 <= i < |rows| && rows[i].kind == TransferOut ==> i + 1 < |rows| && Carries(rows[i], rows[i + 1]))
    && (forall i :: 0 <= i < |rows| && rows[i].kind == TransferIn ==> 0 < i && Carries(rows[i - 1], rows[i]))
  }

  ghost predicate ProperRows(rows: seq<Event>) {
    TransfersKeepSku(rows) && Paired(rows) && forall i :: 0 <= i < |rows| ==> ProperRow(rows[i])
  }

  /** What a position holds once these rows are recorded, whatever their dates. */
  function Held(m: Measure, rows: seq<Event>, p: Position): int {
    if rows == [] then 0
    else (if rows[0].position == p then Amount(m, rows[0]) else 0) + Held(m, rows[1..], p)
  }

  /** No row takes what is not there when it is recorded: at every point what a known SKU holds anywhere is not negative. */
  ghost predicate NeverShort(rows: seq<Event>) {
    forall n, m, p: Position :: 0 <= n <= |rows| && 0 < p.sku ==> Held(m, rows[..n], p) >= 0
  }

  ghost predicate Numbered(rows: seq<Event>) {
    forall i, j :: 0 <= i < j < |rows| ==> rows[i].id < rows[j].id
  }

  /** A whole ledger, in the order of its ids. */
  ghost predicate Recordable(ledger: seq<Event>) {
    ProperRows(ledger) && Numbered(ledger) && NeverShort(ledger)
  }

  /** The same rows under other ids. */
  ghost predicate SameRows(s: seq<Event>, t: seq<Event>) {
    |s| == |t| && forall i :: 0 <= i < |s| ==> s[i] == t[i].(id := s[i].id)
  }

  lemma {:induction false} SameBalance(s: seq<Event>, t: seq<Event>, m: Measure, p: Position, day: int)
    requires SameRows(s, t)
    ensures Balance(m, s, p, day) == Balance(m, t, p, day)
  {
    if s != [] {
      SameBalance(s[1..], t[1..], m, p, day);
    }
  }

  lemma {:induction false} SameHeld(s: seq<Event>, t: seq<Event>, m: Measure, p: Position)
    requires SameRows(s, t)
    ensures Held(m, s, p) == Held(m, t, p)
  {
    if s != [] {
      SameHeld(s[1..], t[1..], m, p);
    }
  }

  lemma {:induction false} HeldConcat(m: Measure, s: seq<Event>, t: seq<Event>, p: Position)
    ensures Held(m, s + t, p) == Held(m, s, p) + Held(m, t, p)
  {
    if s == [] {
      assert s + t == t;
    } else {
      HeldConcat(m, s[1..], t, p);
      assert (s + t)[1..] == s[1..] + t;
    }
  }

  // ----- ids in the order of recording

  function Renumbered(rows: seq<Event>, id: int): (r: seq<Event>)
    ensures SameRows(r, rows) && Numbered(r)
  {
    seq(|rows|, i requires 0 <= i < |rows| => rows[i].(id := id + i))
  }

  lemma RenumberedConcat(s: seq<Event>, t: seq<Event>, id: int)
    ensures Renumbered(s + t, id) == Renumbered(s, id) + Renumbered(t, id + |s|)
  {
  }

  lemma RenumberedIsRecordable(rows: seq<Event>)
    requires ProperRows(rows) && NeverShort(rows)
    ensures Recordable(Renumbered(rows, 1))
  {
    var ledger := Renumbered(rows, 1);
    forall n, m, p: Position | 0 <= n <= |ledger| && 0 < p.sku
      ensures Held(m, ledger[..n], p) >= 0
    {
      SameHeld(ledger[..n], rows[..n], m, p);
    }
    assert Paired(ledger) by {
      forall i | 0 <= i < |rows| && rows[i].kind == TransferOut
        ensures i + 1 < |rows| && Carries(ledger[i], ledger[i + 1])
      {
        assert Carries(rows[i], rows[i + 1]);
      }
      forall i | 0 <= i < |rows| && rows[i].kind == TransferIn
        ensures 0 < i && Carries(ledger[i - 1], ledger[i])
      {
        assert Carries(rows[i - 1], rows[i]);
      }
    }
    assert TransfersKeepSku(ledger) by {
      assert forall i :: 0 <= i < |rows| ==> KeyOf(ledger[i]) == KeyOf(rows[i]) && ledger[i].position == rows[i].position
                                             && IsTransfer(ledger[i]) == IsTransfer(rows[i]);
    }
  }

  // ----- stock recorded in advance

  function Size(x: int): nat {
    if x < 0 then -x else x
  }

  /** No row, and no number of these rows, takes more than this anywhere. */
  function Need(rows: seq<Event>): nat {
    if rows == [] then 0 else Size(rows[0].pallets) + Size(rows[0].quantity) + Need(rows[1..])
  }

  lemma {:induction false} NeedIsWhole(rows: seq<Event>)
    requires forall i :: 0 <= i < |rows| ==> ProperRow(rows[i])
    ensures Whole(Need(rows))
  {
    if rows != [] {
      NeedIsWhole(rows[1..]);
      assert ProperRow(rows[0]);
      WholeSum(Size(rows[0].pallets), Size(rows[0].quantity));
      WholeSum(Size(rows[0].pallets) + Size(rows[0].quantity), Need(rows[1..]));
    }
  }

  lemma {:induction false} TakesNoMore(m: Measure, rows: seq<Event>, n: nat, p: Position)
    requires n <= |rows|
    ensures Held(m, rows[..n], p) + Need(rows) >= 0
    ensures p !in Positions(rows) ==> Held(m, rows[..n], p) == 0
  {
    if n > 0 {
      assert rows[..n][1..] == rows[1..][..n - 1];
      TakesNoMore(m, rows[1..], n - 1, p);
      assert forall i :: 0 <= i < |rows| - 1 ==> rows[1..][i] == rows[i + 1];
      assert rows[0].position in Positions(rows);
    }
  }

  /** A receipt for the place of every row, all of them dated the same day. */
  function Supply(rows: seq<Event>, amount: int, day: int): seq<Event> {
    seq(|rows|, i requires 0 <= i < |rows| => Event(0, rows[i].position, Receive, day, amount, amount, "INBOUND", 1, 1))
  }

  lemma {:induction false} SupplyHeld(m: Measure, rows: seq<Event>, n: nat, amount: nat, day: int, p: Position)
    requires n <= |rows|
    ensures Held(m, Supply(rows, amount, day)[..n], p) >= 0
    ensures n == |rows| && p in Positions(rows) ==> Held(m, Supply(rows, amount, day)[..n], p) >= amount
  {
    if n > 0 {
      var supply, rest := Supply(rows, amount, day), Supply(rows[1..], amount, day);
      SupplyHeld(m, rows[1..], n - 1, amount, day, p);
      assert supply[..n] == [supply[0]] + rest[..n - 1] && [supply[0]][1..] == [];
      HeldConcat(m, [supply[0]], rest[..n - 1], p);
      if p in Positions(rows) && p != rows[0].position {
        var i :| 0 <= i < |rows| && rows[i].position == p;
        assert rows[1..][i - 1].position == p;
      }
    }
  }

  function Supplied(history: seq<Event>, period: Period): seq<Event> {
    Supply(history, Need(history) + PALLET, period.endExclusive) + history
  }

  /** The history after enough stock was recorded for it, and then one pallet moved. */
  function Continued(history: seq<Event>, q: Position, p: Position, period: Period): seq<Event> {
    Supplied(history, period) + MovePallet(q, p, period.start, |history| + |history| + 1)
  }

  lemma MoveHeld(m: Measure, q: Position, p: Position, day: int, id: int, n: nat, r: Position)
    requires n <= 2 && p != q
    ensures var moved := Held(m, MovePallet(q, p, day, id)[..n], r);
            moved >= -PALLET && (r != q ==> moved >= 0)
  {
    var move := MovePallet(q, p, day, id);
    assert move[..0] == [] && move[..1] == [move[0]] && move[..2] == [move[0]] + [move[1]];
    assert [move[0]][1..] == [] && [move[1]][1..] == [];
    HeldConcat(m, [move[0]], [move[1]], r);
  }

  lemma ContinuedIsNeverShort(history: seq<Event>, q: Position, p: Position, period: Period)
    requires q in Positions(history) && p != q
    ensures NeverShort(Continued(history, q, p, period))
  {
    var enough := Need(history) + PALLET;
    var supply, move := Supply(history, enough, period.endExclusive), MovePallet(q, p, period.start, |history| + |history| + 1);
    var rows, k := Continued(history, q, p, period), |history|;
    forall n, m, r: Position | 0 <= n <= |rows| && 0 < r.sku
      ensures Held(m, rows[..n], r) >= 0
    {
      if n <= k {
        assert rows[..n] == supply[..n];
        SupplyHeld(m, history, n, enough, period.endExclusive, r);
      } else {
        SupplyHeld(m, history, k, enough, period.endExclusive, r);
        assert supply[..k] == supply;
        var i, j := if n <= k + k then n - k else k, if n <= k + k then 0 else n - k - k;
        assert rows[..n] == supply + history[..i] + move[..j];
        HeldConcat(m, supply + history[..i], move[..j], r);
        HeldConcat(m, supply, history[..i], r);
        TakesNoMore(m, history, i, r);
        MoveHeld(m, q, p, period.start, |history| + |history| + 1, j, r);
      }
    }
  }

  lemma {:induction false} SupplyIsProper(rows: seq<Event>, amount: nat, day: int)
    requires Whole(amount)
    ensures ProperRows(Supply(rows, amount, day))
    ensures forall i :: 0 <= i < |rows| ==> !IsTransfer(Supply(rows, amount, day)[i])
  {
  }

  lemma MoveIsProper(q: Position, p: Position, day: int, id: int)
    requires 0 < p.sku == q.sku && p != q
    ensures ProperRows(MovePallet(q, p, day, id))
  {
    assert Whole(PALLET) && Whole(-PALLET);
  }

  lemma PairedConcat(s: seq<Event>, t: seq<Event>)
    requires Paired(s) && Paired(t)
    ensures Paired(s + t)
  {
    var both := s + t;
    forall i | 0 <= i < |both| && both[i].kind == TransferOut
      ensures i + 1 < |both| && Carries(both[i], both[i + 1])
    {
      assert if i < |s| then Carries(s[i], s[i + 1]) else Carries(t[i - |s|], t[i - |s| + 1]);
    }
    forall i | 0 <= i < |both| && both[i].kind == TransferIn
      ensures 0 < i && Carries(both[i - 1], both[i])
    {
      assert if i < |s| then Carries(s[i - 1], s[i]) else Carries(t[i - |s| - 1], t[i - |s|]);
    }
  }

  ghost predicate MovedBefore(rows: seq<Event>, day: int) {
    forall i :: 0 <= i < |rows| && IsTransfer(rows[i]) ==> rows[i].day < day
  }

  ghost predicate MovedFrom(rows: seq<Event>, day: int) {
    forall i :: 0 <= i < |rows| && IsTransfer(rows[i]) ==> day <= rows[i].day
  }

  /** Transfers of different days are different lines. */
  lemma ProperConcat(s: seq<Event>, t: seq<Event>, day: int)
    requires ProperRows(s) && ProperRows(t)
    requires (MovedBefore(s, day) && MovedFrom(t, day)) || (MovedFrom(s, day) && MovedBefore(t, day))
    ensures ProperRows(s + t)
  {
    PairedConcat(s, t);
    var both := s + t;
    forall i, j | 0 <= i < |both| && 0 <= j < |both| && IsTransfer(both[i]) && IsTransfer(both[j])
                  && KeyOf(both[i]) == KeyOf(both[j])
      ensures both[i].position.sku == both[j].position.sku
    {
      assert both[i] == (if i < |s| then s[i] else t[i - |s|]) && both[j] == if j < |s| then s[j] else t[j - |s|];
      assert both[i].day == both[j].day;
    }
  }

  lemma SuppliedIsProper(history: seq<Event>, period: Period)
    requires ProperRows(history) && DatedBefore(history, period.start)
    ensures ProperRows(Supplied(history, period)) && MovedBefore(Supplied(history, period), period.start)
  {
    NeedIsWhole(history);
    WholeSum(Need(history), PALLET);
    SupplyIsProper(history, Need(history) + PALLET, period.endExclusive);
    ProperConcat(Supply(history, Need(history) + PALLET, period.endExclusive), history, period.start);
  }

  lemma ContinuedIsProper(history: seq<Event>, q: Position, p: Position, period: Period)
    requires ProperRows(history) && DatedBefore(history, period.start) && 0 < p.sku == q.sku && p != q
    ensures ProperRows(Continued(history, q, p, period))
  {
    var move := MovePallet(q, p, period.start, |history| + |history| + 1);
    SuppliedIsProper(history, period);
    MoveIsProper(q, p, period.start, |history| + |history| + 1);
    ProperConcat(Supplied(history, period), move, period.start);
  }

  // ----- the check on such a ledger

  lemma Regroup(a: seq<Event>, b: seq<Event>, c: seq<Event>)
    ensures a + (b + c) == a + b + c
  {
  }

  lemma {:induction false} KnownConcat(s: seq<Event>, t: seq<Event>, before: int)
    ensures Known(s + t, before) == Known(s, before) + Known(t, before)
  {
    if s == [] {
      assert s + t == t;
    } else {
      KnownConcat(s[1..], t, before);
      assert (s + t)[1..] == s[1..] + t;
      Regroup(if s[0].day < before then [s[0]] else [], Known(s[1..], before), Known(t, before));
    }
  }

  lemma {:induction false} AllOrNoneKnown(events: seq<Event>, before: int)
    ensures DatedBefore(events, before) ==> Known(events, before) == events
    ensures (forall i :: 0 <= i < |events| ==> before <= events[i].day) ==> Known(events, before) == []
  {
    if events != [] {
      AllOrNoneKnown(events[1..], before);
    }
  }

  lemma {:induction false} KnownTells(events: seq<Event>, scope: Scope, period: Period, key: TransferKey)
    ensures Shipped(Known(events, period.endExclusive), scope, period, None) == Shipped(events, scope, period, None)
    ensures TransferNet(Known(events, period.endExclusive), scope, period, key) == TransferNet(events, scope, period, key)
  {
    if events != [] {
      KnownTells(events[1..], scope, period, key);
      var rest := Known(events[1..], period.endExclusive);
      assert ([events[0]] + rest)[1..] == rest && [] + rest == rest;
    }
  }

  lemma KnownKeys(events: seq<Event>, scope: Scope, period: Period)
    ensures TransferKeys(Known(events, period.endExclusive), scope, period) <= TransferKeys(events, scope, period)
  {
    var known := Known(events, period.endExclusive);
    forall k | k in TransferKeys(known, scope, period)
      ensures k in TransferKeys(events, scope, period)
    {
      var i :| 0 <= i < |known| && Relevant(known[i], scope, period) && IsTransfer(known[i]) && KeyOf(known[i]) == k;
      KnownMembers(events, period.endExclusive, known[i]);
      var j :| 0 <= j < |events| && events[j] == known[i];
    }
  }

  lemma ReleasedKnown(events: seq<Event>, scope: Scope, period: Period)
    ensures ReleasedInAll(Known(events, period.endExclusive), scope, period) == ReleasedInAll(events, scope, period)
  {
    var known, keys := Known(events, period.endExclusive), TransferKeys(events, scope, period);
    forall k
      ensures NetOut(known, scope, period, k) == NetOut(events, scope, period, k)
    {
      KnownTells(events, scope, period, k);
    }
    KnownKeys(events, scope, period);
    NetOver(known, scope, period, keys);
    SumOverEqual(keys, k => NetOut(known, scope, period, k), k => NetOut(events, scope, period, k));
    KnownTells(events, scope, period, TransferKey(0, "", 0, 0));
  }

  /** Rows dated after a period do not show in its movement. */
  lemma MovementKnown(events: seq<Event>, scope: Scope, period: Period)
    requires period.start <= period.endExclusive
    ensures Movement(Known(events, period.endExclusive), scope, period) == Movement(events, scope, period)
  {
    TotalsKnown(events, period.endExclusive, scope, FillRule(false, 0), period.start - 1);
    TotalsKnown(events, period.endExclusive, scope, FillRule(false, 0), period.endExclusive - 1);
    ReleasedKnown(events, scope, period);
  }

  lemma KnownParts(ledger: seq<Event>, supply: seq<Event>, past: seq<Event>, move: seq<Event>, before: int)
    requires ledger == supply + past + move
    requires DatedBefore(past, before) && forall i :: 0 <= i < |supply| ==> before <= supply[i].day
    ensures Known(ledger, before) == past + Known(move, before)
  {
    KnownConcat(supply + past, move, before);
    KnownConcat(supply, past, before);
    AllOrNoneKnown(supply, before);
    AllOrNoneKnown(past, before);
    assert [] + past == past;
  }

  ghost predicate AllDated(events: seq<Event>, day: int) {
    forall i :: 0 <= i < |events| ==> events[i].day == day
  }

  lemma ThreeParts(ledger: seq<Event>, supply: seq<Event>, past: seq<Event>, move: seq<Event>, period: Period)
    requires period.start < period.endExclusive && ledger == supply + past + move
    requires AllDated(supply, period.endExclusive) && DatedBefore(past, period.start) && AllDated(move, period.start)
    ensures Known(ledger, period.start) == past && Known(ledger, period.endExclusive) == past + move
  {
    KnownParts(ledger, supply, past, move, period.start);
    KnownParts(ledger, supply, past, move, period.endExclusive);
    AllOrNoneKnown(move, period.start);
    AllOrNoneKnown(move, period.endExclusive);
    assert past + [] == past;
  }

  lemma SameDates(s: seq<Event>, t: seq<Event>, start: int)
    requires SameRows(s, t) && DatedBefore(t, start)
    ensures DatedBefore(s, start)
  {
  }

  lemma MoveIsNumbered(q: Position, p: Position, day: int, id: int)
    ensures Renumbered(MovePallet(q, p, day, id), id) == MovePallet(q, p, day, id) && AllDated(MovePallet(q, p, day, id), day)
  {
  }

  /** Before the period a continued ledger shows its history, and in the period the pallet moved. */
  lemma ContinuedShows(history: seq<Event>, q: Position, p: Position, period: Period)
    requires period.start < period.endExclusive && DatedBefore(history, period.start)
    ensures var ledger := Renumbered(Continued(history, q, p, period), 1);
            && SameRows(Known(ledger, period.start), history)
            && Known(ledger, period.endExclusive)
               == Known(ledger, period.start) + MovePallet(q, p, period.start, |history| + |history| + 1)
  {
    var k, supply := |history|, Supply(history, Need(history) + PALLET, period.endExclusive);
    var move := MovePallet(q, p, period.start, k + k + 1);
    RenumberedConcat(supply + history, move, 1);
    RenumberedConcat(supply, history, 1);
    MoveIsNumbered(q, p, period.start, k + k + 1);
    SameDates(Renumbered(history, k + 1), history, period.start);
    ThreeParts(Renumbered(Continued(history, q, p, period), 1), Renumbered(supply, 1), Renumbered(history, k + 1), move, period);
  }

  lemma BalanceNeedsRow(events: seq<Event>, p: Position, day: int)
    ensures Balance(Pallets, events, p, day) != 0 ==> p in Positions(events)
  {
    if p !in Positions(events) {
      NoEventsYet(Pallets, events, p, day);
    }
  }

  lemma ContinuedIsRecordable(history: seq<Event>, q: Position, p: Position, period: Period)
    requires ProperRows(history) && DatedBefore(history, period.start) && 0 < p.sku == q.sku && p != q
    requires Balance(Pallets, history, q, period.start - 1) != 0
    ensures Recordable(Renumbered(Continued(history, q, p, period), 1))
  {
    BalanceNeedsRow(history, q, period.start - 1);
    ContinuedIsProper(history, q, p, period);
    ContinuedIsNeverShort(history, q, p, period);
    RenumberedIsRecordable(Continued(history, q, p, period));
  }

  lemma ContinuedFails(history: seq<Event>, q: Position, p: Position, scope: Scope, period: Period) returns (ledger: seq<Event>)
    requires period.start < period.endExclusive && DatedBefore(history, period.start)
    requires scope.Includes(p) && Balance(Pallets, history, p, period.start - 1) <= -PALLET
    requires scope.Includes(q) && Balance(Pallets, history, q, period.start - 1) >= PALLET
    ensures ledger == Renumbered(Continued(history, q, p, period), 1) && SameRows(Known(ledger, period.start), history)
    ensures Movement(ledger, scope, period) == -PALLET
  {
    ledger := Renumbered(Continued(history, q, p, period), 1);
    ContinuedShows(history, q, p, period);
    var past := Known(ledger, period.start);
    SameDates(past, history, period.start);
    SameBalance(past, history, Pallets, p, period.start - 1);
    SameBalance(past, history, Pallets, q, period.start - 1);
    MoveTripsCheck(past, q, p, |history| + |history| + 1, scope, period);
    MovementKnown(ledger, scope, period);
  }

  /**
    Whatever the history, enough stock recorded in advance makes it one that a ledger can hold;
    and if it leaves a SKU short at one place in scope and stocked at another, then moving a single
    pallet between the two fails the check.
   */
  lemma MixedOpeningFails(history: seq<Event>, scope: Scope, period: Period) returns (ledger: seq<Event>)
    requires period.start < period.endExclusive && DatedBefore(history, period.start) && ProperRows(history)
    requires Mixes(history, scope, period.start - 1)
    ensures Recordable(ledger) && SameRows(Known(ledger, period.start), history)
    ensures Movement(ledger, scope, period) == -PALLET
  {
    var day := period.start - 1;
    var p: Position, q: Position :| 0 < p.sku == q.sku && ShortAt(history, scope, p, day) && StockedAt(history, scope, q, day);
    WholeBalance(history, p, day);
    WholeBalance(history, q, day);
    ContinuedIsRecordable(history, q, p, period);
    ledger := ContinuedFails(history, q, p, scope, period);
  }

  /**
    Given what is dated before a period, the check passes on every ledger that can be recorded with
    it if and only if no SKU is short at one place in scope and stocked at another at the start.
   */
  lemma CheckPassesExactlyWhen(history: seq<Event>, scope: Scope, period: Period)
    requires period.start < period.endExclusive && DatedBefore(history, period.start) && ProperRows(history)
    ensures (forall ledger: seq<Event> :: Recordable(ledger) && SameRows(Known(ledger, period.start), history) ==>
               Movement(ledger, scope, period) >= 0)
       <==> !Mixes(history, scope, period.start - 1)
  {
    var day := period.start - 1;
    if Mixes(history, scope, day) {
      var ledger := MixedOpeningFails(history, scope, period);
    } else {
      forall ledger: seq<Event> | Recordable(ledger) && SameRows(Known(ledger, period.start), history)
        ensures Movement(ledger, scope, period) >= 0
      {
        forall p
          ensures Balance(Pallets, ledger, p, day) == Balance(Pallets, history, p, day)
        {
          KnownBalance(Pallets, ledger, period.start, p, day);
          SameBalance(Known(ledger, period.start), history, Pallets, p, day);
        }
        SafeOpening(ledger, scope, period);
      }
    }
  }

  // ----- an everyday ledger that fails

  const PLACE_A := Position(1, "A", 7)
  const PLACE_B := Position(1, "B", 7)

  /** Received at one place, moved to another and shipped from there, the shipment dated back before the move. */
  const BACKDATED := [Event(1, PLACE_A, Receive, 1, PALLET, PALLET, "INBOUND", 1, 1),
                      Event(2, PLACE_A, TransferOut, 10, -PALLET, -PALLET, "TRANSFER", 2, 2),
                      Event(3, PLACE_B, TransferIn, 10, PALLET, PALLET, "TRANSFER", 2, 2),
                      Event(4, PLACE_B, Ship, 5, -PALLET, -PALLET, "OUTBOUND", 1, 1)]

  lemma BackdatedIsNeverShort()
    ensures NeverShort(BACKDATED)
  {
    var s := BACKDATED;
    forall n, m, p: Position | 0 <= n <= |s| && 0 < p.sku
      ensures Held(m, s[..n], p) >= 0
    {
      assert s[..0] == [] && s[..1] == [s[0]] && s[..2] == [s[0]] + [s[1]];
      assert s[..3] == [s[0]] + [s[1]] + [s[2]] && s[..4] == [s[0]] + [s[1]] + [s[2]] + [s[3]];
      HeldConcat(m, [s[0]], [s[1]], p);
      HeldConcat(m, [s[0]] + [s[1]], [s[2]], p);
      HeldConcat(m, [s[0]] + [s[1]] + [s[2]], [s[3]], p);
      assert forall i :: 0 <= i < 4 ==> [s[i]][1..] == [];
    }
  }

  lemma SortedByHead(e: Event, rest: seq<Event>)
    ensures SortEvents([e] + rest) == InsertEvent(e, SortEvents(rest))
  {
    assert ([e] + rest)[1..] == rest;
  }

  lemma InsertByHead(e: Event, d: Event, rest: seq<Event>)
    ensures InsertEvent(e, [d] + rest) == if NotAfter(d, e) then [d] + InsertEvent(e, rest) else [e] + ([d] + rest)
  {
    assert ([d] + rest)[1..] == rest;
  }

  /** The last of four events goes to the second place. */
  lemma FourSorted(s: seq<Event>)
    requires |s| == 4 && s[0].day < s[3].day < s[1].day <= s[2].day && s[1].id < s[2].id
    ensures SortEvents(s) == [s[0], s[3], s[1], s[2]]
  {
    var a, b, c, d := s[0], s[1], s[2], s[3];
    SortedByHead(d, []);
    SortedByHead(c, [d]);
    InsertByHead(c, d, []);
    SortedByHead(b, [c, d]);
    InsertByHead(b, d, [c]);
    InsertByHead(b, c, []);
    SortedByHead(a, [b, c, d]);
    InsertByHead(a, d, [b, c]);
    assert [d] + [] == [d] && [d] + [c] == [d, c] && [c] + [d] == [c, d] && [b] + [c, d] == [b, c, d];
    assert [d] + [b, c] == [d, b, c] && s == [a] + [b, c, d];
  }

  lemma BackdatedSorted() returns (history: seq<Event>)
    ensures history == [BACKDATED[0], BACKDATED[3]]
    ensures SortEvents(BACKDATED) == history + MovePallet(PLACE_A, PLACE_B, 10, 2)
  {
    history := [BACKDATED[0], BACKDATED[3]];
    FourSorted(BACKDATED);
  }

  lemma SortedMovement(events: seq<Event>, scope: Scope, period: Period)
    ensures Movement(SortEvents(events), scope, period) == Movement(events, scope, period)
  {
    SortedTotals(events, scope, FillRule(false, 0), 0, period.start - 1);
    SortedTotals(events, scope, FillRule(false, 0), 0, period.endExclusive - 1);
    SortedReleaseTotals(events, scope, period, 0);
  }

  lemma BackdatedBalance(history: seq<Event>, p: Position)
    requires history == [BACKDATED[0], BACKDATED[3]]
    ensures Balance(Pallets, history, p, 9) == (if p == PLACE_A then PALLET else 0) - (if p == PLACE_B then PALLET else 0)
  {
    BalanceAppend(Pallets, [], BACKDATED[0], p, 9);
    BalanceAppend(Pallets, [] + [BACKDATED[0]], BACKDATED[3], p, 9);
    assert history == [] + [BACKDATED[0]] + [BACKDATED[3]];
  }

  lemma OneLineIsProper(s: seq<Event>)
    requires |s| == 4 && !IsTransfer(s[0]) && Carries(s[1], s[2]) && !IsTransfer(s[3])
    requires 0 < s[1].position.sku == s[2].position.sku && forall i :: 0 <= i < 4 ==> ProperRow(s[i])
    ensures ProperRows(s)
  {
  }

  lemma BackdatedIsProper()
    ensures ProperRows(BACKDATED) && Numbered(BACKDATED)
  {
    assert Whole(PALLET) && Whole(-PALLET);
    OneLineIsProper(BACKDATED);
  }

  lemma BackdatedMovement(history: seq<Event>, scope: Scope, period: Period)
    requires history == [BACKDATED[0], BACKDATED[3]] && scope.warehouse.None? && period.start == 10 < period.endExclusive
    ensures Movement(history + MovePallet(PLACE_A, PLACE_B, 10, 2), scope, period) == -PALLET
  {
    BackdatedBalance(history, PLACE_A);
    BackdatedBalance(history, PLACE_B);
    MoveTripsCheck(history, PLACE_A, PLACE_B, 2, scope, period);
  }

  /** No row takes what is not there, and still the check fails for the period in which the pallet moved. */
  lemma BackdatedShipmentFails()
    ensures Recordable(BACKDATED)
    ensures Movement(BACKDATED, Scope(None), Period(10, 20)) == -PALLET
  {
    BackdatedIsProper();
    BackdatedIsNeverShort();
    var history := BackdatedSorted();
    BackdatedMovement(history, Scope(None), Period(10, 20));
    SortedMovement(BACKDATED, Scope(None), Period(10, 20));
  }
}
