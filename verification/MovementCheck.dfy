/**
  When the movement check can fail at all. The two sides of a transfer line keep its SKU, so the
  movement of a container is the sum of movements that transfers do not mix: one for every SKU.
 */
module MovementCheck {
  import opened Wrappers
  import opened Sums
  import opened BillingMoney
  import opened Lifecycle
  import opened PalletRelease
  import opened PalletMovement
  import opened TransferReleases

  // ----- what a ledger can hold

  predicate Whole(x: int) {
    x % UNITS == 0
  }

  /** A transfer names a SKU, and so do both sides of one line. */
  ghost predicate TransfersKeepSku(events: seq<Event>) {
    && (forall i :: 0 <= i < |events| && IsTransfer(events[i]) ==> 0 < events[i].position.sku)
    && (forall i, j :: 0 <= i < |events| && 0 <= j < |events| && IsTransfer(events[i]) && IsTransfer(events[j])
                       && KeyOf(events[i]) == KeyOf(events[j]) ==>
          events[i].position.sku == events[j].position.sku)
  }

  // ----- a part of the positions

  /** The events of some positions. */
  function Part(events: seq<Event>, s: set<Position>): seq<Event> {
    if events == [] then []
    else (if events[0].position in s then [events[0]] else []) + Part(events[1..], s)
  }

  lemma PartHead(events: seq<Event>, s: set<Position>)
    requires events != []
    ensures if events[0].position in s
            then Part(events, s) != [] && Part(events, s)[0] == events[0] && Part(events, s)[1..] == Part(events[1..], s)
            else Part(events, s) == Part(events[1..], s)
  {
    assert [] + Part(events[1..], s) == Part(events[1..], s);
  }

  lemma {:induction false} PartMembers(events: seq<Event>, s: set<Position>, e: Event)
    ensures e in Part(events, s) <==> e in events && e.position in s
  {
    if events != [] {
      PartMembers(events[1..], s, e);
      assert events == [events[0]] + events[1..];
    }
  }

  lemma {:induction false} PartBalance(events: seq<Event>, s: set<Position>, p: Position, day: int)
    ensures Balance(Pallets, Part(events, s), p, day) == if p in s then Balance(Pallets, events, p, day) else 0
  {
    if events != [] {
      PartHead(events, s);
      PartBalance(events[1..], s, p, day);
    }
  }

  lemma PartPositions(events: seq<Event>, s: set<Position>)
    ensures Positions(Part(events, s)) == Positions(events) * s
  {
    var part := Part(events, s);
    forall p
      ensures p in Positions(part) <==> p in Positions(events) * s
    {
      if p in Positions(part) {
        var i :| 0 <= i < |part| && part[i].position == p;
        PartMembers(events, s, part[i]);
        var j :| 0 <= j < |events| && events[j] == part[i];
      }
      if p in Positions(events) * s {
        var j :| 0 <= j < |events| && events[j].position == p;
        PartMembers(events, s, events[j]);
        var i :| 0 <= i < |part| && part[i] == events[j];
      }
    }
  }

  lemma {:induction false} WholeIsPart(events: seq<Event>, s: set<Position>)
    requires Positions(events) <= s
    ensures Part(events, s) == events
  {
    if events != [] {
      assert events[0].position in Positions(events);
      forall p | p in Positions(events[1..])
        ensures p in s
      {
        var i :| 0 <= i < |events| - 1 && events[1..][i].position == p;
        assert events[i + 1].position == p;
      }
      WholeIsPart(events[1..], s);
      PartHead(events, s);
    }
  }

  // ----- two parts that no transfer connects

  function OnHandIn(events: seq<Event>, scope: Scope, s: set<Position>, p: Position, day: int): nat {
    if p in s then OnHandAt(events, scope, p, day) else 0
  }

  lemma PartOnHand(events: seq<Event>, s: set<Position>, scope: Scope, day: int)
    ensures OnHand(Part(events, s), scope, day) == SumOver(Positions(events), p => OnHandIn(events, scope, s, p, day))
  {
    var part := Part(events, s);
    PartPositions(events, s);
    forall p {
      PartBalance(events, s, p, day);
    }
    SumOverEqual(Positions(part), p => OnHandAt(part, scope, p, day), p => OnHandIn(events, scope, s, p, day));
    SumOverSuperset(Positions(part), Positions(events), p => OnHandIn(events, scope, s, p, day));
  }

  lemma PartsOnHand(events: seq<Event>, s: set<Position>, t: set<Position>, scope: Scope, day: int)
    requires s !! t
    ensures OnHand(Part(events, s + t), scope, day) == OnHand(Part(events, s), scope, day) + OnHand(Part(events, t), scope, day)
  {
    PartOnHand(events, s, scope, day);
    PartOnHand(events, t, scope, day);
    PartOnHand(events, s + t, scope, day);
    SumOverPlus(Positions(events), p => OnHandIn(events, scope, s, p, day), p => OnHandIn(events, scope, t, p, day),
                p => OnHandIn(events, scope, s + t, p, day));
  }

  lemma {:induction false} PartsTell(events: seq<Event>, s: set<Position>, t: set<Position>, scope: Scope, period: Period,
                                     key: TransferKey)
    requires s !! t
    ensures Shipped(Part(events, s + t), scope, period, None)
         == Shipped(Part(events, s), scope, period, None) + Shipped(Part(events, t), scope, period, None)
    ensures TransferNet(Part(events, s + t), scope, period, key)
         == TransferNet(Part(events, s), scope, period, key) + TransferNet(Part(events, t), scope, period, key)
  {
    if events != [] {
      PartHead(events, s);
      PartHead(events, t);
      PartHead(events, s + t);
      PartsTell(events[1..], s, t, scope, period, key);
    }
  }

  /** No transfer line has one side in s and the other in t. */
  ghost predicate Apart(events: seq<Event>, s: set<Position>, t: set<Position>) {
    forall i, j :: 0 <= i < |events| && 0 <= j < |events| && IsTransfer(events[i]) && IsTransfer(events[j])
                   && KeyOf(events[i]) == KeyOf(events[j]) ==>
      !(events[i].position in s && events[j].position in t)
  }

  lemma PartKeys(events: seq<Event>, s: set<Position>, scope: Scope, period: Period, key: TransferKey) returns (i: nat)
    requires key in TransferKeys(Part(events, s), scope, period)
    ensures i < |events| && IsTransfer(events[i]) && KeyOf(events[i]) == key && events[i].position in s
  {
    var part := Part(events, s);
    var k :| 0 <= k < |part| && Relevant(part[k], scope, period) && IsTransfer(part[k]) && KeyOf(part[k]) == key;
    PartMembers(events, s, part[k]);
    i :| 0 <= i < |events| && events[i] == part[k];
  }

  /** A key used in one part is not used in the other. */
  lemma KeysApart(events: seq<Event>, s: set<Position>, t: set<Position>, scope: Scope, period: Period, key: TransferKey)
    requires Apart(events, s, t) && s !! t
    ensures NetOut(Part(events, s + t), scope, period, key)
         == NetOut(Part(events, s), scope, period, key) + NetOut(Part(events, t), scope, period, key)
  {
    PartsTell(events, s, t, scope, period, key);
    if key in TransferKeys(Part(events, s), scope, period) && key in TransferKeys(Part(events, t), scope, period) {
      var i := PartKeys(events, s, scope, period, key);
      var j := PartKeys(events, t, scope, period, key);
      assert false;
    }
    if key !in TransferKeys(Part(events, s), scope, period) {
      UnusedKeyNetsZero(Part(events, s), scope, period, key);
    } else {
      UnusedKeyNetsZero(Part(events, t), scope, period, key);
    }
  }

  lemma NetOver(events: seq<Event>, scope: Scope, period: Period, keys: set<TransferKey>)
    requires TransferKeys(events, scope, period) <= keys
    ensures ReleasedInAll(events, scope, period)
         == Shipped(events, scope, period, None) + SumOver(keys, k => NetOut(events, scope, period, k))
  {
    forall k | k !in TransferKeys(events, scope, period)
      ensures NetOut(events, scope, period, k) == 0
    {
      UnusedKeyNetsZero(events, scope, period, k);
    }
    SumOverSuperset(TransferKeys(events, scope, period), keys, k => NetOut(events, scope, period, k));
  }

  lemma PartsReleased(events: seq<Event>, s: set<Position>, t: set<Position>, scope: Scope, period: Period)
    requires Apart(events, s, t) && s !! t
    ensures ReleasedInAll(Part(events, s + t), scope, period)
         == ReleasedInAll(Part(events, s), scope, period) + ReleasedInAll(Part(events, t), scope, period)
  {
    var a, b, both := Part(events, s), Part(events, t), Part(events, s + t);
    var keys := TransferKeys(a, scope, period) + TransferKeys(b, scope, period) + TransferKeys(both, scope, period);
    NetOver(a, scope, period, keys);
    NetOver(b, scope, period, keys);
    NetOver(both, scope, period, keys);
    forall k {
      KeysApart(events, s, t, scope, period, k);
    }
    SumOverPlus(keys, k => NetOut(a, scope, period, k), k => NetOut(b, scope, period, k), k => NetOut(both, scope, period, k));
    PartsTell(events, s, t, scope, period, TransferKey(0, "", 0, 0));
  }

  /** Movements of parts that no transfer connects add up. */
  lemma PartsMovement(events: seq<Event>, s: set<Position>, t: set<Position>, scope: Scope, period: Period)
    requires Apart(events, s, t) && s !! t
    ensures Movement(Part(events, s + t), scope, period)
         == Movement(Part(events, s), scope, period) + Movement(Part(events, t), scope, period)
  {
    PartsReleased(events, s, t, scope, period);
    PartsOnHand(events, s, t, scope, period.start - 1);
    PartsOnHand(events, s, t, scope, period.endExclusive - 1);
    MovementAdds(Part(events, s + t), Part(events, s), Part(events, t), scope, period);
  }

  lemma MovementAdds(both: seq<Event>, a: seq<Event>, b: seq<Event>, scope: Scope, period: Period)
    requires ReleasedInAll(both, scope, period) == ReleasedInAll(a, scope, period) + ReleasedInAll(b, scope, period)
    requires OnHand(both, scope, period.start - 1) == OnHand(a, scope, period.start - 1) + OnHand(b, scope, period.start - 1)
    requires OnHand(both, scope, period.endExclusive - 1)
          == OnHand(a, scope, period.endExclusive - 1) + OnHand(b, scope, period.endExclusive - 1)
    ensures Movement(both, scope, period) == Movement(a, scope, period) + Movement(b, scope, period)
  {
  }

  // ----- openings that are safe SKU by SKU

  ghost predicate ShortAt(events: seq<Event>, scope: Scope, p: Position, day: int) {
    scope.Includes(p) && Balance(Pallets, events, p, day) < 0
  }

  ghost predicate StockedAt(events: seq<Event>, scope: Scope, p: Position, day: int) {
    scope.Includes(p) && Balance(Pallets, events, p, day) > 0
  }

  /** One SKU is short at one place in scope and stocked at another. */
  ghost predicate Mixes(events: seq<Event>, scope: Scope, day: int) {
    exists p: Position, q: Position :: 0 < p.sku == q.sku && ShortAt(events, scope, p, day) && StockedAt(events, scope, q, day)
  }

  /** Positions of one SKU, or a single position. */
  predicate OneKind(s: set<Position>) {
    forall p, q :: p in s && q in s ==> p == q || 0 < p.sku == q.sku
  }

  lemma MixedBy(events: seq<Event>, scope: Scope, day: int, p: Position, q: Position)
    ensures 0 < p.sku == q.sku && ShortAt(events, scope, p, day) && StockedAt(events, scope, q, day) ==>
              Mixes(events, scope, day)
  {
  }

  lemma KindIsSafe(events: seq<Event>, s: set<Position>, scope: Scope, period: Period)
    requires period.start <= period.endExclusive && OneKind(s) && !Mixes(events, scope, period.start - 1)
    ensures Movement(Part(events, s), scope, period) >= 0
  {
    var part, day := Part(events, s), period.start - 1;
    forall p {
      PartBalance(events, s, p, day);
    }
    if SomeShort(part, scope, day) && SomeStocked(part, scope, day) {
      var p :| scope.Includes(p) && Balance(Pallets, part, p, day) < 0;
      var q :| scope.Includes(q) && Balance(Pallets, part, q, day) > 0;
      MixedBy(events, scope, day, p, q);
      assert false;
    }
    UnmixedIsSafe(part, scope, period);
  }

  lemma NothingMoves(events: seq<Event>, scope: Scope, period: Period)
    ensures Movement(Part(events, {}), scope, period) == 0
  {
    NothingInPart(events);
  }

  lemma {:induction false} NothingInPart(events: seq<Event>)
    ensures Part(events, {}) == []
  {
    if events != [] {
      NothingInPart(events[1..]);
    }
  }

  lemma {:induction false} PositionsAreSafe(events: seq<Event>, s: set<Position>, scope: Scope, period: Period)
    requires period.start <= period.endExclusive && TransfersKeepSku(events) && !Mixes(events, scope, period.start - 1)
    ensures Movement(Part(events, s), scope, period) >= 0
    decreases |s|
  {
    if s == {} {
      NothingMoves(events, scope, period);
    } else {
      var p :| p in s;
      var kind := set q | q in s && (q == p || 0 < q.sku == p.sku);
      var rest := s - kind;
      assert s == kind + rest && p in kind;
      KindIsSafe(events, kind, scope, period);
      PositionsAreSafe(events, rest, scope, period);
      PartsMovement(events, kind, rest, scope, period);
    }
  }

  /** The check passes when no SKU is short and stocked in scope at the start, however events interleave. */
  lemma SafeOpening(events: seq<Event>, scope: Scope, period: Period)
    requires period.start <= period.endExclusive && TransfersKeepSku(events) && !Mixes(events, scope, period.start - 1)
    ensures Movement(events, scope, period) >= 0
  {
    WholeIsPart(events, Positions(events));
    PositionsAreSafe(events, Positions(events), scope, period);
  }

  // ----- and no other opening is

  /** One pallet, in ten-thousandths. */
  const PALLET: int := UNITS

  ghost predicate DatedBefore(events: seq<Event>, start: int) {
    forall i :: 0 <= i < |events| ==> events[i].day < start
  }

  function MoveOut(q: Position, day: int, id: int): Event {
    Event(id, q, TransferOut, day, -PALLET, -PALLET, "TRANSFER", id, id)
  }

  function MoveIn(p: Position, day: int, id: int): Event {
    Event(id + 1, p, TransferIn, day, PALLET, PALLET, "TRANSFER", id, id)
  }

  /** One pallet moved from a stocked place to a short one of the same SKU. */
  function MovePallet(q: Position, p: Position, day: int, id: int): seq<Event> {
    [MoveOut(q, day, id), MoveIn(p, day, id)]
  }

  lemma MoveBalance(history: seq<Event>, q: Position, p: Position, at: int, id: int, r: Position, day: int)
    ensures Balance(Pallets, history + MovePallet(q, p, at, id), r, day) == Balance(Pallets, history, r, day)
              + (if day < at then 0 else (if r == p then PALLET else 0) - (if r == q then PALLET else 0))
  {
    BalanceAppend(Pallets, history, MoveOut(q, at, id), r, day);
    BalanceAppend(Pallets, history + [MoveOut(q, at, id)], MoveIn(p, at, id), r, day);
    assert history + MovePallet(q, p, at, id) == history + [MoveOut(q, at, id)] + [MoveIn(p, at, id)];
  }

  lemma {:induction false} WholeBalance(events: seq<Event>, p: Position, day: int)
    requires forall i :: 0 <= i < |events| ==> Whole(events[i].pallets)
    ensures Whole(Balance(Pallets, events, p, day))
  {
    if events != [] {
      WholeBalance(events[1..], p, day);
      WholeSum(Delta(Pallets, events[0], p, day), Balance(Pallets, events[1..], p, day));
    }
  }

  lemma WholeSum(x: int, y: int)
    requires Whole(x) && Whole(y)
    ensures Whole(x + y)
  {
  }

  lemma {:induction false} NothingReleased(events: seq<Event>, scope: Scope, period: Period)
    requires DatedBefore(events, period.start)
    ensures Shipped(events, scope, period, None) == 0 && TransferKeys(events, scope, period) == {}
  {
    if events != [] {
      NothingReleased(events[1..], scope, period);
    }
  }

  lemma MoveReleasesNothing(history: seq<Event>, q: Position, p: Position, id: int, scope: Scope, period: Period)
    requires period.start < period.endExclusive && DatedBefore(history, period.start) && scope.Includes(p) && scope.Includes(q)
    ensures ReleasedInAll(history + MovePallet(q, p, period.start, id), scope, period) == 0
  {
    var out, into, n := MoveOut(q, period.start, id), MoveIn(p, period.start, id), |history|;
    NothingReleased(history, scope, period);
    TransferReleasesItsLoss(history, n, n + 1, out, into, scope, period);
    assert InsertAt(InsertAt(history, n, out), n + 1, into) == history + MovePallet(q, p, period.start, id);
    assert ReleasedInAll(history, scope, period) == 0 by {
      SumOverSuperset({}, {}, k => NetOut(history, scope, period, k));
    }
  }

  lemma MoveOnHandAt(history: seq<Event>, q: Position, p: Position, id: int, scope: Scope, start: int, last: int, r: Position)
    requires start <= last && DatedBefore(history, start)
    requires scope.Includes(p) && Balance(Pallets, history, p, start - 1) <= -PALLET
    requires scope.Includes(q) && Balance(Pallets, history, q, start - 1) >= PALLET
    ensures OnHandAt(history + MovePallet(q, p, start, id), scope, r, last)
         == OnHandAt(history + MovePallet(q, p, start, id), scope, r, start - 1) - (if r == q then PALLET else 0)
  {
    MoveBalance(history, q, p, start, id, r, start - 1);
    MoveBalance(history, q, p, start, id, r, last);
    BalanceSettled(Pallets, history, r, start - 1, last);
  }

  /** The pallet is no longer counted where it was, and not yet counted where it filled a shortage. */
  lemma MoveTripsCheck(history: seq<Event>, q: Position, p: Position, id: int, scope: Scope, period: Period)
    requires period.start < period.endExclusive && DatedBefore(history, period.start)
    requires scope.Includes(p) && Balance(Pallets, history, p, period.start - 1) <= -PALLET
    requires scope.Includes(q) && Balance(Pallets, history, q, period.start - 1) >= PALLET
    ensures Movement(history + MovePallet(q, p, period.start, id), scope, period) == -PALLET
  {
    var events := history + MovePallet(q, p, period.start, id);
    var first, last := period.start - 1, period.endExclusive - 1;
    forall r {
      MoveOnHandAt(history, q, p, id, scope, period.start, last, r);
    }
    assert events[|history|].position == q;
    MoveReleasesNothing(history, q, p, id, scope, period);
    SumOverUpdate(Positions(events), r => OnHandAt(events, scope, r, first), r => OnHandAt(events, scope, r, last), q);
  }
}
