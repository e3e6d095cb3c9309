/**
  The movement check of a storage row: closing plus released minus opening pallets is what
  must have been received, so it must not be negative.
 */
module PalletMovement {
  import opened Wrappers
  import opened Sums
  import opened Lifecycle
  import opened PalletRelease

  function Implied(opening: int, closing: int, releases: seq<Release>): int {
    closing + Sum(Values(releases)) - opening
  }

  ghost function Movement(events: seq<Event>, scope: Scope, period: Period): int {
    OnHand(events, scope, period.endExclusive - 1) + ReleasedInAll(events, scope, period)
    - OnHand(events, scope, period.start - 1)
  }

  /** Everything that happened in the period inside the scope, signs and all. */
  function NetChange(events: seq<Event>, scope: Scope, period: Period): int {
    if events == [] then 0
    else (if Relevant(events[0], scope, period) then events[0].pallets else 0) + NetChange(events[1..], scope, period)
  }

  function TransferChange(events: seq<Event>, scope: Scope, period: Period): int {
    if events == [] then 0
    else (if Relevant(events[0], scope, period) && IsTransfer(events[0]) then events[0].pallets else 0)
         + TransferChange(events[1..], scope, period)
  }

  // ----- releases cover every decrease

  lemma {:induction false} TransfersByKey(events: seq<Event>, scope: Scope, period: Period, keys: set<TransferKey>)
    requires TransferKeys(events, scope, period) <= keys
    ensures TransferChange(events, scope, period) == SumOver(keys, k => TransferNet(events, scope, period, k))
  {
    if events == [] {
      SumOverSuperset({}, keys, k => TransferNet(events, scope, period, k));
    } else {
      var e, rest := events[0], events[1..];
      forall k | k in TransferKeys(rest, scope, period)
        ensures k in keys
      {
        var i :| 0 <= i < |rest| && Relevant(rest[i], scope, period) && IsTransfer(rest[i]) && KeyOf(rest[i]) == k;
        assert events[i + 1] == rest[i];
      }
      TransfersByKey(rest, scope, period, keys);
      var before := k => TransferNet(rest, scope, period, k);
      var after := k => TransferNet(events, scope, period, k);
      if Relevant(e, scope, period) && IsTransfer(e) {
        assert KeyOf(e) in keys;
        SumOverUpdate(keys, before, after, KeyOf(e));
      } else {
        SumOverEqual(keys, before, after);
      }
    }
  }

  lemma {:induction false} ShippedCovers(events: seq<Event>, scope: Scope, period: Period)
    ensures NetChange(events, scope, period) >= TransferChange(events, scope, period) - Shipped(events, scope, period, None)
  {
    if events != [] {
      ShippedCovers(events[1..], scope, period);
    }
  }

  lemma ReleasesCoverDecreases(events: seq<Event>, scope: Scope, period: Period)
    ensures ReleasedInAll(events, scope, period) >= -NetChange(events, scope, period)
    ensures ReleasedInAll(events, scope, period) >= 0
  {
    var keys := TransferKeys(events, scope, period);
    var net := k => TransferNet(events, scope, period, k);
    var out := k => NetOut(events, scope, period, k);
    ShippedCovers(events, scope, period);
    TransfersByKey(events, scope, period, keys);
    SumOverPlus(keys, net, out, k => net(k) + out(k));
    SumOverAtMost(keys, k => 0, k => net(k) + out(k));
    SumOverAtMost(keys, k => 0, out);
    SumOverSuperset({}, keys, k => 0);
  }

  // ----- what is not released was received

  function Added(events: seq<Event>, scope: Scope, period: Period): nat {
    if events == [] then 0
    else
      (if Relevant(events[0], scope, period) && !IsTransfer(events[0]) && 0 < events[0].pallets then events[0].pallets else 0)
      + Added(events[1..], scope, period)
  }

  function NetIn(events: seq<Event>, scope: Scope, period: Period, key: TransferKey): nat {
    NonNegativePart(TransferNet(events, scope, period, key))
  }

  /** Everything that came into the scope: what was added there, and the incoming surplus of every transfer line. */
  ghost function ReceivedInAll(events: seq<Event>, scope: Scope, period: Period): int {
    Added(events, scope, period)
    + SumOver(TransferKeys(events, scope, period), k => NetIn(events, scope, period, k))
  }

  lemma {:induction false} ChangeSplits(events: seq<Event>, scope: Scope, period: Period)
    ensures NetChange(events, scope, period)
         == TransferChange(events, scope, period) + Added(events, scope, period) - Shipped(events, scope, period, None)
  {
    if events != [] {
      ChangeSplits(events[1..], scope, period);
    }
  }

  /** The net change of a period is what was received less what was released, to the pallet. */
  lemma ReleasedExactly(events: seq<Event>, scope: Scope, period: Period)
    ensures NetChange(events, scope, period) == ReceivedInAll(events, scope, period) - ReleasedInAll(events, scope, period)
  {
    var keys := TransferKeys(events, scope, period);
    ChangeSplits(events, scope, period);
    TransfersByKey(events, scope, period, keys);
    SumOverPlus(keys, k => TransferNet(events, scope, period, k), k => NetOut(events, scope, period, k),
                k => NetIn(events, scope, period, k));
  }

  lemma {:induction false} ShippedOnDay(events: seq<Event>, scope: Scope, period: Period, day: int)
    requires period.Has(day)
    ensures Shipped(events, scope, Period(day, day + 1), None) == Shipped(events, scope, period, Some(day))
  {
    if events != [] {
      ShippedOnDay(events[1..], scope, period, day);
    }
  }

  lemma {:induction false} NetOfDay(events: seq<Event>, scope: Scope, period: Period, key: TransferKey)
    requires period.Has(key.day)
    ensures TransferNet(events, scope, Period(key.day, key.day + 1), key) == TransferNet(events, scope, period, key)
  {
    if events != [] {
      NetOfDay(events[1..], scope, period, key);
    }
  }

  /** What is released on a day is what a period of that day alone releases. */
  lemma ReleasedOnDay(events: seq<Event>, scope: Scope, period: Period, day: int)
    requires period.Has(day)
    ensures ReleasedOn(events, scope, period, day) == ReleasedInAll(events, scope, Period(day, day + 1))
  {
    var one, all := TransferKeys(events, scope, Period(day, day + 1)), TransferKeys(events, scope, period);
    ShippedOnDay(events, scope, period, day);
    forall k: TransferKey | k.day == day
      ensures NetOut(events, scope, Period(day, day + 1), k) == NetOutOn(events, scope, period, k, day)
    {
      NetOfDay(events, scope, period, k);
    }
    SumOverEqual(one, k => NetOut(events, scope, Period(day, day + 1), k), k => NetOutOn(events, scope, period, k, day));
    SumOverSuperset(one, all, k => NetOutOn(events, scope, period, k, day));
  }

  // ----- balances move by the net change

  function ScopedBalance(events: seq<Event>, scope: Scope, p: Position, day: int): int {
    if scope.Includes(p) then Balance(Pallets, events, p, day) else 0
  }

  lemma {:induction false} BalancesMove(events: seq<Event>, scope: Scope, period: Period, s: set<Position>)
    requires Positions(events) <= s && period.start <= period.endExclusive
    ensures SumOver(s, p => ScopedBalance(events, scope, p, period.endExclusive - 1))
         == SumOver(s, p => ScopedBalance(events, scope, p, period.start - 1)) + NetChange(events, scope, period)
  {
    var last, first := period.endExclusive - 1, period.start - 1;
    if events == [] {
      SumOverEqual(s, p => ScopedBalance(events, scope, p, last), p => ScopedBalance(events, scope, p, first));
    } else {
      var e, rest := events[0], events[1..];
      assert forall i :: 0 <= i < |rest| ==> rest[i] == events[i + 1];
      BalancesMove(rest, scope, period, s);
      assert e.position in s;
      SumOverUpdate(s, p => ScopedBalance(rest, scope, p, last), p => ScopedBalance(events, scope, p, last), e.position);
      SumOverUpdate(s, p => ScopedBalance(rest, scope, p, first), p => ScopedBalance(events, scope, p, first), e.position);
    }
  }

  /** What the in-scope positions are short of zero at the end of a day. */
  ghost function Shortage(events: seq<Event>, scope: Scope, day: int): int {
    SumOver(Positions(events), p => NonNegativePart(-ScopedBalance(events, scope, p, day)))
  }

  lemma OnHandAndShortage(events: seq<Event>, scope: Scope, day: int)
    ensures SumOver(Positions(events), p => ScopedBalance(events, scope, p, day))
         == OnHand(events, scope, day) - Shortage(events, scope, day)
    ensures Shortage(events, scope, day) >= 0 && OnHand(events, scope, day) >= 0
  {
    var s := Positions(events);
    SumOverPlus(s, p => ScopedBalance(events, scope, p, day), p => NonNegativePart(-ScopedBalance(events, scope, p, day)),
                p => OnHandAt(events, scope, p, day));
    SumOverAtMost(s, p => 0, p => NonNegativePart(-ScopedBalance(events, scope, p, day)));
    SumOverAtMost(s, p => 0, p => OnHandAt(events, scope, p, day));
    SumOverSuperset({}, s, p => 0);
  }

  /** However events interleave, the movement falls short of zero by at most the opening shortage. */
  lemma MovementBound(events: seq<Event>, scope: Scope, period: Period)
    requires period.start <= period.endExclusive
    ensures Movement(events, scope, period) >= -Shortage(events, scope, period.start - 1)
    ensures Movement(events, scope, period) >= -OnHand(events, scope, period.start - 1)
  {
    ReleasesCoverDecreases(events, scope, period);
    BalancesMove(events, scope, period, Positions(events));
    OnHandAndShortage(events, scope, period.start - 1);
    OnHandAndShortage(events, scope, period.endExclusive - 1);
  }

  /** The movement is what was received, as far as it did not fill a shortage. */
  lemma MovementIsReceived(events: seq<Event>, scope: Scope, period: Period)
    requires period.start <= period.endExclusive
    ensures Movement(events, scope, period)
         == ReceivedInAll(events, scope, period)
          + Shortage(events, scope, period.endExclusive - 1) - Shortage(events, scope, period.start - 1)
  {
    ReleasedExactly(events, scope, period);
    BalancesMove(events, scope, period, Positions(events));
    OnHandAndShortage(events, scope, period.start - 1);
    OnHandAndShortage(events, scope, period.endExclusive - 1);
  }

  // ----- openings that are safe as a whole

  ghost predicate SomeShort(events: seq<Event>, scope: Scope, day: int) {
    exists p :: scope.Includes(p) && Balance(Pallets, events, p, day) < 0
  }

  ghost predicate SomeStocked(events: seq<Event>, scope: Scope, day: int) {
    exists p :: scope.Includes(p) && Balance(Pallets, events, p, day) > 0
  }

  lemma NoShortageUnlessShort(events: seq<Event>, scope: Scope, day: int)
    ensures !SomeShort(events, scope, day) ==> Shortage(events, scope, day) == 0
    ensures !SomeStocked(events, scope, day) ==> OnHand(events, scope, day) == 0
  {
    if !SomeShort(events, scope, day) {
      SumOverSuperset({}, Positions(events), p => NonNegativePart(-ScopedBalance(events, scope, p, day)));
    }
    if !SomeStocked(events, scope, day) {
      SumOverSuperset({}, Positions(events), p => OnHandAt(events, scope, p, day));
    }
  }

  /** When nothing in scope is short at the start, or nothing is stocked, the movement is not negative. */
  lemma UnmixedIsSafe(events: seq<Event>, scope: Scope, period: Period)
    requires period.start <= period.endExclusive
    requires !SomeShort(events, scope, period.start - 1) || !SomeStocked(events, scope, period.start - 1)
    ensures Movement(events, scope, period) >= 0
  {
    NoShortageUnlessShort(events, scope, period.start - 1);
    MovementBound(events, scope, period);
  }
}
