/**
  What one transfer line does to the releases of a period: the pallets it takes out of the scope
  or loses on the way, and nothing else.
 */
module TransferReleases {
  import opened Sums
  import opened Lifecycle
  import opened PalletRelease

  function InsertAt(events: seq<Event>, i: nat, e: Event): seq<Event>
    requires i <= |events|
  {
    events[..i] + [e] + events[i..]
  }

  /** An event tells its own part wherever it stands in the list. */
  lemma {:induction false} InsertedTells(events: seq<Event>, i: nat, e: Event, scope: Scope, period: Period)
    requires i <= |events|
    ensures forall day :: Shipped(InsertAt(events, i, e), scope, period, day)
                       == Shipped(events, scope, period, day) + ShippedBy(e, scope, period, day)
    ensures forall k :: TransferNet(InsertAt(events, i, e), scope, period, k)
                     == TransferNet(events, scope, period, k) + TransferBy(e, scope, period, k)
  {
    var after := InsertAt(events, i, e);
    if i == 0 {
      assert after == [e] + events && after[1..] == events;
    } else {
      InsertedTells(events[1..], i - 1, e, scope, period);
      assert after[0] == events[0] && after[1..] == InsertAt(events[1..], i - 1, e);
    }
  }

  lemma InsertedKeys(events: seq<Event>, i: nat, e: Event, scope: Scope, period: Period)
    requires i <= |events|
    ensures TransferKeys(InsertAt(events, i, e), scope, period)
         == TransferKeys(events, scope, period) + if Relevant(e, scope, period) && IsTransfer(e) then {KeyOf(e)} else {}
  {
    var after := InsertAt(events, i, e);
    assert after[i] == e;
    forall k | k in TransferKeys(events, scope, period)
      ensures k in TransferKeys(after, scope, period)
    {
      var j :| 0 <= j < |events| && Relevant(events[j], scope, period) && IsTransfer(events[j]) && KeyOf(events[j]) == k;
      assert after[if j < i then j else j + 1] == events[j];
    }
  }

  lemma {:induction false} UnusedKeyNetsZero(events: seq<Event>, scope: Scope, period: Period, key: TransferKey)
    requires key !in TransferKeys(events, scope, period)
    ensures TransferNet(events, scope, period, key) == 0
  {
    if events != [] {
      forall k | k in TransferKeys(events[1..], scope, period)
        ensures k in TransferKeys(events, scope, period)
      {
        var j :| 0 <= j < |events| - 1 && Relevant(events[1..][j], scope, period) && IsTransfer(events[1..][j])
                 && KeyOf(events[1..][j]) == k;
        assert events[j + 1] == events[1..][j];
      }
      UnusedKeyNetsZero(events[1..], scope, period, key);
    }
  }

  // ----- one transfer line

  /** The two sides of one transfer line: they share its key. */
  predicate Sides(out: Event, into: Event) {
    out.kind == TransferOut && into.kind == TransferIn && KeyOf(out) == KeyOf(into)
  }

  function Told(e: Event, scope: Scope, period: Period): int {
    if Relevant(e, scope, period) then e.pallets else 0
  }

  /** What leaves the scope and does not arrive in it. */
  function Loss(out: Event, into: Event, scope: Scope, period: Period): nat {
    NonNegativePart(-Told(out, scope, period) - Told(into, scope, period))
  }

  lemma WithSides(events: seq<Event>, i: nat, j: nat, out: Event, into: Event, scope: Scope, period: Period)
    requires i <= |events| && j <= |events| + 1 && Sides(out, into)
    requires KeyOf(out) !in TransferKeys(events, scope, period)
    ensures var after := InsertAt(InsertAt(events, i, out), j, into);
            && (forall day :: Shipped(after, scope, period, day) == Shipped(events, scope, period, day))
            && (forall k :: NetOut(after, scope, period, k)
                         == if k == KeyOf(out) then Loss(out, into, scope, period) else NetOut(events, scope, period, k))
            && NetOut(events, scope, period, KeyOf(out)) == 0
            && TransferKeys(after, scope, period)
               == TransferKeys(events, scope, period)
                  + if Relevant(out, scope, period) || Relevant(into, scope, period) then {KeyOf(out)} else {}
  {
    var one := InsertAt(events, i, out);
    InsertedTells(events, i, out, scope, period);
    InsertedTells(one, j, into, scope, period);
    InsertedKeys(events, i, out, scope, period);
    InsertedKeys(one, j, into, scope, period);
    UnusedKeyNetsZero(events, scope, period, KeyOf(out));
  }

  /** A term for one new key, which may also be left out when it is zero. */
  lemma SumWithKey(keys: set<TransferKey>, key: TransferKey, used: bool, f: TransferKey -> int, g: TransferKey -> int)
    requires key !in keys && (forall k :: k != key ==> g(k) == f(k)) && (!used ==> g(key) == 0)
    ensures SumOver(keys + (if used then {key} else {}), g) == SumOver(keys, f) + g(key)
  {
    SumOverEqual(keys, f, g);
    if used {
      SumOverAdd(keys, g, key);
    } else {
      assert keys + {} == keys;
    }
  }

  /**
    Wherever its two sides stand among the other events, a transfer line adds its loss to what is
    released on its day and in all. Inside the scope that is what it lost on the way: nothing at
    all when as many pallets arrive as left.
   */
  lemma TransferReleasesItsLoss(events: seq<Event>, i: nat, j: nat, out: Event, into: Event, scope: Scope, period: Period)
    requires i <= |events| && j <= |events| + 1 && Sides(out, into)
    requires KeyOf(out) !in TransferKeys(events, scope, period)
    ensures var after := InsertAt(InsertAt(events, i, out), j, into);
            && ReleasedInAll(after, scope, period) == ReleasedInAll(events, scope, period) + Loss(out, into, scope, period)
            && forall day :: ReleasedOn(after, scope, period, day)
                          == ReleasedOn(events, scope, period, day) + if day == out.day then Loss(out, into, scope, period) else 0
    ensures Relevant(out, scope, period) && Relevant(into, scope, period) && -out.pallets <= into.pallets ==>
              Loss(out, into, scope, period) == 0
  {
    var after, keys := InsertAt(InsertAt(events, i, out), j, into), TransferKeys(events, scope, period);
    var used := Relevant(out, scope, period) || Relevant(into, scope, period);
    WithSides(events, i, j, out, into, scope, period);
    SumWithKey(keys, KeyOf(out), used, k => NetOut(events, scope, period, k), k => NetOut(after, scope, period, k));
    forall day
      ensures ReleasedOn(after, scope, period, day)
           == ReleasedOn(events, scope, period, day) + if day == out.day then Loss(out, into, scope, period) else 0
    {
      SumWithKey(keys, KeyOf(out), used, k => NetOutOn(events, scope, period, k, day), k => NetOutOn(after, scope, period, k, day));
    }
  }
}
