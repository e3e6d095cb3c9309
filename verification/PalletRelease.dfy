/**
  Pallet releases of a period: shipped and adjusted reductions as they happened, transfers
  netted inside the billing scope; and the movement check that a finalized invoice must pass.
 */
module PalletRelease {
  import opened Wrappers
  import opened Sums
  import opened Lifecycle
  import SortedSets

  datatype Release = Release(day: int, pallets: int)

  datatype TransferKey = TransferKey(day: int, sourceType: string, sourceId: int, sourceLineId: int)

  datatype Period = Period(start: int, endExclusive: int) {
    predicate Has(day: int) {
      start <= day < endExclusive
    }
  }

  predicate Relevant(e: Event, scope: Scope, period: Period) {
    period.Has(e.day) && scope.Includes(e.position)
  }

  predicate IsTransfer(e: Event) {
    e.kind == TransferOut || e.kind == TransferIn
  }

  function KeyOf(e: Event): TransferKey {
    TransferKey(e.day, e.sourceType, e.sourceId, e.sourceLineId)
  }

  // ----- what is released

  /** Pallets one event takes away without a transfer, on one day or (None) on any day. */
  function ShippedBy(e: Event, scope: Scope, period: Period, day: Option<int>): nat {
    if Relevant(e, scope, period) && !IsTransfer(e) && e.pallets < 0 && (day.None? || day.value == e.day)
    then -e.pallets else 0
  }

  function Shipped(events: seq<Event>, scope: Scope, period: Period, day: Option<int>): nat {
    if events == [] then 0
    else ShippedBy(events[0], scope, period, day) + Shipped(events[1..], scope, period, day)
  }

  function TransferBy(e: Event, scope: Scope, period: Period, key: TransferKey): int {
    if Relevant(e, scope, period) && IsTransfer(e) && KeyOf(e) == key then e.pallets else 0
  }

  /** What the two sides of a transfer add up to inside the scope. */
  function TransferNet(events: seq<Event>, scope: Scope, period: Period, key: TransferKey): int {
    if events == [] then 0
    else TransferBy(events[0], scope, period, key) + TransferNet(events[1..], scope, period, key)
  }

  function TransferKeys(events: seq<Event>, scope: Scope, period: Period): set<TransferKey> {
    set i | 0 <= i < |events| && Relevant(events[i], scope, period) && IsTransfer(events[i]) :: KeyOf(events[i])
  }

  function NetOut(events: seq<Event>, scope: Scope, period: Period, key: TransferKey): nat {
    NonNegativePart(-TransferNet(events, scope, period, key))
  }

  function NetOutOn(events: seq<Event>, scope: Scope, period: Period, key: TransferKey, day: int): nat {
    if key.day == day then NetOut(events, scope, period, key) else 0
  }

  /** Everything released on a day, and everything released in the period. */
  ghost function ReleasedOn(events: seq<Event>, scope: Scope, period: Period, day: int): int {
    Shipped(events, scope, period, Some(day))
    + SumOver(TransferKeys(events, scope, period), k => NetOutOn(events, scope, period, k, day))
  }

  ghost function ReleasedInAll(events: seq<Event>, scope: Scope, period: Period): int {
    Shipped(events, scope, period, None)
    + SumOver(TransferKeys(events, scope, period), k => NetOut(events, scope, period, k))
  }

  // ----- appending one event

  lemma {:induction false} ShippedAppend(s: seq<Event>, e: Event, scope: Scope, period: Period, day: Option<int>)
    ensures Shipped(s + [e], scope, period, day) == Shipped(s, scope, period, day) + ShippedBy(e, scope, period, day)
  {
    if s == [] {
      assert s + [e] == [e];
    } else {
      ShippedAppend(s[1..], e, scope, period, day);
      assert (s + [e])[1..] == s[1..] + [e];
    }
  }

  lemma {:induction false} TransferNetAppend(s: seq<Event>, e: Event, scope: Scope, period: Period, key: TransferKey)
    ensures TransferNet(s + [e], scope, period, key)
         == TransferNet(s, scope, period, key) + TransferBy(e, scope, period, key)
  {
    if s == [] {
      assert s + [e] == [e];
    } else {
      TransferNetAppend(s[1..], e, scope, period, key);
      assert (s + [e])[1..] == s[1..] + [e];
    }
  }

  lemma TransferKeysAppend(s: seq<Event>, e: Event, scope: Scope, period: Period)
    ensures TransferKeys(s + [e], scope, period)
         == TransferKeys(s, scope, period) + if Relevant(e, scope, period) && IsTransfer(e) then {KeyOf(e)} else {}
  {
    var longer := s + [e];
    assert longer[|s|] == e;
    forall k | k in TransferKeys(s, scope, period)
      ensures k in TransferKeys(longer, scope, period)
    {
      var i :| 0 <= i < |s| && Relevant(s[i], scope, period) && IsTransfer(s[i]) && KeyOf(s[i]) == k;
      assert longer[i] == s[i];
    }
  }

  // ----- the collecting loops

  function At(m: map<int, nat>, day: int): nat {
    if day in m then m[day] else 0
  }

  function NetAt(m: map<TransferKey, int>, key: TransferKey): int {
    if key in m then m[key] else 0
  }

  ghost function MapTotal(m: map<int, nat>): int {
    SumOver(m.Keys, d => At(m, d))
  }

  function Bump(m: map<int, nat>, day: int, x: nat): map<int, nat> {
    m[day := At(m, day) + x]
  }

  lemma BumpTotal(m: map<int, nat>, day: int, x: nat)
    ensures MapTotal(Bump(m, day, x)) == MapTotal(m) + x
    ensures forall d :: At(Bump(m, day, x), d) == At(m, d) + if d == day then x else 0
  {
    var after := Bump(m, day, x);
    if day in m {
      assert after.Keys == m.Keys;
      SumOverUpdate(m.Keys, d => At(m, d), d => At(after, d), day);
    } else {
      assert after.Keys == m.Keys + {day};
      SumOverAdd(m.Keys, d => At(after, d), day);
      SumOverEqual(m.Keys, d => At(m, d), d => At(after, d));
    }
  }

  /** Only dates of the period, and only positive amounts. */
  predicate Proper(released: map<int, nat>, period: Period) {
    forall d :: d in released ==> period.Has(d) && 0 < released[d]
  }

  ghost predicate CollectedShipments(released: map<int, nat>, events: seq<Event>, scope: Scope, period: Period) {
    && Proper(released, period)
    && (forall d :: At(released, d) == Shipped(events, scope, period, Some(d)))
    && MapTotal(released) == Shipped(events, scope, period, None)
  }

  ghost predicate CollectedNets(nets: map<TransferKey, int>, events: seq<Event>, scope: Scope, period: Period) {
    && nets.Keys == TransferKeys(events, scope, period)
    && (forall k :: NetAt(nets, k) == TransferNet(events, scope, period, k))
  }

  /** What is recorded after the events so far, before transfers are netted. */
  ghost predicate Collected(released: map<int, nat>, nets: map<TransferKey, int>, events: seq<Event>, scope: Scope, period: Period) {
    CollectedShipments(released, events, scope, period) && CollectedNets(nets, events, scope, period)
  }

  lemma ShippedOneMore(events: seq<Event>, e: Event, scope: Scope, period: Period, shipped: nat)
    requires shipped == if Relevant(e, scope, period) && !IsTransfer(e) && e.pallets < 0 then -e.pallets else 0
    ensures forall d :: Shipped(events + [e], scope, period, Some(d))
                     == Shipped(events, scope, period, Some(d)) + if d == e.day then shipped else 0
    ensures Shipped(events + [e], scope, period, None) == Shipped(events, scope, period, None) + shipped
  {
    forall day {
      ShippedAppend(events, e, scope, period, day);
    }
  }

  lemma ShipmentsStep(released: map<int, nat>, nets: map<TransferKey, int>, events: seq<Event>, e: Event, scope: Scope, period: Period)
    requires CollectedShipments(released, events, scope, period)
    ensures CollectedShipments(CollectOne(released, nets, e, scope, period).0, events + [e], scope, period)
  {
    if Relevant(e, scope, period) && !IsTransfer(e) && e.pallets < 0 {
      ShippedOneMore(events, e, scope, period, -e.pallets);
      BumpTotal(released, e.day, -e.pallets);
    } else {
      ShippedOneMore(events, e, scope, period, 0);
    }
  }

  lemma NetsStep(released: map<int, nat>, nets: map<TransferKey, int>, events: seq<Event>, e: Event, scope: Scope, period: Period)
    requires CollectedNets(nets, events, scope, period)
    ensures CollectedNets(CollectOne(released, nets, e, scope, period).1, events + [e], scope, period)
  {
    TransferKeysAppend(events, e, scope, period);
    forall k {
      TransferNetAppend(events, e, scope, period, k);
    }
  }

  lemma CollectedStep(released: map<int, nat>, nets: map<TransferKey, int>, events: seq<Event>, e: Event, scope: Scope, period: Period)
    requires Collected(released, nets, events, scope, period)
    ensures var (r, n) := CollectOne(released, nets, e, scope, period);
            Collected(r, n, events + [e], scope, period)
  {
    ShipmentsStep(released, nets, events, e, scope, period);
    NetsStep(released, nets, events, e, scope, period);
  }

  function CollectOne(released: map<int, nat>, nets: map<TransferKey, int>, e: Event, scope: Scope, period: Period)
    : (map<int, nat>, map<TransferKey, int>)
  {
    if !Relevant(e, scope, period) then (released, nets)
    else if IsTransfer(e) then (released, nets[KeyOf(e) := NetAt(nets, KeyOf(e)) + e.pallets])
    else if e.pallets < 0 then (Bump(released, e.day, -e.pallets), nets)
    else (released, nets)
  }

  method CollectReleases(events: seq<Event>, scope: Scope, period: Period)
    returns (released: map<int, nat>, nets: map<TransferKey, int>)
    ensures Collected(released, nets, events, scope, period)
  {
    released, nets := map[], map[];
    for i := 0 to |events|
      invariant Collected(released, nets, events[..i], scope, period)
    {
      var e := events[i];
      CollectedStep(released, nets, events[..i], e, scope, period);
      assert events[..i + 1] == events[..i] + [e];
      if Relevant(e, scope, period) {
        if IsTransfer(e) {
          nets := nets[KeyOf(e) := NetAt(nets, KeyOf(e)) + e.pallets];
        } else if e.pallets < 0 {
          released := Bump(released, e.day, -e.pallets);
        }
      }
    }
    assert events[..|events|] == events;
  }

  /** The releases once the transfers with the given keys have been netted. */
  ghost predicate Netted(released: map<int, nat>, done: set<TransferKey>, events: seq<Event>, scope: Scope, period: Period) {
    && Proper(released, period)
    && (forall d :: At(released, d) == Shipped(events, scope, period, Some(d)) + NettedOn(done, events, scope, period, d))
    && MapTotal(released) == Shipped(events, scope, period, None) + SumOver(done, k => NetOut(events, scope, period, k))
  }

  ghost function NettedOn(done: set<TransferKey>, events: seq<Event>, scope: Scope, period: Period, day: int): int {
    SumOver(done, k => NetOutOn(events, scope, period, k, day))
  }

  lemma NettedStep(released: map<int, nat>, done: set<TransferKey>, k: TransferKey, events: seq<Event>, scope: Scope, period: Period)
    requires Netted(released, done, events, scope, period) && k !in done && period.Has(k.day)
    ensures var out := NetOut(events, scope, period, k);
            Netted(if out == 0 then released else Bump(released, k.day, out), done + {k}, events, scope, period)
  {
    var out := NetOut(events, scope, period, k);
    SumOverAdd(done, j => NetOut(events, scope, period, j), k);
    forall d
      ensures NettedOn(done + {k}, events, scope, period, d)
           == NettedOn(done, events, scope, period, d) + NetOutOn(events, scope, period, k, d)
    {
      SumOverAdd(done, j => NetOutOn(events, scope, period, j, d), k);
    }
    BumpTotal(released, k.day, out);
  }

  /** A key that shipped more than it brought is released on its day. */
  method NetOne(released: map<int, nat>, k: TransferKey, net: int, ghost done: set<TransferKey>, ghost events: seq<Event>,
                ghost scope: Scope, ghost period: Period)
    returns (after: map<int, nat>)
    requires Netted(released, done, events, scope, period) && k !in done && period.Has(k.day)
    requires net == TransferNet(events, scope, period, k)
    ensures Netted(after, done + {k}, events, scope, period)
  {
    NettedStep(released, done, k, events, scope, period);
    after := if net < 0 then Bump(released, k.day, -net) else released;
  }

  lemma NetIsKnown(nets: map<TransferKey, int>, k: TransferKey, events: seq<Event>, scope: Scope, period: Period)
    requires CollectedNets(nets, events, scope, period) && k in nets
    ensures nets[k] == TransferNet(events, scope, period, k) && period.Has(k.day)
  {
    assert nets[k] == NetAt(nets, k);
    assert k in TransferKeys(events, scope, period);
  }

  method NetTransfers(collected: map<int, nat>, nets: map<TransferKey, int>, ghost events: seq<Event>, scope: Scope, period: Period)
    returns (released: map<int, nat>)
    requires Collected(collected, nets, events, scope, period)
    ensures Netted(released, nets.Keys, events, scope, period)
  {
    released := collected;
    var rest := nets.Keys;
    assert nets.Keys - rest == {};
    while rest != {}
      invariant rest <= nets.Keys
      invariant Netted(released, nets.Keys - rest, events, scope, period)
      decreases rest
    {
      var k := SortedSets.PickOne(rest);
      NetIsKnown(nets, k, events, scope, period);
      released := NetOne(released, k, nets[k], nets.Keys - rest, events, scope, period);
      assert nets.Keys - (rest - {k}) == nets.Keys - rest + {k};
      rest := rest - {k};
    }
    assert nets.Keys - rest == nets.Keys;
  }

  // ----- the dated list

  ghost predicate ByDate(releases: seq<Release>) {
    forall i, j :: 0 <= i < j < |releases| ==> releases[i].day < releases[j].day
  }

  function Values(releases: seq<Release>): (r: seq<int>)
    ensures |r| == |releases|
  {
    seq(|releases|, i requires 0 <= i < |releases| => releases[i].pallets)
  }

  ghost predicate Listed(releases: seq<Release>, day: int) {
    exists i :: 0 <= i < |releases| && releases[i].day == day
  }

  /** The list says exactly what the map says, by ascending date. */
  ghost predicate Lists(releases: seq<Release>, m: map<int, nat>) {
    && ByDate(releases)
    && (forall i :: 0 <= i < |releases| ==> releases[i].day in m && releases[i].pallets == m[releases[i].day])
    && (forall d :: d in m ==> Listed(releases, d))
    && Sum(Values(releases)) == MapTotal(m)
  }

  /** The list says what the map says about the days that are no longer left. */
  ghost predicate ListsBut(releases: seq<Release>, rest: set<int>, m: map<int, nat>) {
    && rest <= m.Keys && ByDate(releases)
    && (forall i :: 0 <= i < |releases| ==> releases[i].day in m && releases[i].pallets == m[releases[i].day])
    && (forall i, d :: 0 <= i < |releases| && d in rest ==> releases[i].day < d)
    && (forall d :: d in m ==> d in rest || Listed(releases, d))
    && Sum(Values(releases)) + SumOver(rest, d => At(m, d)) == MapTotal(m)
  }

  lemma StillListed(releases: seq<Release>, r: Release)
    ensures forall d :: Listed(releases, d) ==> Listed(releases + [r], d)
    ensures Listed(releases + [r], r.day)
  {
    assert (releases + [r])[|releases|] == r;
    forall d | Listed(releases, d)
      ensures Listed(releases + [r], d)
    {
      var i :| 0 <= i < |releases| && releases[i].day == d;
      assert (releases + [r])[i].day == d;
    }
  }

  lemma ListStep(releases: seq<Release>, rest: set<int>, m: map<int, nat>, day: int)
    requires ListsBut(releases, rest, m) && day in rest && forall d :: d in rest ==> day <= d
    ensures ListsBut(releases + [Release(day, m[day])], rest - {day}, m)
  {
    var next := releases + [Release(day, m[day])];
    StillListed(releases, Release(day, m[day]));
    SumOverRemove(rest, d => At(m, d), day);
    assert Values(next) == Values(releases) + [m[day] as int];
    SumAppend(Values(releases), m[day]);
  }

  /** Repeatedly takes the earliest date left. */
  method ListByDate(m: map<int, nat>) returns (releases: seq<Release>)
    ensures Lists(releases, m)
  {
    releases := [];
    var rest := m.Keys;
    while rest != {}
      invariant ListsBut(releases, rest, m)
      decreases rest
    {
      var day := SortedSets.Earliest(rest);
      ListStep(releases, rest, m, day);
      releases := releases + [Release(day, m[day])];
      rest := rest - {day};
    }
  }

  /** The release list of a period. */
  method BuildPalletReleases(events: seq<Event>, scope: Scope, period: Period) returns (releases: seq<Release>)
    ensures ByDate(releases)
    ensures forall i :: 0 <= i < |releases| ==>
              && period.Has(releases[i].day) && 0 < releases[i].pallets
              && releases[i].pallets == ReleasedOn(events, scope, period, releases[i].day)
    ensures forall d :: ReleasedOn(events, scope, period, d) != 0 ==> Listed(releases, d)
    ensures Sum(Values(releases)) == ReleasedInAll(events, scope, period)
  {
    var collected, nets := CollectReleases(events, scope, period);
    var released := NetTransfers(collected, nets, events, scope, period);
    releases := ListByDate(released);
    forall d
      ensures At(released, d) == ReleasedOn(events, scope, period, d)
    {
    }
  }
}
