/**
  Billing a period in one part or in two: the receipts and shipments are charged exactly the same,
  and the storage of every container differs by a cent at most.
 */
module PreviewPeriods {
  import opened Wrappers
  import opened Sums
  import opened BillingMoney
  import opened Lifecycle
  import opened StorageSegments
  import opened InvoiceTotals
  import opened ReceiptCharges
  import opened PreviewSources
  import Billing = ContainerStorage
  import Fee = InboundFee
  import Out = OutboundPallets

  // ----- what is known at the end of a period

  function KnownEntries(entries: seq<Entry>, before: int): seq<Entry> {
    if entries == [] then []
    else (if entries[0].event.day < before then [entries[0]] else []) + KnownEntries(entries[1..], before)
  }

  /** Receipts and events dated later are not read; shipments dated later are out of range anyway. */
  function KnownSources(s: Sources, before: int): Sources {
    s.(receipts := Fee.ReceivedBefore(s.receipts, before), lifecycle := KnownEntries(s.lifecycle, before))
  }

  lemma {:induction false} EventsKnown(entries: seq<Entry>, before: int, c: string)
    ensures EventsOf(KnownEntries(entries, before), c) == Known(EventsOf(entries, c), before)
  {
    if entries != [] {
      EventsKnown(entries[1..], before, c);
      var e, rest := entries[0], KnownEntries(entries[1..], before);
      if e.event.day < before {
        assert ([e] + rest)[1..] == rest;
      } else {
        assert [] + rest == rest;
      }
      if e.container == c {
        assert ([e.event] + EventsOf(entries[1..], c))[1..] == EventsOf(entries[1..], c);
      } else {
        assert [] + EventsOf(entries[1..], c) == EventsOf(entries[1..], c);
        assert [] + EventsOf(rest, c) == EventsOf(rest, c);
      }
    }
  }

  lemma {:induction false} KnownEntry(entries: seq<Entry>, before: int, e: Entry)
    ensures e in KnownEntries(entries, before) ==> e in entries
  {
    if entries != [] {
      KnownEntry(entries[1..], before, e);
      assert entries == [entries[0]] + entries[1..];
    }
  }

  lemma KnownStored(entries: seq<Entry>, before: int, t: Terms)
    ensures Stored(KnownEntries(entries, before), t) <= Stored(entries, t)
  {
    var known := KnownEntries(entries, before);
    forall c | c in Stored(known, t)
      ensures c in Stored(entries, t)
    {
      var i :| 0 <= i < |known| && t.wanted(known[i].container) && known[i].container == c;
      KnownEntry(entries, before, known[i]);
      var j :| 0 <= j < |entries| && entries[j] == known[i];
    }
  }

  lemma {:induction false} NoPalletDays(terms: Billing.StorageTerms, lo: int, hi: int)
    requires lo <= hi
    ensures PeriodPalletDays([], terms.scope, terms.rule, lo, hi) == 0
    decreases hi - lo
  {
    if lo < hi {
      NoPalletDays(terms, lo, hi - 1);
      assert Positions([]) == {};
    }
  }

  ghost function KnownDueOf(t: Terms, entries: seq<Entry>, c: string, before: int, lo: int, hi: int): int
    requires lo <= hi
  {
    StorageDue(Known(EventsOf(entries, c), before), t.storage(c), lo, hi)
  }

  /** Containers without known events owe nothing. */
  lemma StoredDueKnown(t: Terms, entries: seq<Entry>, before: int, lo: int, hi: int)
    requires lo <= hi
    ensures StoredDue(t, KnownEntries(entries, before), lo, hi)
         == SumOver(Stored(entries, t), c => KnownDueOf(t, entries, c, before, lo, hi))
  {
    var known := KnownEntries(entries, before);
    KnownStored(entries, before, t);
    forall c
      ensures ContainerDue(t, known, c, lo, hi) == KnownDueOf(t, entries, c, before, lo, hi)
    {
      EventsKnown(entries, before, c);
    }
    forall c | c in Stored(entries, t) - Stored(known, t)
      ensures KnownDueOf(t, entries, c, before, lo, hi) == 0
    {
      var i :| 0 <= i < |entries| && t.wanted(entries[i].container) && entries[i].container == c;
      NotStored(known, t, c);
      NoPalletDays(t.storage(c), lo, hi);
      NoRowOwesNothing([], t.storage(c), lo, hi);
      EventsKnown(entries, before, c);
    }
    SumOverEqual(Stored(known, t), c => ContainerDue(t, known, c, lo, hi), c => KnownDueOf(t, entries, c, before, lo, hi));
    SumOverSuperset(Stored(known, t), Stored(entries, t), c => KnownDueOf(t, entries, c, before, lo, hi));
  }

  // ----- storage drifts by a cent a container

  lemma OneContainerDrifts(events: seq<Event>, terms: Billing.StorageTerms, lo: int, cut: int, hi: int)
    requires lo <= cut <= hi
    ensures -1 <= StorageDue(Known(events, hi), terms, lo, hi) - StorageDue(Known(events, cut), terms, lo, cut)
                  - StorageDue(Known(events, hi), terms, cut, hi) <= 1
  {
    PeriodsAddUp(events, terms.scope, terms.rule, terms.graceDays, lo, cut, hi);
    PeriodKnown(events, cut, terms.scope, terms.rule, terms.graceDays, lo, cut);
    PeriodKnown(events, hi, terms.scope, terms.rule, terms.graceDays, cut, hi);
    Billing.GraceComesFirst(events, terms, lo, cut, hi);
    FreeWithin(Known(events, cut), terms, lo, cut);
    FreeWithin(Known(events, hi), terms, cut, hi);
    Billing.NetOfParts(PeriodPalletDays(Known(events, cut), terms.scope, terms.rule, lo, cut),
                       PeriodPalletDays(Known(events, hi), terms.scope, terms.rule, cut, hi),
                       PeriodFreeDays(Known(events, cut), terms.scope, terms.rule, terms.graceDays, lo, cut),
                       PeriodFreeDays(Known(events, hi), terms.scope, terms.rule, terms.graceDays, cut, hi), terms.rate);
  }

  lemma {:induction false} SumsDrift(s: set<string>, whole: string -> int, first: string -> int, second: string -> int)
    requires forall c :: c in s ==> -1 <= whole(c) - first(c) - second(c) <= 1
    ensures -|s| <= SumOver(s, whole) - SumOver(s, first) - SumOver(s, second) <= |s|
    decreases |s|
  {
    if s != {} {
      var c :| c in s;
      SumOverRemove(s, whole, c);
      SumOverRemove(s, first, c);
      SumOverRemove(s, second, c);
      SumsDrift(s - {c}, whole, first, second);
    }
  }

  lemma StorageDrifts(t: Terms, entries: seq<Entry>, lo: int, cut: int, hi: int)
    requires lo <= cut <= hi
    ensures -|Stored(entries, t)| <= StoredDue(t, KnownEntries(entries, hi), lo, hi) - StoredDue(t, KnownEntries(entries, cut), lo, cut)
                                     - StoredDue(t, KnownEntries(entries, hi), cut, hi) <= |Stored(entries, t)|
  {
    StoredDueKnown(t, entries, hi, lo, hi);
    StoredDueKnown(t, entries, cut, lo, cut);
    StoredDueKnown(t, entries, hi, cut, hi);
    var whole, first := c => KnownDueOf(t, entries, c, hi, lo, hi), c => KnownDueOf(t, entries, c, cut, lo, cut);
    var second := c => KnownDueOf(t, entries, c, hi, cut, hi);
    forall c | c in Stored(entries, t)
      ensures -1 <= whole(c) - first(c) - second(c) <= 1
    {
      OneContainerDrifts(EventsOf(entries, c), t.storage(c), lo, cut, hi);
    }
    SumsDrift(Stored(entries, t), whole, first, second);
  }

  // ----- shipments are pooled apart

  /** All lines of a shipment have its date. */
  ghost predicate OneDate(shipped: seq<DatedLine>) {
    forall i, j :: 0 <= i < |shipped| && 0 <= j < |shipped| && shipped[i].line.documentId == shipped[j].line.documentId ==>
      shipped[i].day == shipped[j].day
  }

  /** A bucket with a share comes from a shipment of the period. */
  ghost predicate PooledIn(pools: map<Out.Bucket, Out.Pool>, shipped: seq<DatedLine>, lo: int, hi: int) {
    forall b :: b in pools ==> exists i :: 0 <= i < |shipped| && shipped[i].line.documentId == b.documentId && lo <= shipped[i].day < hi
  }

  lemma SameGroups(line: Out.Line, other: Out.Line, a: seq<Out.Group>, b: seq<Out.Group>)
    requires other == line.(inRange := other.inRange) && Out.BilledOn(line, a) && Out.BilledOn(other, b)
    ensures a == b
  {
    if Out.Places(line.allocations) != {} {
      Out.GroupsAreUnique(a, b, line.allocations);
    }
  }

  lemma ShareKeeps(pools: map<Out.Bucket, Out.Pool>, other: map<Out.Bucket, Out.Pool>, b: Out.Bucket, quantity: int, pallets: nat)
    requires b !in other
    ensures Out.AddShare(pools + other, b, quantity, pallets) == Out.AddShare(pools, b, quantity, pallets) + other
  {
  }

  /** The shares of a line go past the pools of other shipments, and no mark of the period matters to them. */
  lemma {:induction false} GroupsKeep(pools: map<Out.Bucket, Out.Pool>, other: map<Out.Bucket, Out.Pool>, line: Out.Line,
                                      like: Out.Line, groups: seq<Out.Group>, shares: seq<nat>, n: nat)
    requires n <= |groups| == |shares| && like.documentId == line.documentId && like.sku == line.sku
    requires forall b :: b in other ==> b.documentId != line.documentId
    ensures Out.AddGroups(pools + other, line, groups, shares, n) == Out.AddGroups(pools, like, groups, shares, n) + other
    ensures forall b :: b in Out.AddGroups(pools, like, groups, shares, n) ==> b in pools || b.documentId == line.documentId
  {
    if n > 0 {
      GroupsKeep(pools, other, line, like, groups, shares, n - 1);
      ShareKeeps(Out.AddGroups(pools, like, groups, shares, n - 1), other,
                 Out.Bucket(line.documentId, line.sku, groups[n - 1].place), groups[n - 1].quantity, shares[n - 1]);
    }
  }

  /** after is what a line leaves of the pools before it. */
  ghost predicate Adds(before: map<Out.Bucket, Out.Pool>, after: map<Out.Bucket, Out.Pool>, line: Out.Line, groups: seq<Out.Group>) {
    if Out.Billed(line)
    then Out.BilledOn(line, groups) && after == Out.AddGroups(before, line, groups, Out.PalletShares(line.pallets, groups), |groups|)
    else after == before
  }

  /** What was pooled before the last line. */
  lemma LastLine(pools: map<Out.Bucket, Out.Pool>, lines: seq<Out.Line>, groups: seq<seq<Out.Group>>, n: nat)
    returns (before: map<Out.Bucket, Out.Pool>)
    requires 0 < n <= |lines| && Out.PooledFrom(pools, lines, groups, n)
    ensures Out.PooledFrom(before, lines, groups[..n - 1], n - 1)
    ensures Adds(before, pools, lines[n - 1], groups[n - 1])
  {
    var line, last := lines[n - 1], groups[n - 1];
    if Out.Billed(line) {
      before :| Out.PooledFrom(before, lines, groups[..n - 1], n - 1)
                && pools == Out.AddGroups(before, line, last, Out.PalletShares(line.pallets, last), |last|);
    } else {
      before := pools;
    }
  }

  lemma PooledMore(pools: map<Out.Bucket, Out.Pool>, after: map<Out.Bucket, Out.Pool>, shipped: seq<DatedLine>, i: nat, lo: int, hi: int)
    requires PooledIn(pools, shipped, lo, hi) && i < |shipped| && lo <= shipped[i].day < hi
    requires forall b :: b in after ==> b in pools || b.documentId == shipped[i].line.documentId
    ensures PooledIn(after, shipped, lo, hi)
  {
  }

  lemma OtherShipments(pools: map<Out.Bucket, Out.Pool>, shipped: seq<DatedLine>, i: nat, lo: int, hi: int)
    requires OneDate(shipped) && PooledIn(pools, shipped, lo, hi) && i < |shipped| && !(lo <= shipped[i].day < hi)
    ensures forall b :: b in pools ==> b.documentId != shipped[i].line.documentId
  {
  }

  /** A line dated in one of two periods: what it adds to that period's pools it adds to those of both. */
  lemma LineSplits(both: map<Out.Bucket, Out.Pool>, own: map<Out.Bucket, Out.Pool>, other: map<Out.Bucket, Out.Pool>,
                   line: Out.Line, like: Out.Line, a: seq<Out.Group>, b: seq<Out.Group>)
    requires like == line.(inRange := like.inRange) && Out.BilledOn(line, a) && Out.BilledOn(like, b)
    requires both == own + other && forall k :: k in other ==> k.documentId != line.documentId
    ensures Out.AddGroups(both, line, a, Out.PalletShares(line.pallets, a), |a|)
         == Out.AddGroups(own, like, b, Out.PalletShares(like.pallets, b), |b|) + other
    ensures forall k :: k in Out.AddGroups(own, like, b, Out.PalletShares(like.pallets, b), |b|) ==>
              k in own || k.documentId == line.documentId
  {
    SameGroups(line, like, a, b);
    GroupsKeep(own, other, line, like, a, Out.PalletShares(line.pallets, a), |a|);
  }

  lemma PlusSwaps(a: map<Out.Bucket, Out.Pool>, b: map<Out.Bucket, Out.Pool>)
    requires a.Keys !! b.Keys
    ensures a + b == b + a
  {
  }

  lemma PooledApart(first: map<Out.Bucket, Out.Pool>, second: map<Out.Bucket, Out.Pool>, shipped: seq<DatedLine>, lo: int, cut: int, hi: int)
    requires OneDate(shipped) && PooledIn(first, shipped, lo, cut) && PooledIn(second, shipped, cut, hi)
    ensures first.Keys !! second.Keys
  {
  }

  lemma LastLineSplits(shipped: seq<DatedLine>, lo: int, cut: int, hi: int, i: nat,
                       w: map<Out.Bucket, Out.Pool>, f: map<Out.Bucket, Out.Pool>, s: map<Out.Bucket, Out.Pool>,
                       whole: map<Out.Bucket, Out.Pool>, first: map<Out.Bucket, Out.Pool>, second: map<Out.Bucket, Out.Pool>,
                       gw: seq<Out.Group>, gf: seq<Out.Group>, gs: seq<Out.Group>)
    requires lo <= cut <= hi && OneDate(shipped) && i < |shipped|
    requires w == f + s && PooledIn(f, shipped, lo, cut) && PooledIn(s, shipped, cut, hi)
    requires Adds(w, whole, InPeriod(shipped, lo, hi)[i], gw)
    requires Adds(f, first, InPeriod(shipped, lo, cut)[i], gf) && Adds(s, second, InPeriod(shipped, cut, hi)[i], gs)
    ensures whole == first + second && PooledIn(first, shipped, lo, cut) && PooledIn(second, shipped, cut, hi)
  {
    var line, inFirst, inSecond := InPeriod(shipped, lo, hi)[i], InPeriod(shipped, lo, cut)[i], InPeriod(shipped, cut, hi)[i];
    if Out.Billed(line) {
      if shipped[i].day < cut {
        OtherShipments(s, shipped, i, cut, hi);
        LineSplits(w, f, s, line, inFirst, gw, gf);
        PooledMore(f, first, shipped, i, lo, cut);
      } else {
        OtherShipments(f, shipped, i, lo, cut);
        PooledApart(f, s, shipped, lo, cut, hi);
        PlusSwaps(f, s);
        LineSplits(w, s, f, line, inSecond, gw, gs);
        PooledMore(s, second, shipped, i, cut, hi);
        PooledApart(f, second, shipped, lo, cut, hi);
        PlusSwaps(f, second);
      }
    }
  }

  /** The lines of the shipments as a period marks them. */
  ghost predicate Marked(lines: seq<Out.Line>, shipped: seq<DatedLine>, lo: int, hi: int) {
    lines == InPeriod(shipped, lo, hi)
  }

  /** The pools of a period are those of its two parts, side by side. */
  lemma {:induction false} PoolsSplit(shipped: seq<DatedLine>, lo: int, cut: int, hi: int, n: nat,
                                      lw: seq<Out.Line>, lf: seq<Out.Line>, ls: seq<Out.Line>,
                                      whole: map<Out.Bucket, Out.Pool>, first: map<Out.Bucket, Out.Pool>, second: map<Out.Bucket, Out.Pool>,
                                      gw: seq<seq<Out.Group>>, gf: seq<seq<Out.Group>>, gs: seq<seq<Out.Group>>)
    requires lo <= cut <= hi && OneDate(shipped) && n <= |shipped| == |lw| == |lf| == |ls|
    requires Marked(lw, shipped, lo, hi) && Marked(lf, shipped, lo, cut) && Marked(ls, shipped, cut, hi)
    requires Out.PooledFrom(whole, lw, gw, n) && Out.PooledFrom(first, lf, gf, n) && Out.PooledFrom(second, ls, gs, n)
    ensures whole == first + second && PooledIn(first, shipped, lo, cut) && PooledIn(second, shipped, cut, hi)
    decreases n
  {
    if n > 0 {
      var w := LastLine(whole, lw, gw, n);
      var f := LastLine(first, lf, gf, n);
      var s := LastLine(second, ls, gs, n);
      PoolsSplit(shipped, lo, cut, hi, n - 1, lw, lf, ls, w, f, s, gw[..n - 1], gf[..n - 1], gs[..n - 1]);
      LastLineSplits(shipped, lo, cut, hi, n - 1, w, f, s, whole, first, second, gw[n - 1], gf[n - 1], gs[n - 1]);
    }
  }

  lemma {:induction false} SumOverBoth(a: set<Out.Bucket>, b: set<Out.Bucket>, f: Out.Bucket -> int)
    requires a !! b
    ensures SumOver(a + b, f) == SumOver(a, f) + SumOver(b, f)
    decreases |b|
  {
    if b == {} {
      assert a + b == a;
    } else {
      var k :| k in b;
      SumOverBoth(a, b - {k}, f);
      SumOverRemove(b, f, k);
      SumOverRemove(a + b, f, k);
      assert a + b - {k} == a + (b - {k});
    }
  }

  /** Shipments owe for a period what they owe for its parts. */
  lemma ShipmentsAddUp(t: Terms, shipped: seq<DatedLine>, lo: int, cut: int, hi: int, whole: int, first: int, second: int)
    requires lo <= cut <= hi && OneDate(shipped)
    requires ShipmentsOwe(t, shipped, lo, hi, whole) && ShipmentsOwe(t, shipped, lo, cut, first) && ShipmentsOwe(t, shipped, cut, hi, second)
    ensures whole == first + second
  {
    var w, gw :| Out.PooledFrom(w, InPeriod(shipped, lo, hi), gw, |shipped|) && whole == PoolsDue(t, w);
    var f, gf :| Out.PooledFrom(f, InPeriod(shipped, lo, cut), gf, |shipped|) && first == PoolsDue(t, f);
    var s, gs :| Out.PooledFrom(s, InPeriod(shipped, cut, hi), gs, |shipped|) && second == PoolsDue(t, s);
    PoolsSplit(shipped, lo, cut, hi, |shipped|, InPeriod(shipped, lo, hi), InPeriod(shipped, lo, cut), InPeriod(shipped, cut, hi),
               w, f, s, gw, gf, gs);
    PooledApart(f, s, shipped, lo, cut, hi);
    assert w.Keys == f.Keys + s.Keys;
    SumOverBoth(f.Keys, s.Keys, b => BucketDue(t, w, b));
    SumOverEqual(f.Keys, b => BucketDue(t, w, b), b => BucketDue(t, f, b));
    SumOverEqual(s.Keys, b => BucketDue(t, w, b), b => BucketDue(t, s, b));
  }

  // ----- the previews

  /**
    The previews of a period and of its two parts, each from what is known at its own end: the
    inbound, wrapping and outbound totals add up to the cent, and the storage totals, and with them
    the grand totals, to a cent a container.
   */
  lemma PreviewsAddUp(s: Sources, t: Terms, lo: int, cut: int, hi: int, whole: Preview, first: Preview, second: Preview)
    requires lo <= cut <= hi && OneDate(s.shipped)
    requires Owes(whole, KnownSources(s, hi), t, lo, hi)
    requires Owes(first, KnownSources(s, cut), t, lo, cut) && Owes(second, KnownSources(s, hi), t, cut, hi)
    ensures whole.summary.inbound == first.summary.inbound + second.summary.inbound
    ensures whole.summary.wrapping == first.summary.wrapping + second.summary.wrapping
    ensures whole.summary.outbound == first.summary.outbound + second.summary.outbound
    ensures var containers := |Stored(s.lifecycle, t)|;
            && -containers <= whole.summary.storage - first.summary.storage - second.summary.storage <= containers
            && -containers <= whole.summary.grand - first.summary.grand - second.summary.grand <= containers
  {
    ReceiptsAddUp(t.receipt, s.receipts, s.receiptLines, INBOUND, lo, cut, hi);
    ReceiptsAddUp(t.receipt, s.receipts, s.receiptLines, WRAPPING, lo, cut, hi);
    ShipmentsAddUp(t, s.shipped, lo, cut, hi, whole.summary.outbound, first.summary.outbound, second.summary.outbound);
    StorageDrifts(t, s.lifecycle, lo, cut, hi);
  }
}
