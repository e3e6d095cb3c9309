/**
  The whole preview from its sources: receipts, shipments and lifecycle events go in, and each of
  the four totals is the sum of what the sources owe. What follows for generated invoices is about
  previews that are calculated here.
 */
module PreviewSources {
  import opened Wrappers
  import opened Sums
  import opened BillingMoney
  import opened InvoiceLifecycle
  import opened InvoiceTotals
  import opened GeneratedInvoices
  import opened ReceiptCharges
  import opened Lifecycle
  import opened PalletRelease
  import opened StorageSegments
  import Billing = ContainerStorage
  import Fee = InboundFee
  import Out = OutboundPallets
  import SortedSets

  datatype Entry = Entry(container: string, event: Event)

  datatype DatedLine = DatedLine(line: Out.Line, day: int)

  datatype Sources = Sources(receipts: seq<Fee.Receipt>, receiptLines: seq<ReceiptLine>, shipped: seq<DatedLine>,
                             lifecycle: seq<Entry>)

  /**
    The scope and the rates. holder is the container of a place; place and row stand for the place
    of a charge in the final order.
   */
  datatype Terms = Terms(receipt: ReceiptTerms, inScope: Out.Bucket -> bool, shippingFee: nat, holder: int -> string,
                         place: Out.Bucket -> int, wanted: string -> bool, storage: string -> Billing.StorageTerms,
                         row: string -> int)

  // ----- shipments

  /** The lines of the shipments, with those of the period marked. */
  function InPeriod(shipped: seq<DatedLine>, lo: int, hi: int): (r: seq<Out.Line>)
    ensures |r| == |shipped|
  {
    seq(|shipped|, i requires 0 <= i < |shipped| => shipped[i].line.(inRange := lo <= shipped[i].day < hi))
  }

  function BucketDue(t: Terms, pools: map<Out.Bucket, Out.Pool>, b: Out.Bucket): int {
    if t.inScope(b) then Cents(Out.ChargedAt(Out.PoolAt(pools, b), t.receipt.rule), t.shippingFee) else 0
  }

  /** What the pools owe: each bucket in scope for the pallets that its quantity fills, rounded on its own. */
  ghost function PoolsDue(t: Terms, pools: map<Out.Bucket, Out.Pool>): int {
    SumOver(pools.Keys, b => BucketDue(t, pools, b))
  }

  ghost predicate OnlyKind(charges: seq<Charge>, kind: string) {
    forall i :: 0 <= i < |charges| ==> charges[i].charge == kind
  }

  lemma {:induction false} OtherKinds(charges: seq<Charge>, kind: string, other: string)
    requires OnlyKind(charges, kind) && other != kind
    ensures ChargesTotal(charges, other) == 0
  {
    if charges != [] {
      OtherKinds(charges[..|charges| - 1], kind, other);
    }
  }

  method ChargeShipments(t: Terms, shipped: seq<DatedLine>, lo: int, hi: int)
    returns (charges: seq<Charge>, ghost pools: map<Out.Bucket, Out.Pool>, ghost groups: seq<seq<Out.Group>>)
    ensures OnlyKind(charges, OUTBOUND)
    ensures Out.PooledFrom(pools, InPeriod(shipped, lo, hi), groups, |shipped|)
    ensures ChargesTotal(charges, OUTBOUND) == PoolsDue(t, pools)
  {
    var pooled := Out.PoolOutboundLines(InPeriod(shipped, lo, hi));
    pools := pooled;
    groups :| Out.PooledFrom(pools, InPeriod(shipped, lo, hi), groups, |shipped|);
    var owed := Out.ChargePools(pooled, t.inScope, t.receipt.rule);
    charges := [];
    var rest := owed.Keys;
    assert owed.Keys - rest == {};
    while rest != {}
      invariant rest <= owed.Keys && OnlyKind(charges, OUTBOUND)
      invariant ChargesTotal(charges, OUTBOUND) == SumOver(owed.Keys - rest, b => BucketDue(t, pools, b))
      decreases rest
    {
      var b := SortedSets.PickOne(rest);
      ghost var done := owed.Keys - rest;
      SumOverAdd(done, k => BucketDue(t, pools, k), b);
      var charge := Charge(OUTBOUND, t.holder(b.place), owed[b], t.shippingFee, t.place(b));
      assert (charges + [charge])[..|charges|] == charges;
      charges := charges + [charge];
      rest := rest - {b};
      assert owed.Keys - rest == done + {b};
    }
    assert owed.Keys - rest == owed.Keys;
    NothingElseOwed(t, pools, owed.Keys);
  }

  lemma NothingElseOwed(t: Terms, pools: map<Out.Bucket, Out.Pool>, owed: set<Out.Bucket>)
    requires forall b :: b in owed <==> b in pools && t.inScope(b) && 0 < Out.ChargedAt(pools[b], t.receipt.rule)
    ensures SumOver(owed, b => BucketDue(t, pools, b)) == PoolsDue(t, pools)
  {
    forall b | b in pools.Keys - owed
      ensures BucketDue(t, pools, b) == 0
    {
      assert Cents(0, t.shippingFee) == 0;
    }
    SumOverSuperset(owed, pools.Keys, b => BucketDue(t, pools, b));
  }

  // ----- storage

  /** The lifecycle of one container. */
  function EventsOf(entries: seq<Entry>, container: string): seq<Event> {
    if entries == [] then []
    else (if entries[0].container == container then [entries[0].event] else []) + EventsOf(entries[1..], container)
  }

  function Stored(entries: seq<Entry>, t: Terms): set<string> {
    set i | 0 <= i < |entries| && t.wanted(entries[i].container) :: entries[i].container
  }

  lemma {:induction false} EventsOfAppend(entries: seq<Entry>, e: Entry, container: string)
    ensures EventsOf(entries + [e], container)
         == EventsOf(entries, container) + if e.container == container then [e.event] else []
  {
    if entries == [] {
      assert entries + [e] == [e] && [e][1..] == [];
    } else {
      EventsOfAppend(entries[1..], e, container);
      assert (entries + [e])[1..] == entries[1..] + [e];
    }
  }

  lemma StoredAppend(entries: seq<Entry>, e: Entry, t: Terms)
    ensures Stored(entries + [e], t) == Stored(entries, t) + if t.wanted(e.container) then {e.container} else {}
  {
    var longer := entries + [e];
    assert longer[|entries|] == e;
    forall c | c in Stored(entries, t)
      ensures c in Stored(longer, t)
    {
      var i :| 0 <= i < |entries| && t.wanted(entries[i].container) && entries[i].container == c;
      assert longer[i] == entries[i];
    }
  }

  lemma {:induction false} NotStored(entries: seq<Entry>, t: Terms, container: string)
    requires container !in Stored(entries, t) && t.wanted(container)
    ensures EventsOf(entries, container) == []
  {
    if entries != [] {
      assert entries[0].container != container;
      forall i | 0 <= i < |entries| - 1
        ensures entries[1..][i] == entries[i + 1]
      {
      }
      NotStored(entries[1..], t, container);
    }
  }

  method GroupByContainer(entries: seq<Entry>, t: Terms) returns (groups: map<string, seq<Event>>)
    ensures groups.Keys == Stored(entries, t) && forall c :: c in groups ==> groups[c] == EventsOf(entries, c)
  {
    groups := map[];
    for i := 0 to |entries|
      invariant groups.Keys == Stored(entries[..i], t) && forall c :: c in groups ==> groups[c] == EventsOf(entries[..i], c)
    {
      var e := entries[i];
      assert entries[..i + 1] == entries[..i] + [e];
      StoredAppend(entries[..i], e, t);
      forall c
        ensures EventsOf(entries[..i + 1], c) == EventsOf(entries[..i], c) + if e.container == c then [e.event] else []
      {
        EventsOfAppend(entries[..i], e, c);
      }
      if t.wanted(e.container) {
        if e.container !in groups {
          NotStored(entries[..i], t, e.container);
        }
        groups := groups[e.container := (if e.container in groups then groups[e.container] else []) + [e.event]];
      }
    }
    assert entries[..|entries|] == entries;
  }

  /** What a container owes for storage: its pallet-days less the free ones, each rounded once. */
  ghost function StorageDue(events: seq<Event>, terms: Billing.StorageTerms, lo: int, hi: int): int
    requires lo <= hi
  {
    RowGross(NonNegativePart(PeriodPalletDays(events, terms.scope, terms.rule, lo, hi)), terms.rate)
    - RowGross(NonNegativePart(PeriodFreeDays(events, terms.scope, terms.rule, terms.graceDays, lo, hi)), terms.rate)
  }

  lemma {:induction false} FreeWithin(events: seq<Event>, terms: Billing.StorageTerms, lo: int, hi: int)
    requires lo <= hi
    ensures 0 <= PeriodFreeDays(events, terms.scope, terms.rule, terms.graceDays, lo, hi)
              <= PeriodPalletDays(events, terms.scope, terms.rule, lo, hi)
    decreases hi - lo
  {
    if lo < hi {
      FreeWithin(events, terms, lo, hi - 1);
      var ps := Positions(events);
      SumOverAtMost(ps, p => 0, p => BillableAt(events, terms.scope, terms.rule, p, hi - 1));
      SumOverSuperset({}, ps, p => 0);
    }
  }

  function RowDue(row: Option<Billing.StorageRow>): int {
    if row.Some? then row.value.amount else 0
  }

  /** A container without a row owes nothing. */
  lemma NoRowOwesNothing(events: seq<Event>, terms: Billing.StorageTerms, lo: int, hi: int)
    requires lo <= hi && PeriodPalletDays(events, terms.scope, terms.rule, lo, hi) == 0
    ensures StorageDue(events, terms, lo, hi) == 0
  {
    FreeWithin(events, terms, lo, hi);
  }

  lemma CountedRowTells(row: Billing.StorageRow, events: seq<Event>, terms: Billing.StorageTerms, lo: int, hi: int)
    requires lo <= hi && Billing.DayCounts(row, events, terms, lo, hi) && Billing.RowRounded(row, terms.rate)
    ensures row.amount == StorageDue(events, terms, lo, hi)
  {
  }

  lemma RowTellsDue(row: Option<Billing.StorageRow>, events: seq<Event>, terms: Billing.StorageTerms, lo: int, hi: int)
    requires lo <= hi && Billing.IsRow(row, events, terms, Period(lo, hi))
    ensures RowDue(row) == StorageDue(events, terms, lo, hi)
  {
    if row.Some? {
      Billing.CountsOfDays(row.value, events, terms, Period(lo, hi));
      CountedRowTells(row.value, events, terms, lo, hi);
    } else {
      NoRowOwesNothing(events, terms, lo, hi);
    }
  }

  ghost function ContainerDue(t: Terms, entries: seq<Entry>, c: string, lo: int, hi: int): int
    requires lo <= hi
  {
    StorageDue(EventsOf(entries, c), t.storage(c), lo, hi)
  }

  ghost function StoredDue(t: Terms, entries: seq<Entry>, lo: int, hi: int): int
    requires lo <= hi
  {
    SumOver(Stored(entries, t), c => ContainerDue(t, entries, c, lo, hi))
  }

  function RowsTotal(rows: seq<StorageEntry>): int {
    if rows == [] then 0 else RowsTotal(rows[..|rows| - 1]) + rows[|rows| - 1].row.amount
  }

  ghost predicate Sourced(rows: seq<StorageEntry>, sources: seq<RowSource>, t: Terms, entries: seq<Entry>) {
    && |sources| == |rows|
    && forall k :: 0 <= k < |rows| ==> sources[k] == RowSource(EventsOf(entries, rows[k].container), t.storage(rows[k].container))
  }

  /** The rows of some of the containers, and what these owe. */
  ghost predicate RowsOf(rows: seq<StorageEntry>, sources: seq<RowSource>, t: Terms, entries: seq<Entry>, done: set<string>,
                         lo: int, hi: int)
    requires lo <= hi
  {
    && Distinct(rows) && FromLedger(rows, sources, Period(lo, hi)) && Sourced(rows, sources, t, entries)
    && (forall k :: 0 <= k < |rows| ==> rows[k].container in done)
    && RowsTotal(rows) == SumOver(done, c => ContainerDue(t, entries, c, lo, hi))
  }

  lemma NextRow(rows: seq<StorageEntry>, sources: seq<RowSource>, period: Period, entry: StorageEntry, source: RowSource)
    requires period.start <= period.endExclusive && FromLedger(rows, sources, period)
    requires Billing.IsRow(Some(entry.row), source.events, source.terms, period)
    ensures FromLedger(rows + [entry], sources + [source], period)
  {
    var after, from := rows + [entry], sources + [source];
    forall k | 0 <= k < |after|
      ensures Billing.IsRow(Some(after[k].row), from[k].events, from[k].terms, period)
    {
      if k < |rows| {
        assert after[k] == rows[k] && from[k] == sources[k];
      } else {
        assert after[k] == entry && from[k] == source;
      }
    }
  }

  lemma NextTotal(rows: seq<StorageEntry>, t: Terms, entries: seq<Entry>, done: set<string>, lo: int, hi: int, c: string, amount: int)
    requires lo <= hi && c !in done && amount == ContainerDue(t, entries, c, lo, hi)
    requires RowsTotal(rows) == SumOver(done, k => ContainerDue(t, entries, k, lo, hi))
    ensures RowsTotal(rows) + amount == SumOver(done + {c}, k => ContainerDue(t, entries, k, lo, hi))
    ensures forall entry: StorageEntry :: RowsTotal(rows + [entry]) == RowsTotal(rows) + entry.row.amount
  {
    SumOverAdd(done, k => ContainerDue(t, entries, k, lo, hi), c);
    forall entry: StorageEntry
      ensures RowsTotal(rows + [entry]) == RowsTotal(rows) + entry.row.amount
    {
      assert (rows + [entry])[..|rows|] == rows;
    }
  }

  lemma NextKept(rows: seq<StorageEntry>, sources: seq<RowSource>, t: Terms, entries: seq<Entry>, done: set<string>,
                 entry: StorageEntry, source: RowSource)
    requires Distinct(rows) && Sourced(rows, sources, t, entries) && entry.container !in done
    requires forall k :: 0 <= k < |rows| ==> rows[k].container in done
    requires source == RowSource(EventsOf(entries, entry.container), t.storage(entry.container))
    ensures Distinct(rows + [entry]) && Sourced(rows + [entry], sources + [source], t, entries)
    ensures forall k :: 0 <= k < |rows + [entry]| ==> (rows + [entry])[k].container in done + {entry.container}
  {
  }

  lemma NextContainer(rows: seq<StorageEntry>, sources: seq<RowSource>, t: Terms, entries: seq<Entry>, done: set<string>,
                      lo: int, hi: int, c: string, row: Option<Billing.StorageRow>)
    requires lo <= hi && RowsOf(rows, sources, t, entries, done, lo, hi) && c !in done
    requires Billing.IsRow(row, EventsOf(entries, c), t.storage(c), Period(lo, hi))
    ensures row.None? ==> RowsOf(rows, sources, t, entries, done + {c}, lo, hi)
    ensures row.Some? ==> RowsOf(rows + [StorageEntry(c, row.value, t.row(c))],
                                 sources + [RowSource(EventsOf(entries, c), t.storage(c))], t, entries, done + {c}, lo, hi)
  {
    RowTellsDue(row, EventsOf(entries, c), t.storage(c), lo, hi);
    NextTotal(rows, t, entries, done, lo, hi, c, RowDue(row));
    if row.Some? {
      var entry, source := StorageEntry(c, row.value, t.row(c)), RowSource(EventsOf(entries, c), t.storage(c));
      NextRow(rows, sources, Period(lo, hi), entry, source);
      NextKept(rows, sources, t, entries, done, entry, source);
    }
  }

  /** A row for every container of the lifecycle that has anything to tell. */
  method ChargeStorage(t: Terms, entries: seq<Entry>, lo: int, hi: int)
    returns (rows: seq<StorageEntry>, ghost sources: seq<RowSource>)
    requires lo <= hi
    ensures Distinct(rows) && RowsTotal(rows) == StoredDue(t, entries, lo, hi)
    ensures RowsOf(rows, sources, t, entries, Stored(entries, t), lo, hi)
  {
    var groups := GroupByContainer(entries, t);
    rows, sources := [], [];
    var rest := groups.Keys;
    assert groups.Keys - rest == {};
    while rest != {}
      invariant rest <= groups.Keys && RowsOf(rows, sources, t, entries, groups.Keys - rest, lo, hi)
      decreases rest
    {
      var c := SortedSets.PickOne(rest);
      var row := Billing.CalculateStorageRow(groups[c], t.storage(c), Period(lo, hi));
      NextContainer(rows, sources, t, entries, groups.Keys - rest, lo, hi, c, row);
      if row.Some? {
        rows, sources := rows + [StorageEntry(c, row.value, t.row(c))], sources + [RowSource(groups[c], t.storage(c))];
      }
      assert groups.Keys - (rest - {c}) == groups.Keys - rest + {c};
      rest := rest - {c};
    }
    assert groups.Keys - rest == Stored(entries, t);
  }

  // ----- the totals of an assembled preview

  function AmountIf(line: PreviewLine, kind: string): int {
    if line.charge == kind then line.amount else 0
  }

  lemma {:induction false} AmountConcat(a: seq<PreviewLine>, b: seq<PreviewLine>, kind: string)
    ensures AmountFor(a + b, kind) == AmountFor(a, kind) + AmountFor(b, kind)
  {
    if b == [] {
      assert a + b == a;
    } else {
      AmountConcat(a, b[..|b| - 1], kind);
      assert (a + b)[..|a + b| - 1] == a + b[..|b| - 1];
    }
  }

  lemma AmountWithout(lines: seq<PreviewLine>, j: nat, kind: string)
    requires j < |lines|
    ensures AmountFor(lines, kind) == AmountFor(lines[..j] + lines[j + 1..], kind) + AmountIf(lines[j], kind)
  {
    assert lines == lines[..j] + ([lines[j]] + lines[j + 1..]);
    AmountConcat(lines[..j], [lines[j]] + lines[j + 1..], kind);
    AmountConcat([lines[j]], lines[j + 1..], kind);
    AmountConcat(lines[..j], lines[j + 1..], kind);
    assert [lines[j]][..0] == [];
  }

  lemma TakenOut(lines: seq<PreviewLine>, j: nat)
    requires j < |lines|
    ensures multiset(lines[..j] + lines[j + 1..]) == multiset(lines) - multiset{lines[j]}
  {
    assert lines == lines[..j] + [lines[j]] + lines[j + 1..];
  }

  lemma {:induction false} AmountPermuted(s: seq<PreviewLine>, t: seq<PreviewLine>, kind: string)
    requires multiset(s) == multiset(t)
    ensures AmountFor(s, kind) == AmountFor(t, kind)
    decreases |s|
  {
    if s == [] {
      assert |multiset(t)| == 0;
    } else {
      var n := |s| - 1;
      assert s[n] in multiset(s) && s[n] in multiset(t);
      var j :| 0 <= j < |t| && t[j] == s[n];
      TakenOut(s, n);
      TakenOut(t, j);
      assert s[..n] + s[n + 1..] == s[..n];
      AmountPermuted(s[..n], t[..j] + t[j + 1..], kind);
      AmountWithout(t, j, kind);
    }
  }

  lemma {:induction false} FeeAmounts(charges: seq<Charge>, kind: string)
    ensures AmountFor(FeeLines(charges), kind) == ChargesTotal(charges, kind)
  {
    if charges != [] {
      var n := |charges| - 1;
      FeeAmounts(charges[..n], kind);
      assert FeeLines(charges)[..n] == FeeLines(charges[..n]);
    }
  }

  lemma {:induction false} StorageAmounts(rows: seq<StorageEntry>, kind: string)
    ensures AmountFor(StorageLines(rows), kind) == if kind == STORAGE then RowsTotal(rows) else 0
  {
    if rows != [] {
      var n := |rows| - 1;
      StorageAmounts(rows[..n], kind);
      assert StorageLines(rows)[..n] == StorageLines(rows[..n]);
    }
  }

  lemma AssembledAmount(p: Preview, charges: seq<Charge>, rows: seq<StorageEntry>, kind: string)
    requires Assembled(p, charges, rows)
    ensures AmountFor(p.lines, kind) == ChargesTotal(charges, kind) + if kind == STORAGE then RowsTotal(rows) else 0
  {
    AmountPermuted(p.lines, FeeLines(charges) + StorageLines(rows), kind);
    AmountConcat(FeeLines(charges), StorageLines(rows), kind);
    FeeAmounts(charges, kind);
    StorageAmounts(rows, kind);
  }

  // ----- from sources to totals

  /** The pools of the period's shipments, and what they owe. */
  ghost predicate ShipmentsOwe(t: Terms, shipped: seq<DatedLine>, lo: int, hi: int, owed: int) {
    exists pools, groups :: Out.PooledFrom(pools, InPeriod(shipped, lo, hi), groups, |shipped|) && owed == PoolsDue(t, pools)
  }

  /** Every total is what the sources owe, and the grand total is all of it. */
  ghost predicate Owes(p: Preview, s: Sources, t: Terms, lo: int, hi: int)
    requires lo <= hi
  {
    && p.summary.inbound == DueOf(t.receipt, s.receipts, s.receiptLines, s.receipts, INBOUND, lo, hi)
    && p.summary.wrapping == DueOf(t.receipt, s.receipts, s.receiptLines, s.receipts, WRAPPING, lo, hi)
    && ShipmentsOwe(t, s.shipped, lo, hi, p.summary.outbound)
    && p.summary.storage == StoredDue(t, s.lifecycle, lo, hi)
    && p.summary.grand == p.summary.inbound + p.summary.wrapping + p.summary.storage + p.summary.outbound
  }

  lemma KindsDiffer()
    ensures INBOUND != WRAPPING && INBOUND != OUTBOUND && INBOUND != STORAGE
    ensures WRAPPING != OUTBOUND && WRAPPING != STORAGE && OUTBOUND != STORAGE
  {
    assert INBOUND[0] != WRAPPING[0] && INBOUND[0] != OUTBOUND[0] && INBOUND[0] != STORAGE[0];
    assert WRAPPING[0] != OUTBOUND[0] && WRAPPING[0] != STORAGE[0] && OUTBOUND[0] != STORAGE[0];
  }

  lemma {:induction false} NoStorageCharge(charges: seq<Charge>)
    requires ReceiptKinds(charges)
    ensures ChargesTotal(charges, OUTBOUND) == 0 == ChargesTotal(charges, STORAGE)
  {
    KindsDiffer();
    if charges != [] {
      NoStorageCharge(charges[..|charges| - 1]);
    }
  }

  lemma TotalsOfParts(p: Preview, inbound: seq<Charge>, outbound: seq<Charge>, rows: seq<StorageEntry>)
    requires Assembled(p, inbound + outbound, rows) && ReceiptKinds(inbound) && OnlyKind(outbound, OUTBOUND)
    ensures p.summary.inbound == ChargesTotal(inbound, INBOUND) && p.summary.wrapping == ChargesTotal(inbound, WRAPPING)
    ensures p.summary.outbound == ChargesTotal(outbound, OUTBOUND) && p.summary.storage == RowsTotal(rows)
  {
    KindsDiffer();
    NoStorageCharge(inbound);
    AssembledAmount(p, inbound + outbound, rows, INBOUND);
    AssembledAmount(p, inbound + outbound, rows, WRAPPING);
    AssembledAmount(p, inbound + outbound, rows, OUTBOUND);
    AssembledAmount(p, inbound + outbound, rows, STORAGE);
    ChargesConcat(inbound, outbound, INBOUND);
    ChargesConcat(inbound, outbound, WRAPPING);
    ChargesConcat(inbound, outbound, OUTBOUND);
    ChargesConcat(inbound, outbound, STORAGE);
    OtherKinds(outbound, OUTBOUND, INBOUND);
    OtherKinds(outbound, OUTBOUND, WRAPPING);
    OtherKinds(outbound, OUTBOUND, STORAGE);
  }

  /** The preview of a period, from the sources known at its end. */
  method CalculatePreview(s: Sources, t: Terms, lo: int, hi: int)
    returns (p: Preview, ghost charges: seq<Charge>, ghost rows: seq<StorageEntry>, ghost sources: seq<RowSource>)
    requires lo <= hi && Fee.DistinctIds(s.receipts)
    ensures Owes(p, s, t, lo, hi)
    ensures Calculated(p, charges, rows)
    ensures FromLedger(rows, sources, Period(lo, hi)) && Sourced(rows, sources, t, s.lifecycle)
  {
    var inbound := ChargeReceipts(t.receipt, s.receipts, s.receiptLines, lo, hi);
    var outbound, pools, groups := ChargeShipments(t, s.shipped, lo, hi);
    var entries, kept := ChargeStorage(t, s.lifecycle, lo, hi);
    p := AssemblePreview(inbound + outbound, entries);
    charges, rows, sources := inbound + outbound, entries, kept;
    TotalsOfParts(p, inbound, outbound, entries);
  }

  /** Generating an invoice calculates the preview anew: what is stored is what the sources owe. */
  method BillPeriod(store: Store, s: Sources, t: Terms, lo: int, hi: int, storageOnly: bool, scope: InvoiceLifecycle.Scope)
    returns (refused: bool, id: int)
    requires lo <= hi && Fee.DistinctIds(s.receipts)
    modifies store
    ensures refused ==> store.State() == old(store.State())
    ensures !refused ==>
              && id in store.invoices && store.invoices == old(store.invoices)[id := store.invoices[id]]
              && store.invoices[id].status == Draft && store.invoices[id].scope == scope
              && exists p :: Owes(p, s, t, lo, hi) && store.invoices[id].grand == Expected(p, storageOnly)
  {
    var p, charges, rows, sources := CalculatePreview(s, t, lo, hi);
    refused, id := GenerateInvoice(store, p, storageOnly, scope, charges, rows);
  }
}
