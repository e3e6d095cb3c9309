/**
  Every reachable state is sound, and the freeze makes recomputation stable: while a live invoice
  without a container type covers a period, no accepted change moves what billing reads of its
  warehouse, or of the containers on its lines.
 */
module SourceStability {
  import opened Wrappers
  import opened SourceFreeze
  import opened StockLedger
  import opened StockOperations
  import opened DeletionRollback
  import opened DeletionErase
  import opened InboundDeletion
  import opened ReceiptDeletion
  import opened BatchDeletion
  import opened StockRuns
  import Billing = ContainerStorage
  import Events = Lifecycle
  import PalletRelease

  // ----- runs

  lemma StepKeeps(db: Db, op: Op, after: Db)
    requires Inv(db) && Step(db, op, after)
    ensures Inv(after)
  {
    if after != db {
      match op {
        case Confirm(receipt, now) => ConfirmKeeps(db, receipt, now);
        case Adjust(id, lines, occurred, now) => AdjustmentKeeps(db, id, lines, occurred, now);
        case TakeCount(id, lines, now) => CycleCountKeeps(db, id, lines, now);
        case ReserveStock(b, quantity, pallets) => ReservingKeeps(db, b, quantity, pallets);
        case PostMovement(e, now) => PostingKeeps(db, e, now);
        case Cancel(id, now) => ErasureKeeps(db, after, {Source(Inbound, id)});
        case CancelBatch(ids, now) => ErasureKeeps(db, after, ReceiptsOf(ids));
        case CancelWithDependencies(id, links, selected, now) =>
          ErasureKeeps(db, after, Coverage(db, Source(Inbound, id), links));
        case ReplaceInvoices(invoices) => InvoicesDoNotMatter(db, invoices);
      }
    }
  }

  ghost predicate IsRun(states: seq<Db>, ops: seq<Op>) {
    && |states| == |ops| + 1
    && forall i :: 0 <= i < |ops| ==> Step(states[i], ops[i], states[i + 1])
  }

  /** What a reader may rely on in a state: nothing but the ledger decides the balances. */
  ghost predicate Sound(db: Db) {
    && (forall m, b: Bucket :: 0 < b.sku ==> Balance(m, db.items, b) == Total(m, db.ledger, b))
    && (forall b :: b in db.items ==>
          db.items[b].allocatedQty + db.items[b].damagedQty + db.items[b].holdQty <= db.items[b].quantity
          && db.items[b].allocatedPallets <= db.items[b].pallets)
    && (forall key :: key in db.containers ==>
          (db.containers[key].location, db.containers[key].status) == Projected(db, key))
    && (forall i :: 0 <= i < |db.ledger| ==> db.ledger[i].source.kind != CascadeDelete)
  }

  lemma InvIsSound(db: Db)
    requires Inv(db)
    ensures Sound(db)
  {
    forall b | b in db.items
      ensures db.items[b].Sound()
    {
    }
    forall key | key in db.containers
      ensures IsProjected(db, key)
    {
    }
  }

  /** From a sound start, in every state of every run the caches agree with the ledger. */
  lemma {:induction false} EveryStateIsSound(states: seq<Db>, ops: seq<Op>, i: nat)
    requires IsRun(states, ops) && Inv(states[0]) && i < |states|
    ensures Inv(states[i]) && Sound(states[i])
  {
    if i > 0 {
      EveryStateIsSound(states, ops, i - 1);
      StepKeeps(states[i - 1], ops[i - 1], states[i]);
    }
    InvIsSound(states[i]);
  }

  // ----- what billing reads

  predicate Shown(s: Source, documents: map<Source, Document>) {
    s.kind == Inbound || s.kind == Outbound ==> s in documents && documents[s].standing == Posted
  }

  /** The lifecycle query of one container, at one place or at all, for a period that ends before the given day. */
  predicate Billable(r: Row, documents: map<Source, Document>, key: ContainerKey, place: Option<int>, before: int) {
    && InContainer(r.bucket, key) && (place.None? || place.value == r.bucket.location) && (r.quantity != 0 || r.pallets != 0)
    && r.day.Some? && r.day.value < before
    && Shown(r.source, documents)
  }

  function BillableRows(ledger: seq<Row>, documents: map<Source, Document>, key: ContainerKey, place: Option<int>, before: int): seq<Row> {
    if ledger == [] then []
    else
      var r := ledger[|ledger| - 1];
      BillableRows(ledger[..|ledger| - 1], documents, key, place, before) + if Billable(r, documents, key, place, before) then [r] else []
  }

  /**
    A live invoice for all container types that covers every day before the given one: for all
    warehouses, for the place, or with the container on a line.
   */
  ghost predicate Covers(db: Db, key: ContainerKey, place: Option<int>, before: int) {
    exists i :: 0 <= i < |db.invoices| && IsCovering(db.invoices[i], key, place) && before <= db.invoices[i].periodEnd + 1
  }

  predicate IsCovering(invoice: Invoice, key: ContainerKey, place: Option<int>) {
    && invoice.customer == key.customer && !invoice.void && invoice.containerType.None?
    && (invoice.warehouse.None? || invoice.warehouse == place
        || (key.container != "" && key.container in invoice.lineContainers))
  }

  lemma AllShown(db: Db, i: nat)
    requires Inv(db) && i < |db.ledger|
    ensures Shown(db.ledger[i].source, db.documents)
  {
    assert db.ledger[i].source.kind == Inbound ==> ReceiptRow(db.ledger[i], db.documents);
  }

  lemma ThawedIsInvisible(db: Db, r: Row, key: ContainerKey, place: Option<int>, before: int)
    requires Covers(db, key, place, before) && RowThawed(db.invoices, r)
    ensures forall documents :: !Billable(r, documents, key, place, before)
  {
    var i :| 0 <= i < |db.invoices| && IsCovering(db.invoices[i], key, place) && before <= db.invoices[i].periodEnd + 1;
    assert InContainer(r.bucket, key) && (place.None? || place.value == r.bucket.location) ==>
             Guards(db.invoices[i], r.bucket.customer, r.bucket.location, r.bucket.container);
  }

  /** Among rows whose documents stand in both registries, the same ones are billable. */
  lemma {:induction false} RegistryDoesNotMatter(ledger: seq<Row>, a: map<Source, Document>, b: map<Source, Document>,
                                                 key: ContainerKey, place: Option<int>, before: int)
    requires forall i :: 0 <= i < |ledger| ==> Shown(ledger[i].source, a) && Shown(ledger[i].source, b)
    ensures BillableRows(ledger, a, key, place, before) == BillableRows(ledger, b, key, place, before)
  {
    if ledger != [] {
      RegistryDoesNotMatter(ledger[..|ledger| - 1], a, b, key, place, before);
    }
  }

  /** Rows that are not billable may be added at the end. */
  lemma {:induction false} InvisibleSuffix(was: seq<Row>, ledger: seq<Row>, documents: map<Source, Document>,
                                           key: ContainerKey, place: Option<int>, before: int, n: nat)
    requires |was| <= n <= |ledger| && ledger[..|was|] == was
    requires forall j :: |was| <= j < |ledger| ==> !Billable(ledger[j], documents, key, place, before)
    ensures BillableRows(ledger[..n], documents, key, place, before) == BillableRows(was, documents, key, place, before)
    decreases n
  {
    if n > |was| {
      InvisibleSuffix(was, ledger, documents, key, place, before, n - 1);
      assert ledger[..n][..n - 1] == ledger[..n - 1];
      var rows := BillableRows(ledger[..n - 1], documents, key, place, before);
      assert rows + [] == rows;
    }
  }

  /** The erased rows were not visible, and the rows that stay keep their documents. */
  lemma {:induction false} ErasureIsInvisible(ledger: seq<Row>, documents: map<Source, Document>, sources: set<Source>,
                                              key: ContainerKey, place: Option<int>, before: int)
    requires forall i :: 0 <= i < |ledger| && ledger[i].source in sources ==> !Billable(ledger[i], documents, key, place, before)
    ensures BillableRows(Without(ledger, sources), documents - sources, key, place, before)
         == BillableRows(ledger, documents, key, place, before)
  {
    if ledger != [] {
      var n := |ledger| - 1;
      ErasureIsInvisible(ledger[..n], documents, sources, key, place, before);
      var kept, rows := Without(ledger[..n], sources), BillableRows(ledger[..n], documents, key, place, before);
      if ledger[n].source in sources {
        assert kept + [] == kept && rows + [] == rows;
      } else {
        assert (kept + [ledger[n]])[..|kept|] == kept;
        assert ledger[n].source in documents <==> ledger[n].source in documents - sources;
      }
    }
  }

  // ----- what may be erased under a covering invoice

  /** All rows of the sources are dated after the covered days. */
  ghost predicate AllThawed(db: Db, sources: set<Source>) {
    forall i :: 0 <= i < |db.ledger| && db.ledger[i].source in sources ==> RowThawed(db.invoices, db.ledger[i])
  }

  lemma CoverageIsThawed(db: Db, sources: set<Source>)
    requires Inv(db) && NothingFrozen(db, sources)
    ensures AllThawed(db, sources)
  {
    forall i | 0 <= i < |db.ledger| && db.ledger[i].source in sources
      ensures RowThawed(db.invoices, db.ledger[i])
    {
      var r := db.ledger[i];
      assert RowSound(r, db.containers) && !Frozen(db.invoices, RowMutation(db, r));
      ThawedUnlessBlocked(db, r.bucket, if r.day.Some? then r.day.value else r.created);
    }
  }

  /** Freezing a receipt by its arrival day freezes each of its rows. */
  lemma ReceiptIsThawed(db: Db, own: Source, i: nat)
    requires Inv(db) && own.kind == Inbound && own in db.documents && ReceiptThawed(db, own)
    requires i < |db.ledger| && db.ledger[i].source == own
    ensures RowThawed(db.invoices, db.ledger[i])
  {
    var r, receipt := db.ledger[i], db.documents[own];
    assert ReceiptRow(r, db.documents) && RowSound(r, db.containers);
    forall k | 0 <= k < |db.invoices| && Guards(db.invoices[k], r.bucket.customer, r.bucket.location, r.bucket.container)
      ensures db.invoices[k].periodEnd < receipt.day
    {
      GuardsBlocksPast(db.invoices[k], ReceiptMutation(receipt), receipt.location);
    }
  }

  lemma BatchIsThawed(db: Db, batch: set<Source>)
    requires Inv(db) && BatchThawed(db, batch) && forall own :: own in batch ==> own.kind == Inbound
    ensures AllThawed(db, batch)
  {
    forall i | 0 <= i < |db.ledger| && db.ledger[i].source in batch
      ensures RowThawed(db.invoices, db.ledger[i])
    {
      ReceiptIsThawed(db, db.ledger[i].source, i);
    }
  }

  lemma ErasedRowsStay(db: Db, after: Db, sources: set<Source>, key: ContainerKey, place: Option<int>, before: int)
    requires AsIfNever(db, after, sources) && AllThawed(db, sources) && Covers(db, key, place, before)
    ensures BillableRows(after.ledger, after.documents, key, place, before) == BillableRows(db.ledger, db.documents, key, place, before)
  {
    forall i | 0 <= i < |db.ledger| && db.ledger[i].source in sources
      ensures !Billable(db.ledger[i], db.documents, key, place, before)
    {
      ThawedIsInvisible(db, db.ledger[i], key, place, before);
    }
    ErasureIsInvisible(db.ledger, db.documents, sources, key, place, before);
  }

  lemma GrownRowsStay(db: Db, after: Db, key: ContainerKey, place: Option<int>, before: int)
    requires Inv(db) && Inv(after) && VisiblyGrew(db, after) && Covers(db, key, place, before)
    ensures BillableRows(after.ledger, after.documents, key, place, before) == BillableRows(db.ledger, db.documents, key, place, before)
  {
    forall j | |db.ledger| <= j < |after.ledger|
      ensures !Billable(after.ledger[j], after.documents, key, place, before)
    {
      ThawedIsInvisible(db, after.ledger[j], key, place, before);
    }
    InvisibleSuffix(db.ledger, after.ledger, after.documents, key, place, before, |after.ledger|);
    assert after.ledger[..|after.ledger|] == after.ledger;
    forall i | 0 <= i < |db.ledger|
      ensures Shown(db.ledger[i].source, db.documents) && Shown(db.ledger[i].source, after.documents)
    {
      assert db.ledger[i] == after.ledger[i];
      AllShown(db, i);
      AllShown(after, i);
    }
    RegistryDoesNotMatter(db.ledger, db.documents, after.documents, key, place, before);
  }

  lemma StepIsInvisible(db: Db, op: Op, after: Db, key: ContainerKey, place: Option<int>, before: int)
    requires Inv(db) && Step(db, op, after) && Covers(db, key, place, before)
    ensures BillableRows(after.ledger, after.documents, key, place, before) == BillableRows(db.ledger, db.documents, key, place, before)
  {
    StepKeeps(db, op, after);
    if after != db {
      match op {
        case Confirm(receipt, now) => ConfirmKeeps(db, receipt, now); GrownRowsStay(db, after, key, place, before);
        case Adjust(id, lines, occurred, now) => AdjustmentKeeps(db, id, lines, occurred, now); GrownRowsStay(db, after, key, place, before);
        case TakeCount(id, lines, now) => CycleCountKeeps(db, id, lines, now); GrownRowsStay(db, after, key, place, before);
        case ReserveStock(b, quantity, pallets) =>
        case PostMovement(e, now) => PostingKeeps(db, e, now); GrownRowsStay(db, after, key, place, before);
        case Cancel(id, now) =>
          BatchIsThawed(db, {Source(Inbound, id)});
          ErasedRowsStay(db, after, {Source(Inbound, id)}, key, place, before);
        case CancelBatch(ids, now) =>
          BatchIsThawed(db, ReceiptsOf(ids));
          ErasedRowsStay(db, after, ReceiptsOf(ids), key, place, before);
        case CancelWithDependencies(id, links, selected, now) =>
          CoverageIsThawed(db, Coverage(db, Source(Inbound, id), links));
          ErasedRowsStay(db, after, Coverage(db, Source(Inbound, id), links), key, place, before);
        case ReplaceInvoices(invoices) =>
      }
    }
  }

  /** What the lifecycle query of a container reads in the i-th state. */
  ghost function RowsIn(states: seq<Db>, key: ContainerKey, place: Option<int>, before: int, i: nat): seq<Row>
    requires i < |states|
  {
    BillableRows(states[i].ledger, states[i].documents, key, place, before)
  }

  ghost predicate RowsStay(states: seq<Db>, key: ContainerKey, place: Option<int>, before: int, i: nat) {
    i + 1 < |states| && RowsIn(states, key, place, before, i + 1) == RowsIn(states, key, place, before, i)
  }

  lemma NextRowsStay(states: seq<Db>, ops: seq<Op>, key: ContainerKey, place: Option<int>, before: int, i: nat)
    requires IsRun(states, ops) && Inv(states[0]) && i + 1 < |states| && Covers(states[i], key, place, before)
    ensures RowsStay(states, key, place, before, i)
  {
    EveryStateIsSound(states, ops, i);
    StepIsInvisible(states[i], ops[i], states[i + 1], key, place, before);
  }

  lemma {:induction false} AllRowsStay(states: seq<Db>, key: ContainerKey, place: Option<int>, before: int, i: nat)
    requires i < |states| && forall k: nat :: k < i ==> RowsStay(states, key, place, before, k)
    ensures RowsIn(states, key, place, before, i) == RowsIn(states, key, place, before, 0)
  {
    if i > 0 {
      AllRowsStay(states, key, place, before, i - 1);
      assert RowsStay(states, key, place, before, i - 1);
    }
  }

  /**
    As long as a live invoice covers the days, in every later state the lifecycle query reads the
    very same rows: of every container at the invoice's warehouse, or at any place when the invoice
    is for all warehouses or has the container on a line.
   */
  lemma HistoryIsStable(states: seq<Db>, ops: seq<Op>, key: ContainerKey, place: Option<int>, before: int, i: nat)
    requires IsRun(states, ops) && Inv(states[0]) && i < |states|
    requires forall k :: 0 <= k < i ==> Covers(states[k], key, place, before)
    ensures RowsIn(states, key, place, before, i) == RowsIn(states, key, place, before, 0)
  {
    forall k: nat | k < i
      ensures RowsStay(states, key, place, before, k)
    {
      NextRowsStay(states, ops, key, place, before, k);
    }
    AllRowsStay(states, key, place, before, i);
  }

  // ----- what billing never reads

  /** A correction, a count or a transfer that names no date is stored without one; the freeze looks at today. */
  lemma UndatedIsGuardedToday(e: Entry, now: int)
    requires e.event == EventType.Adjust || e.event == EventType.Count || e.event == TransferOut || e.event == TransferIn
    requires e.occurred.None? && e.delivery.None? && e.out.None?
    ensures StoredDay(e).None? && GuardDay(e, now) == now
  {
  }

  /** A row that is stored without a day moves the balance, and no lifecycle query of any period ever sees it. */
  lemma UndatedIsInvisible(db: Db, e: Entry, now: int, key: ContainerKey, place: Option<int>, before: int)
    requires Valid(db) && Append(db, e, now).Ok? && StoredDay(e).None?
    ensures var after := Append(db, e, now).value;
            && BillableRows(after.ledger, after.documents, key, place, before) == BillableRows(db.ledger, db.documents, key, place, before)
            && (forall m: Measure :: Total(m, after.ledger, e.bucket)
                                  == Total(m, db.ledger, e.bucket) + if m.Quantity? then e.quantity else e.pallets)
  {
    var after := Append(db, e, now).value;
    AppendEffect(db, e, now);
    InvisibleSuffix(db.ledger, after.ledger, db.documents, key, place, before, |after.ledger|);
    assert after.ledger[..|after.ledger|] == after.ledger;
    forall m: Measure {
      TotalAppend(m, db.ledger, RowFor(db, e, now), e.bucket);
    }
  }

  // ----- and so the storage charge is stable

  /** The lifecycle events are read off the rows one by one, with whatever else a row carries. */
  function EventsOf(rows: seq<Row>, read: Row -> Events.Event): seq<Events.Event> {
    if rows == [] then [] else EventsOf(rows[..|rows| - 1], read) + [read(rows[|rows| - 1])]
  }

  /** The container's row as the state tells it, or none when there is nothing to tell. */
  ghost predicate Charges(row: Option<Billing.StorageRow>, db: Db, read: Row -> Events.Event, key: ContainerKey,
                          terms: Billing.StorageTerms, period: PalletRelease.Period)
    requires period.start <= period.endExclusive
  {
    Billing.IsRow(row, EventsOf(BillableRows(db.ledger, db.documents, key, None, period.endExclusive), read), terms, period)
  }

  /** Charging the container again in any later state gives the very same row, or again none. */
  lemma ChargeIsStable(states: seq<Db>, ops: seq<Op>, i: nat, key: ContainerKey, read: Row -> Events.Event,
                       first: Option<Billing.StorageRow>, later: Option<Billing.StorageRow>,
                       terms: Billing.StorageTerms, period: PalletRelease.Period)
    requires IsRun(states, ops) && Inv(states[0]) && i < |states| && period.start <= period.endExclusive
    requires forall k :: 0 <= k < i ==> Covers(states[k], key, None, period.endExclusive)
    requires Charges(first, states[0], read, key, terms, period)
    requires Charges(later, states[i], read, key, terms, period)
    ensures later == first
  {
    HistoryIsStable(states, ops, key, None, period.endExclusive, i);
    Billing.RowIsDetermined(first, later, EventsOf(BillableRows(states[0].ledger, states[0].documents, key, None, period.endExclusive), read),
                            terms, period);
  }
}
