/**
  Whole runs of the operations that touch stock: what holds in every state that a run can reach,
  and what billing can still see of a period that a live invoice covers.
 */
module StockRuns {
  import opened Wrappers
  import opened SourceFreeze
  import opened StockLedger
  import opened Folds
  import opened StockOperations
  import opened DeletionRollback
  import opened DeletionErase
  import opened InboundDeletion
  import opened ReceiptDeletion
  import opened BatchDeletion

  datatype Op =
    | Confirm(receipt: Receipt, now: int)
    | Adjust(id: int, adjustments: seq<AdjustLine>, occurred: Option<int>, now: int)
    | TakeCount(id: int, counts: seq<CountLine>, now: int)
    | ReserveStock(bucket: Bucket, quantity: int, pallets: int)
    | PostMovement(entry: Entry, now: int)
    | Cancel(id: int, now: int)
    | CancelBatch(ids: seq<int>, now: int)
    | CancelWithDependencies(id: int, links: map<int, set<int>>, selected: seq<Selection>, now: int)
    | ReplaceInvoices(invoices: seq<Invoice>)

  /** A movement is a shipment, dated by its ship day, one side of a transfer, or an opening balance. */
  predicate IsMovement(e: Entry) {
    match e.source.kind
    case Outbound => e.event == Ship && e.occurred.None? && e.delivery.None?
    case Transfer => e.event == TransferOut || e.event == TransferIn
    case Opening => e.event == Receive
    case _ => false
  }

  function Posting(db: Db, e: Entry, now: int): Result<Db> {
    if !IsMovement(e) then Err(InvalidInput)
    else
      match Post(db, e, now)
      case Err(error) => Err(error)
      case Ok(after) => Ok(after.(documents := after.documents[e.source := ACTIVITY]))
  }

  predicate Follows(db: Db, outcome: Result<Db>, after: Db) {
    after == if outcome.Ok? then outcome.value else db
  }

  /** The operation either does what it promises or, exactly when it must refuse, changes nothing. */
  ghost predicate Step(db: Db, op: Op, after: Db) {
    match op
    case Confirm(receipt, now) => Follows(db, Confirmed(db, receipt, now), after)
    case Adjust(id, lines, occurred, now) => Follows(db, Adjusted(db, id, lines, occurred, now), after)
    case TakeCount(id, lines, now) => Follows(db, CycleCounted(db, id, lines, now), after)
    case ReserveStock(b, quantity, pallets) => Follows(db, Reserve(db, b, quantity, pallets), after)
    case PostMovement(e, now) => Follows(db, Posting(db, e, now), after)
    case Cancel(id, now) =>
      var own := Source(Inbound, id);
      if own in db.documents && db.documents[own].standing != Withdrawn && Removable(db, own, now)
      then AsIfNever(db, after, {own}) else after == db
    case CancelBatch(ids, now) =>
      if BatchDeletable(db, ids, now) then AsIfNever(db, after, ReceiptsOf(ids)) else after == db
    case CancelWithDependencies(id, links, selected, now) =>
      var own := Source(Inbound, id);
      if Deletable(db, own, links, selected, now) then AsIfNever(db, after, Coverage(db, own, links)) else after == db
    case ReplaceInvoices(invoices) => after == db.(invoices := invoices)
  }

  // ----- every reachable state

  /** Shipments are in the ledger only while they are confirmed. */
  ghost predicate ShipmentsPosted(ledger: seq<Row>, documents: map<Source, Document>) {
    forall i :: 0 <= i < |ledger| && ledger[i].source.kind == Outbound ==>
      ledger[i].source in documents && documents[ledger[i].source].standing == Posted
  }

  ghost predicate Inv(db: Db) {
    && Valid(db) && NoReversals(db.ledger)
    && ReceiptRowsSound(db.ledger, db.documents) && ShipmentsPosted(db.ledger, db.documents)
  }

  /** New rows at the end that all satisfy p, under the same invoices. */
  ghost predicate Grew(db: Db, after: Db, p: Row -> bool) {
    && after.invoices == db.invoices && after.documents == db.documents
    && |db.ledger| <= |after.ledger| && after.ledger[..|db.ledger|] == db.ledger
    && forall j :: |db.ledger| <= j < |after.ledger| ==> p(after.ledger[j])
  }

  lemma GrewTwice(db: Db, mid: Db, after: Db, p: Row -> bool)
    requires Grew(db, mid, p) && Grew(mid, after, p)
    ensures Grew(db, after, p)
  {
    assert after.ledger[..|db.ledger|] == mid.ledger[..|db.ledger|];
    forall j | |db.ledger| <= j < |after.ledger|
      ensures p(after.ledger[j])
    {
      assert j < |mid.ledger| ==> after.ledger[j] == mid.ledger[j];
    }
  }

  /** A row that billing can see is dated after every invoice that guards its place or its container. */
  predicate RowThawed(invoices: seq<Invoice>, r: Row) {
    (r.quantity != 0 || r.pallets != 0) && r.day.Some? ==>
      forall i :: 0 <= i < |invoices| && Guards(invoices[i], r.bucket.customer, r.bucket.location, r.bucket.container) ==>
        invoices[i].periodEnd < r.day.value
  }

  lemma ThawedUnlessBlocked(db: Db, b: Bucket, day: int)
    requires 0 < b.location && !Frozen(db.invoices, MutationOf(db, b, day))
    ensures forall i :: 0 <= i < |db.invoices| && Guards(db.invoices[i], b.customer, b.location, b.container) ==>
              db.invoices[i].periodEnd < day
  {
    forall i | 0 <= i < |db.invoices| && Guards(db.invoices[i], b.customer, b.location, b.container)
      ensures db.invoices[i].periodEnd < day
    {
      GuardsBlocksPast(db.invoices[i], MutationOf(db, b, day), b.location);
    }
  }

  lemma AppendGrows(db: Db, e: Entry, now: int, p: Row -> bool)
    requires Append(db, e, now).Ok? && WellDated(e) && ById(db.ledger, db.nextId)
    requires RowThawed(db.invoices, RowFor(db, e, now)) ==> p(RowFor(db, e, now))
    ensures Grew(db, Append(db, e, now).value, p)
  {
    AppendEffect(db, e, now);
    StoredOffGuard(e, now);
    if Moves(e) {
      ThawedUnlessBlocked(db, e.bucket, GuardDay(e, now));
    }
    assert (db.ledger + [RowFor(db, e, now)])[..|db.ledger|] == db.ledger;
  }

  // ----- adjustments and counts

  function ThawedRowOf(invoices: seq<Invoice>, s: Source): Row -> bool {
    (r: Row) => r.source == s && RowThawed(invoices, r)
  }

  lemma AdjustGrows(db: Db, id: int, lines: seq<AdjustLine>, n: nat, occurred: Option<int>, now: int)
    requires n <= |lines| && Valid(db)
    ensures var outcome := Fold(AdjustStep(id, occurred, now), db, lines, n);
            outcome.Ok? ==>
              Valid(outcome.value) && Grew(db, outcome.value, ThawedRowOf(db.invoices, Source(Adjustment, id)))
  {
    var p := ThawedRowOf(db.invoices, Source(Adjustment, id));
    var step, inv := AdjustStep(id, occurred, now), (k: nat, s: Db) => Valid(s) && Grew(db, s, p);
    forall k: nat, s: Db | k < |lines| && inv(k, s) && step(s, lines[k]).Ok?
      ensures inv(k + 1, step(s, lines[k]).value)
    {
      AdjustStepIs(s, id, lines[k], occurred, now);
      AdjustOneGrows(s, id, lines[k], occurred, now, p);
      GrewTwice(db, s, AdjustOne(s, id, lines[k], occurred, now).value, p);
    }
    GrewNothing(db, p);
    FoldKeeps(step, db, lines, n, inv);
  }

  lemma GrewNothing(db: Db, p: Row -> bool)
    ensures Grew(db, db, p)
  {
    assert db.ledger[..|db.ledger|] == db.ledger;
  }

  lemma AdjustOneGrows(db: Db, id: int, line: AdjustLine, occurred: Option<int>, now: int, p: Row -> bool)
    requires Valid(db) && AdjustOne(db, id, line, occurred, now).Ok?
    requires p == ThawedRowOf(db.invoices, Source(Adjustment, id))
    ensures Grew(db, AdjustOne(db, id, line, occurred, now).value, p)
    ensures Valid(AdjustOne(db, id, line, occurred, now).value)
  {
    AdjustOneKeeps(db, id, line, occurred, now);
    var (quantity, pallets) := line.Deltas(db.items[line.bucket]);
    var e := AdjustmentEntry(id, line.bucket, quantity, pallets, occurred);
    if quantity != 0 || pallets != 0 {
      AppendGrows(db, e, now, p);
    }
  }

  lemma CountGrows(db: Db, id: int, lines: seq<CountLine>, n: nat, now: int)
    requires n <= |lines| && Valid(db)
    ensures var outcome := Fold(CountStep(id, now), db, lines, n);
            outcome.Ok? ==>
              Valid(outcome.value) && Grew(db, outcome.value, ThawedRowOf(db.invoices, Source(CycleCount, id)))
  {
    var p := ThawedRowOf(db.invoices, Source(CycleCount, id));
    var step, inv := CountStep(id, now), (k: nat, s: Db) => Valid(s) && Grew(db, s, p);
    forall k: nat, s: Db | k < |lines| && inv(k, s) && step(s, lines[k]).Ok?
      ensures inv(k + 1, step(s, lines[k]).value)
    {
      CountStepIs(s, id, lines[k], now);
      CountOneGrows(s, id, lines[k], now, p);
      GrewTwice(db, s, CountOne(s, id, lines[k], now).value, p);
    }
    GrewNothing(db, p);
    FoldKeeps(step, db, lines, n, inv);
  }

  lemma CountOneGrows(db: Db, id: int, line: CountLine, now: int, p: Row -> bool)
    requires Valid(db) && CountOne(db, id, line, now).Ok? && p == ThawedRowOf(db.invoices, Source(CycleCount, id))
    ensures Grew(db, CountOne(db, id, line, now).value, p)
    ensures Valid(CountOne(db, id, line, now).value)
  {
    CountOneKeeps(db, id, line, now);
    var item := db.items[line.bucket];
    if line.quantity != item.quantity || line.pallets != item.pallets {
      AppendGrows(db, CountEntry(id, line, item, now), now, p);
    }
  }

  // ----- receipts

  function ThawedReceiptRow(invoices: seq<Invoice>, receipt: Receipt, now: int): Row -> bool {
    (r: Row) => && r.source == receipt.Own() && r.event == Receive && InContainer(r.bucket, receipt.Key())
         && r.bucket.location == receipt.location && r.day == Some(receipt.Day(now)) && RowThawed(invoices, r)
  }

  lemma ReceiveOneGrows(db: Db, receipt: Receipt, line: ReceiptLine, now: int, p: Row -> bool)
    requires Valid(db) && 0 <= line.quantity && 0 <= line.pallets && 0 < line.sku && ReceiveOne(db, receipt, line, now).Ok?
    requires p == ThawedReceiptRow(db.invoices, receipt, now)
    ensures Grew(db, ReceiveOne(db, receipt, line, now).value, p)
  {
    var withBucket := OpenBucket(db, receipt.BucketOf(line));
    EmptyBucketKeeps(db, receipt.BucketOf(line));
    AppendGrows(withBucket, receipt.EntryOf(line, now), now, p);
  }

  lemma ReceiveGrows(db: Db, receipt: Receipt, n: nat, now: int)
    requires n <= |receipt.lines| && receipt.CanConfirm() && Valid(db)
    ensures var outcome := Fold(ReceiveStep(receipt, now), db, receipt.lines, n);
            outcome.Ok? ==> Valid(outcome.value) && Grew(db, outcome.value, ThawedReceiptRow(db.invoices, receipt, now))
  {
    var p := ThawedReceiptRow(db.invoices, receipt, now);
    var step, inv := ReceiveStep(receipt, now), (k: nat, s: Db) => Valid(s) && Grew(db, s, p);
    forall k: nat, s: Db | k < |receipt.lines| && inv(k, s) && step(s, receipt.lines[k]).Ok?
      ensures inv(k + 1, step(s, receipt.lines[k]).value)
    {
      ReceiveStepIs(s, receipt, receipt.lines[k], now);
      ReceiveOneKeeps(s, receipt, receipt.lines[k], now);
      ReceiveOneGrows(s, receipt, receipt.lines[k], now, p);
      GrewTwice(db, s, ReceiveOne(s, receipt, receipt.lines[k], now).value, p);
    }
    GrewNothing(db, p);
    FoldKeeps(step, db, receipt.lines, n, inv);
  }

  // ----- what each kind of step keeps

  lemma GrowthKeeps(db: Db, after: Db, p: Row -> bool, s: Source, document: Document)
    requires Inv(db) && Grew(db, after, p) && Valid(after)
    requires forall r :: p(r) ==> r.source == s
    requires s.kind != CascadeDelete && document.standing == Posted
    requires s.kind == Inbound ==>
               && (s in db.documents ==> db.documents[s].standing != Posted)
               && (forall r :: p(r) ==> ReceiptRow(r, map[s := document]))
    ensures Inv(after.(documents := after.documents[s := document]))
  {
    var documents := after.documents[s := document];
    DocumentsDoNotMatter(after, documents);
    forall j | 0 <= j < |after.ledger|
      ensures after.ledger[j].source.kind != CascadeDelete
      ensures after.ledger[j].source.kind == Inbound ==> ReceiptRow(after.ledger[j], documents)
      ensures after.ledger[j].source.kind == Outbound ==>
                after.ledger[j].source in documents && documents[after.ledger[j].source].standing == Posted
    {
      if j < |db.ledger| {
        assert after.ledger[j] == db.ledger[j];
        assert db.ledger[j].source.kind == Inbound ==> ReceiptRow(db.ledger[j], db.documents);
      } else {
        assert p(after.ledger[j]);
      }
    }
  }

  lemma ErasureKeeps(db: Db, after: Db, sources: set<Source>)
    requires Inv(db) && AsIfNever(db, after, sources)
    ensures Inv(after)
  {
    ReceiptRowsSurvive(db, after, sources);
    forall i | 0 <= i < |after.ledger| && after.ledger[i].source.kind == Outbound
      ensures after.ledger[i].source in after.documents && after.documents[after.ledger[i].source].standing == Posted
    {
      assert after.ledger[i] in after.ledger;
      WithoutMembers(db.ledger, sources, after.ledger[i]);
    }
  }

  lemma ConfirmGrows(db: Db, receipt: Receipt, now: int)
    requires Inv(db) && Confirmed(db, receipt, now).Ok?
    ensures var received := Fold(ReceiveStep(receipt, now), LinkContainer(db, receipt), receipt.lines, |receipt.lines|);
            && received.Ok? && Valid(received.value)
            && Confirmed(db, receipt, now).value
               == received.value.(documents := received.value.documents[receipt.Own() := receipt.Filed(now)])
            && Grew(db, received.value, ThawedReceiptRow(db.invoices, receipt, now))
  {
    var linked, n := LinkContainer(db, receipt), |receipt.lines|;
    LinkKeeps(db, receipt);
    ReceiveGrows(linked, receipt, n, now);
    assert linked.ledger == db.ledger && linked.invoices == db.invoices && linked.documents == db.documents;
  }

  lemma ConfirmKeeps(db: Db, receipt: Receipt, now: int)
    requires Inv(db) && Confirmed(db, receipt, now).Ok?
    ensures Inv(Confirmed(db, receipt, now).value)
    ensures VisiblyGrew(db, Confirmed(db, receipt, now).value)
  {
    var received := Fold(ReceiveStep(receipt, now), LinkContainer(db, receipt), receipt.lines, |receipt.lines|).value;
    ConfirmGrows(db, receipt, now);
    GrowthKeeps(db, received, ThawedReceiptRow(db.invoices, receipt, now), receipt.Own(), receipt.Filed(now));
  }

  lemma AdjustmentKeeps(db: Db, id: int, lines: seq<AdjustLine>, occurred: Option<int>, now: int)
    requires Inv(db) && Adjusted(db, id, lines, occurred, now).Ok?
    ensures Inv(Adjusted(db, id, lines, occurred, now).value)
    ensures VisiblyGrew(db, Adjusted(db, id, lines, occurred, now).value)
  {
    var kept := KeptLines(lines);
    AdjustGrows(db, id, kept, |kept|, occurred, now);
    GrowthKeeps(db, Fold(AdjustStep(id, occurred, now), db, kept, |kept|).value,
                ThawedRowOf(db.invoices, Source(Adjustment, id)), Source(Adjustment, id), ACTIVITY);
  }

  lemma CycleCountKeeps(db: Db, id: int, lines: seq<CountLine>, now: int)
    requires Inv(db) && CycleCounted(db, id, lines, now).Ok?
    ensures Inv(CycleCounted(db, id, lines, now).value)
    ensures VisiblyGrew(db, CycleCounted(db, id, lines, now).value)
  {
    var kept := DistinctLines(lines);
    CountGrows(db, id, kept, |kept|, now);
    GrowthKeeps(db, Fold(CountStep(id, now), db, kept, |kept|).value,
                ThawedRowOf(db.invoices, Source(CycleCount, id)), Source(CycleCount, id), ACTIVITY);
  }

  lemma PostingKeeps(db: Db, e: Entry, now: int)
    requires Inv(db) && Posting(db, e, now).Ok?
    ensures Inv(Posting(db, e, now).value)
    ensures VisiblyGrew(db, Posting(db, e, now).value)
  {
    PostKeeps(db, e, now);
    var p := ThawedRowOf(db.invoices, e.source);
    AppendGrows(db, e, now, p);
    GrowthKeeps(db, Post(db, e, now).value, p, e.source, ACTIVITY);
  }

  lemma ReservingKeeps(db: Db, b: Bucket, quantity: int, pallets: int)
    requires Inv(db) && Reserve(db, b, quantity, pallets).Ok?
    ensures Inv(Reserve(db, b, quantity, pallets).value)
    ensures VisiblyGrew(db, Reserve(db, b, quantity, pallets).value)
  {
    ReserveKeeps(db, b, quantity, pallets);
    assert db.ledger[..|db.ledger|] == db.ledger;
  }

  lemma InvoicesDoNotMatter(db: Db, invoices: seq<Invoice>)
    requires Inv(db)
    ensures Inv(db.(invoices := invoices))
  {
    var after := db.(invoices := invoices);
    forall key | key in after.containers
      ensures key.container != "" && IsProjected(after, key)
    {
      assert IsProjected(db, key);
    }
  }

  /** New rows at the end, each thawed; every old row keeps its document. */
  ghost predicate VisiblyGrew(db: Db, after: Db) {
    && after.invoices == db.invoices
    && |db.ledger| <= |after.ledger| && after.ledger[..|db.ledger|] == db.ledger
    && forall j :: |db.ledger| <= j < |after.ledger| ==> RowThawed(db.invoices, after.ledger[j])
  }
}
