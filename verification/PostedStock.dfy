/**
  What receipts, adjustments and counts put into the ledger and into stock, line by line and field
  by field.
 */
module PostedStock {
  import opened Wrappers
  import opened SourceFreeze
  import opened StockLedger
  import opened StockOperations
  import opened Folds
  import opened StockRuns

  function LineChange(m: Measure, line: ReceiptLine): int {
    if m.Quantity? then line.quantity else line.pallets
  }

  /** What the first n lines of a receipt bring of one SKU into one section. */
  function Brought(m: Measure, lines: seq<ReceiptLine>, n: nat, sku: int, section: string): int
    requires n <= |lines|
  {
    if n == 0 then 0
    else
      Brought(m, lines, n - 1, sku, section)
      + if lines[n - 1].sku == sku && lines[n - 1].section == section then LineChange(m, lines[n - 1]) else 0
  }

  /** The bucket is at the receipt's place and in its container. */
  predicate IsAt(b: Bucket, receipt: Receipt) {
    b.customer == receipt.customer && b.location == receipt.location && b.container == receipt.container
  }

  /** The row of one received line: its goods, at the receipt's place, on its arrival day or else today. */
  predicate Tells(r: Row, receipt: Receipt, line: ReceiptLine, now: int) {
    && r.event == Receive && r.source.kind == Inbound && r.source.id == receipt.id
    && IsAt(r.bucket, receipt) && r.bucket.sku == line.sku && r.bucket.section == line.section
    && r.quantity == line.quantity && r.pallets == line.pallets
    && r.day == (if receipt.arrival.Some? then receipt.arrival else Some(now)) && r.created == now
  }

  lemma OpeningHoldsNothing(db: Db, b: Bucket)
    ensures forall m: Measure, c: Bucket :: Balance(m, OpenBucket(db, b).items, c) == Balance(m, db.items, c)
  {
  }

  /** Rows and balances after one received line. */
  ghost predicate OneReceived(db: Db, after: Db, receipt: Receipt, line: ReceiptLine, now: int) {
    && |after.ledger| == |db.ledger| + 1 && after.ledger[..|db.ledger|] == db.ledger
    && Tells(after.ledger[|db.ledger|], receipt, line, now)
    && forall m: Measure, b: Bucket ::
         Balance(m, after.items, b)
         == Balance(m, db.items, b)
            + if IsAt(b, receipt) && b.sku == line.sku && b.section == line.section then LineChange(m, line) else 0
  }

  lemma ReceivedRow(db: Db, receipt: Receipt, line: ReceiptLine, now: int)
    requires Valid(db) && 0 < line.sku && ReceiveOne(db, receipt, line, now).Ok?
    ensures var after := ReceiveOne(db, receipt, line, now).value;
            |after.ledger| == |db.ledger| + 1 && after.ledger[..|db.ledger|] == db.ledger
            && Tells(after.ledger[|db.ledger|], receipt, line, now)
  {
    AppendEffect(OpenBucket(db, receipt.BucketOf(line)), receipt.EntryOf(line, now), now);
  }

  lemma ReceivedMoves(db: Db, receipt: Receipt, line: ReceiptLine, now: int, m: Measure, b: Bucket)
    requires Valid(db) && 0 < line.sku && 0 <= line.pallets && ReceiveOne(db, receipt, line, now).Ok?
    ensures Balance(m, ReceiveOne(db, receipt, line, now).value.items, b)
         == Balance(m, db.items, b)
            + if IsAt(b, receipt) && b.sku == line.sku && b.section == line.section then LineChange(m, line) else 0
  {
    var bucket, e := receipt.BucketOf(line), receipt.EntryOf(line, now);
    var start := OpenBucket(db, bucket);
    OpeningHoldsNothing(db, bucket);
    AppendEffect(start, e, now);
    ReceivingDoesNotClamp(db, bucket, e);
    DeltaEffect(start.items, e, m, b);
  }

  lemma ReceiveOneExactly(db: Db, receipt: Receipt, line: ReceiptLine, now: int)
    requires Valid(db) && 0 < line.sku && 0 <= line.pallets && ReceiveOne(db, receipt, line, now).Ok?
    ensures OneReceived(db, ReceiveOne(db, receipt, line, now).value, receipt, line, now)
    ensures Valid(ReceiveOne(db, receipt, line, now).value)
  {
    ReceiveOneKeeps(db, receipt, line, now);
    ReceivedRow(db, receipt, line, now);
    forall m: Measure, b: Bucket {
      ReceivedMoves(db, receipt, line, now, m, b);
    }
  }

  /** Rows and balances after the first n lines. */
  ghost predicate ReceivedTo(db: Db, after: Db, receipt: Receipt, n: nat, now: int)
    requires n <= |receipt.lines|
  {
    && |after.ledger| == |db.ledger| + n && after.ledger[..|db.ledger|] == db.ledger
    && (forall i :: 0 <= i < n ==> Tells(after.ledger[|db.ledger| + i], receipt, receipt.lines[i], now))
    && forall m: Measure, b: Bucket ::
         Balance(m, after.items, b)
         == Balance(m, db.items, b)
            + if IsAt(b, receipt) then Brought(m, receipt.lines, n, b.sku, b.section) else 0
  }

  lemma ReceiveNext(db: Db, mid: Db, after: Db, receipt: Receipt, n: nat, now: int)
    requires n < |receipt.lines| && ReceivedTo(db, mid, receipt, n, now)
    requires OneReceived(mid, after, receipt, receipt.lines[n], now)
    ensures ReceivedTo(db, after, receipt, n + 1, now)
  {
    assert after.ledger[..|db.ledger|] == mid.ledger[..|db.ledger|];
    forall i | 0 <= i < n + 1
      ensures Tells(after.ledger[|db.ledger| + i], receipt, receipt.lines[i], now)
    {
      assert i < n ==> after.ledger[|db.ledger| + i] == mid.ledger[|db.ledger| + i];
    }
  }

  /** The first n lines are in, and the tables are sound. */
  ghost predicate Reached(db: Db, after: Db, receipt: Receipt, n: nat, now: int) {
    n <= |receipt.lines| && Valid(after) && ReceivedTo(db, after, receipt, n, now)
  }

  lemma NothingReceived(db: Db, receipt: Receipt, now: int)
    requires Valid(db)
    ensures Reached(db, db, receipt, 0, now)
  {
  }

  lemma ReceiveStepTells(db: Db, mid: Db, receipt: Receipt, n: nat, now: int)
    requires receipt.CanConfirm() && n < |receipt.lines| && Reached(db, mid, receipt, n, now)
    requires ReceiveStep(receipt, now)(mid, receipt.lines[n]).Ok?
    ensures Reached(db, ReceiveStep(receipt, now)(mid, receipt.lines[n]).value, receipt, n + 1, now)
  {
    ReceiveStepIs(mid, receipt, receipt.lines[n], now);
    var after := ReceiveOne(mid, receipt, receipt.lines[n], now).value;
    ReceiveOneExactly(mid, receipt, receipt.lines[n], now);
    ReceiveNext(db, mid, after, receipt, n, now);
  }

  lemma StepKeepsReached(db: Db, mid: Db, receipt: Receipt, n: nat, now: int, inv: (nat, Db) -> bool)
    requires receipt.CanConfirm() && n < |receipt.lines| && inv(n, mid) && ReceiveStep(receipt, now)(mid, receipt.lines[n]).Ok?
    requires forall k: nat, s: Db :: inv(k, s) <==> Reached(db, s, receipt, k, now)
    ensures inv(n + 1, ReceiveStep(receipt, now)(mid, receipt.lines[n]).value)
  {
    ReceiveStepTells(db, mid, receipt, n, now);
  }

  lemma LinesReceived(db: Db, receipt: Receipt, now: int)
    requires Reached(db, db, receipt, 0, now) && receipt.CanConfirm()
    ensures var outcome := Fold(ReceiveStep(receipt, now), db, receipt.lines, |receipt.lines|);
            outcome.Ok? ==> Reached(db, outcome.value, receipt, |receipt.lines|, now)
  {
    var step, inv := ReceiveStep(receipt, now), (k: nat, s: Db) => Reached(db, s, receipt, k, now);
    forall k: nat, s: Db | k < |receipt.lines| && inv(k, s) && step(s, receipt.lines[k]).Ok?
      ensures inv(k + 1, step(s, receipt.lines[k]).value)
    {
      StepKeepsReached(db, s, receipt, k, now, inv);
    }
    FoldKeeps(step, db, receipt.lines, |receipt.lines|, inv);
  }

  /** The arrival as the freeze sees it, line by line: goods without a container have no known type. */
  function Arriving(receipt: Receipt, now: int): Mutation {
    Mutation(receipt.customer, receipt.Day(now), {receipt.location}, receipt.container,
             if receipt.container == "" then "" else receipt.containerType)
  }

  predicate IsTyped(db: Db, receipt: Receipt) {
    receipt.container != "" ==> receipt.Key() in db.containers && db.containers[receipt.Key()].containerType == receipt.containerType
  }

  /** A line with goods can be received wherever there is a place and its day is not frozen. */
  predicate MayArrive(invoices: seq<Invoice>, receipt: Receipt, line: ReceiptLine, now: int) {
    && 0 < receipt.customer && 0 < receipt.location
    && (line.quantity != 0 || line.pallets != 0 ==> !Frozen(invoices, Arriving(receipt, now)))
  }

  lemma ReceiveOneExactlyWhen(db: Db, receipt: Receipt, line: ReceiptLine, now: int)
    requires Valid(db) && IsTyped(db, receipt) && 0 <= line.quantity && 0 <= line.pallets && 0 < line.sku
    ensures ReceiveOne(db, receipt, line, now).Ok? <==> MayArrive(db.invoices, receipt, line, now)
  {
    var b, e := receipt.BucketOf(line), receipt.EntryOf(line, now);
    var start := OpenBucket(db, b);
    assert MutationOf(start, b, GuardDay(e, now)) == Arriving(receipt, now);
    EmptyBucketKeeps(db, b);
    DeltaExactlyWhen(start.items, e);
    assert b in db.items ==> db.items[b].Sound();
  }

  /** The tables are sound, freeze as they did, and know the type of the receipt's container. */
  ghost predicate Receives(db: Db, receipt: Receipt, invoices: seq<Invoice>) {
    Valid(db) && IsTyped(db, receipt) && db.invoices == invoices
  }

  lemma LineArrives(db: Db, receipt: Receipt, line: ReceiptLine, invoices: seq<Invoice>, now: int)
    requires Receives(db, receipt, invoices) && 0 <= line.quantity && 0 <= line.pallets && 0 < line.sku
    ensures var outcome := ReceiveStep(receipt, now)(db, line);
            && (outcome.Ok? <==> MayArrive(invoices, receipt, line, now))
            && (outcome.Ok? ==> Receives(outcome.value, receipt, invoices))
  {
    ReceiveStepIs(db, receipt, line, now);
    ReceiveOneExactlyWhen(db, receipt, line, now);
    if ReceiveOne(db, receipt, line, now).Ok? {
      ReceiveOneKeeps(db, receipt, line, now);
      EmptyBucketKeeps(db, receipt.BucketOf(line));
      AppendEffect(OpenBucket(db, receipt.BucketOf(line)), receipt.EntryOf(line, now), now);
    }
  }

  lemma LinesArrive(db: Db, receipt: Receipt, invoices: seq<Invoice>, now: int)
    requires Receives(db, receipt, invoices) && receipt.CanConfirm()
    ensures Fold(ReceiveStep(receipt, now), db, receipt.lines, |receipt.lines|).Ok?
        <==> forall i :: 0 <= i < |receipt.lines| ==> MayArrive(invoices, receipt, receipt.lines[i], now)
  {
    var step, inv := ReceiveStep(receipt, now), (s: Db) => Receives(s, receipt, invoices);
    var fine := (line: ReceiptLine) => MayArrive(invoices, receipt, line, now);
    forall k: nat, s: Db | k < |receipt.lines| && inv(s)
      ensures (step(s, receipt.lines[k]).Ok? <==> fine(receipt.lines[k]))
      ensures (step(s, receipt.lines[k]).Ok? ==> inv(step(s, receipt.lines[k]).value))
    {
      LineArrives(s, receipt, receipt.lines[k], invoices, now);
    }
    FoldSucceedsExactlyWhen(step, db, receipt.lines, |receipt.lines|, inv, fine);
  }

  /**
    A receipt is confirmed exactly when it was not confirmed before, its lines are proper, it names a
    customer and a place, and its arrival is not frozen: as that of its own type and, where goods come
    without a container, as that of any type.
   */
  lemma ConfirmedExactlyWhen(db: Db, receipt: Receipt, now: int)
    requires Valid(db)
    ensures Confirmed(db, receipt, now).Ok? <==>
              && (receipt.Own() in db.documents ==> db.documents[receipt.Own()].standing == Draft)
              && receipt.CanConfirm() && 0 < receipt.customer && 0 < receipt.location
              && !Frozen(db.invoices, Arriving(receipt, now).(containerType := receipt.containerType))
              && (receipt.container == "" && (exists i :: 0 <= i < |receipt.lines| && (receipt.lines[i].quantity > 0 || receipt.lines[i].pallets > 0)) ==>
                    !Frozen(db.invoices, Arriving(receipt, now)))
  {
    var linked := LinkContainer(db, receipt);
    LinkKeeps(db, receipt);
    if receipt.CanConfirm() {
      LinesArrive(linked, receipt, db.invoices, now);
      assert MayArrive(db.invoices, receipt, receipt.lines[0], now) ==> 0 < receipt.customer && 0 < receipt.location;
    }
  }

  /** What moves the balances moves the totals of the ledger. */
  lemma TotalsFollow(db: Db, after: Db, m: Measure, b: Bucket)
    requires Agrees(db) && Agrees(after) && 0 < b.sku
    ensures Total(m, after.ledger, b) - Total(m, db.ledger, b) == Balance(m, after.items, b) - Balance(m, db.items, b)
  {
    assert Balance(m, db.items, b) == Total(m, db.ledger, b) && Balance(m, after.items, b) == Total(m, after.ledger, b);
  }

  lemma SameTables(db: Db, db': Db, after: Db, after': Db, receipt: Receipt, now: int)
    requires ReceivedTo(db, after, receipt, |receipt.lines|, now)
    requires db.ledger == db'.ledger && db.items == db'.items && after.ledger == after'.ledger && after.items == after'.items
    ensures ReceivedTo(db', after', receipt, |receipt.lines|, now)
  {
  }

  /**
    Confirming a receipt adds one row a line with just what the line says, and moves every balance
    by what its lines bring of that SKU into that section of the receipt's place and container:
    pieces and pallets, and nothing anywhere else.
   */
  lemma ConfirmedExactly(db: Db, receipt: Receipt, now: int)
    requires Valid(db) && Confirmed(db, receipt, now).Ok?
    ensures ReceivedTo(db, Confirmed(db, receipt, now).value, receipt, |receipt.lines|, now)
    ensures Valid(Confirmed(db, receipt, now).value)
  {
    var linked := LinkContainer(db, receipt);
    LinkKeeps(db, receipt);
    NothingReceived(linked, receipt, now);
    LinesReceived(linked, receipt, now);
    var after := Fold(ReceiveStep(receipt, now), linked, receipt.lines, |receipt.lines|).value;
    DocumentsDoNotMatter(after, after.documents[receipt.Own() := receipt.Filed(now)]);
    SameTables(linked, db, after, Confirmed(db, receipt, now).value, receipt, now);
  }

  /** And so the ledger's own totals move by just as much. */
  lemma ConfirmedTotals(db: Db, receipt: Receipt, now: int, m: Measure, b: Bucket)
    requires Valid(db) && Confirmed(db, receipt, now).Ok? && 0 < b.sku
    ensures Total(m, Confirmed(db, receipt, now).value.ledger, b)
         == Total(m, db.ledger, b) + if IsAt(b, receipt) then Brought(m, receipt.lines, |receipt.lines|, b.sku, b.section) else 0
  {
    ConfirmedExactly(db, receipt, now);
    TotalsFollow(db, Confirmed(db, receipt, now).value, m, b);
  }

  // ----- adjustments and counts

  /** after is db with one bucket brought to these balances, by a row of this kind if that changes anything. */
  ghost predicate BroughtTo(db: Db, after: Db, b: Bucket, quantity: int, pallets: int, event: EventType, source: Source,
                            day: Option<int>, now: int) {
    && Balance(Quantity, after.items, b) == quantity && Balance(Pallets, after.items, b) == pallets
    && (forall m: Measure, c: Bucket :: c != b ==> Balance(m, after.items, c) == Balance(m, db.items, c))
    && if quantity == Balance(Quantity, db.items, b) && pallets == Balance(Pallets, db.items, b) then after == db
       else
         && after.ledger != [] && after.ledger[..|after.ledger| - 1] == db.ledger
         && var r := after.ledger[|after.ledger| - 1];
            && r.event == event && r.bucket == b && r.source == source && r.day == day && r.created == now
            && r.quantity == quantity - Balance(Quantity, db.items, b) && r.pallets == pallets - Balance(Pallets, db.items, b)
  }

  /** The bucket may hold so much: what is reserved stays covered, and the day is not frozen for a real place. */
  predicate MayHold(db: Db, b: Bucket, quantity: int, pallets: int, day: int)
    requires b in db.items
  {
    && db.items[b].allocatedQty + db.items[b].damagedQty + db.items[b].holdQty <= quantity
    && db.items[b].allocatedPallets <= pallets
    && 0 < b.customer && 0 < b.location && !Frozen(db.invoices, MutationOf(db, b, day))
  }

  predicate LeavesReserved(item: Item, quantity: int, pallets: int) {
    item.Reserved() <= item.quantity + quantity && item.allocatedPallets <= item.pallets + pallets
  }

  lemma BringingExactlyWhen(db: Db, e: Entry, now: int)
    requires Valid(db) && e.bucket in db.items && Moves(e)
    requires LeavesReserved(db.items[e.bucket], e.quantity, e.pallets)
    ensures var item := db.items[e.bucket];
            Append(db, e, now).Ok? <==> MayHold(db, e.bucket, item.quantity + e.quantity, item.pallets + e.pallets, GuardDay(e, now))
  {
  }

  lemma BringingTells(db: Db, e: Entry, now: int)
    requires Valid(db) && e.bucket in db.items && 0 < e.bucket.sku && Moves(e) && Append(db, e, now).Ok?
    requires 0 <= db.items[e.bucket].pallets + e.pallets
    ensures var item := db.items[e.bucket];
            BroughtTo(db, Append(db, e, now).value, e.bucket, item.quantity + e.quantity, item.pallets + e.pallets,
                      e.event, e.source, StoredDay(e), now)
  {
    AppendEffect(db, e, now);
    assert (db.ledger + [RowFor(db, e, now)])[..|db.ledger|] == db.ledger;
    forall m: Measure, b: Bucket {
      DeltaEffect(db.items, e, m, b);
    }
  }

  lemma BringingExactly(db: Db, e: Entry, now: int)
    requires Valid(db) && e.bucket in db.items && Moves(e)
    requires LeavesReserved(db.items[e.bucket], e.quantity, e.pallets)
    ensures var item := db.items[e.bucket];
            && (Append(db, e, now).Ok? <==> MayHold(db, e.bucket, item.quantity + e.quantity, item.pallets + e.pallets, GuardDay(e, now)))
            && (Append(db, e, now).Ok? ==>
                  BroughtTo(db, Append(db, e, now).value, e.bucket, item.quantity + e.quantity, item.pallets + e.pallets,
                            e.event, e.source, StoredDay(e), now))
  {
    BringingExactlyWhen(db, e, now);
    assert db.items[e.bucket].Sound();
    if Append(db, e, now).Ok? {
      BringingTells(db, e, now);
    }
  }

  /** The balance a line asks for: the final one it names, or what is there and its delta. */
  function Asked(line: AdjustLine, m: Measure, held: int): int {
    if line.finalQuantity.Some? && line.finalPallets.Some?
    then if m.Quantity? then line.finalQuantity.value else line.finalPallets.value
    else held + if m.Quantity? then line.quantity else line.pallets
  }

  /** An adjustment line is accepted exactly when its bucket may hold what it asks for, and then holds just that. */
  lemma AdjustOneExactly(db: Db, id: int, line: AdjustLine, occurred: Option<int>, now: int)
    requires Valid(db)
    ensures var b := line.bucket;
            var quantity, pallets := Asked(line, Quantity, Balance(Quantity, db.items, b)), Asked(line, Pallets, Balance(Pallets, db.items, b));
            && (AdjustOne(db, id, line, occurred, now).Ok? <==>
                  b in db.items
                  && ((quantity == db.items[b].quantity && pallets == db.items[b].pallets)
                      || MayHold(db, b, quantity, pallets, if occurred.Some? then occurred.value else now)))
            && (AdjustOne(db, id, line, occurred, now).Ok? ==>
                  BroughtTo(db, AdjustOne(db, id, line, occurred, now).value, b, quantity, pallets,
                            EventType.Adjust, Source(Adjustment, id), occurred, now))
  {
    if line.bucket in db.items {
      var item := db.items[line.bucket];
      var (quantity, pallets) := line.Deltas(item);
      if (quantity != 0 || pallets != 0) && LeavesReserved(item, quantity, pallets) {
        BringingExactly(db, AdjustmentEntry(id, line.bucket, quantity, pallets, occurred), now);
      }
    }
  }

  /** A counted bucket is accepted exactly when it may hold what was counted, and then holds just that. */
  lemma CountOneExactly(db: Db, id: int, line: CountLine, now: int)
    requires Valid(db)
    ensures var b := line.bucket;
            && (CountOne(db, id, line, now).Ok? <==>
                  b in db.items
                  && ((line.quantity == db.items[b].quantity && line.pallets == db.items[b].pallets)
                      || MayHold(db, b, line.quantity, line.pallets, now)))
            && (CountOne(db, id, line, now).Ok? ==>
                  BroughtTo(db, CountOne(db, id, line, now).value, b, line.quantity, line.pallets,
                            EventType.Count, Source(CycleCount, id), Some(now), now))
  {
    if line.bucket in db.items {
      var item := db.items[line.bucket];
      assert item.Sound();
      if (line.quantity != item.quantity || line.pallets != item.pallets)
         && LeavesReserved(item, line.quantity - item.quantity, line.pallets - item.pallets) {
        BringingExactly(db, CountEntry(id, line, item, now), now);
      }
    }
  }

  // ----- shipments, transfers and opening balances

  /** The row that a movement asks for, field by field. */
  predicate Records(r: Row, e: Entry, now: int) {
    && r.event == e.event && r.bucket == e.bucket && r.source == e.source && r.created == now
    && r.quantity == e.quantity && r.pallets == e.pallets
  }

  /** A shipment is dated by its ship day, a transfer or an opening balance by the day it names. */
  predicate DatedAs(r: Row, e: Entry) {
    if e.source.kind == Outbound then r.day == e.out
    else if e.source.kind == Transfer then r.day == e.occurred
    else r.day == if e.occurred.Some? then e.occurred else e.delivery
  }

  /** What the bucket holds, none of it if there is no such bucket yet, covers the change and what is reserved. */
  predicate Covered(items: map<Bucket, Item>, e: Entry) {
    if e.bucket in items then LeavesReserved(items[e.bucket], e.quantity, e.pallets) else 0 <= e.quantity && 0 <= e.pallets
  }

  lemma DeltaFits(items: map<Bucket, Item>, e: Entry)
    requires ItemsSound(items)
    ensures 0 < e.bucket.sku && (e.bucket in items ==> items[e.bucket].allocatedPallets <= items[e.bucket].pallets + e.pallets) ==>
              (ApplyDelta(items, e).Ok? <==> Covered(items, e))
  {
    if 0 < e.bucket.sku {
      DeltaExactlyWhen(items, e);
    }
  }

  lemma PostExactlyWhen(db: Db, e: Entry, now: int)
    requires Valid(db)
    ensures Post(db, e, now).Ok? <==>
              && 0 < e.bucket.sku && 0 < e.bucket.customer && 0 < e.bucket.location
              && Covered(db.items, e)
              && (e.quantity != 0 || e.pallets != 0 ==> !Frozen(db.invoices, MutationOf(db, e.bucket, GuardDay(e, now))))
  {
    DeltaFits(db.items, e);
  }

  /** A shipment that names no day but its ship day, one side of a transfer, or an opening balance. */
  predicate IsPosted(e: Entry) {
    || (e.event == Ship && e.source.kind == Outbound && e.occurred.None? && e.delivery.None?)
    || (e.event == TransferOut && e.source.kind == Transfer)
    || (e.event == TransferIn && e.source.kind == Transfer)
    || (e.event == Receive && e.source.kind == Opening)
  }

  /** A movement is posted exactly when it is one, names a known SKU and a real place, and leaves what is reserved. */
  lemma PostingExactlyWhen(db: Db, e: Entry, now: int)
    requires Valid(db)
    ensures Posting(db, e, now).Ok? <==>
              && IsPosted(e) && 0 < e.bucket.sku && 0 < e.bucket.customer && 0 < e.bucket.location
              && Covered(db.items, e)
              && (e.quantity != 0 || e.pallets != 0 ==> !Frozen(db.invoices, MutationOf(db, e.bucket, GuardDay(e, now))))
  {
    PostExactlyWhen(db, e, now);
  }

  /** A posted movement adds its row, with its own amounts and day, after those before it. */
  lemma PostingAddsRow(db: Db, e: Entry, now: int)
    requires Valid(db) && Posting(db, e, now).Ok?
    ensures var after := Posting(db, e, now).value;
            && after.ledger != [] && after.ledger[..|after.ledger| - 1] == db.ledger
            && Records(after.ledger[|after.ledger| - 1], e, now) && DatedAs(after.ledger[|after.ledger| - 1], e)
  {
    AppendEffect(db, e, now);
    assert (db.ledger + [RowFor(db, e, now)])[..|db.ledger|] == db.ledger;
  }

  /** It moves its own bucket by just what it says, and no other. */
  lemma PostingMoves(db: Db, e: Entry, now: int, m: Measure, b: Bucket)
    requires Valid(db) && Posting(db, e, now).Ok?
    ensures Balance(m, Posting(db, e, now).value.items, b)
         == Balance(m, db.items, b) + if b == e.bucket then if m.Quantity? then e.quantity else e.pallets else 0
  {
    assert e.bucket in db.items ==> db.items[e.bucket].Sound();
    DeltaEffect(db.items, e, m, b);
  }

  /** The freeze looks at the day a movement is dated with, and at today when it names none. */
  lemma GuardedAsDated(e: Entry, now: int)
    requires IsPosted(e)
    ensures GuardDay(e, now)
         == if e.source.kind == Outbound then (if e.out.Some? then e.out.value else now)
            else if e.occurred.Some? then e.occurred.value
            else if e.delivery.Some? then e.delivery.value
            else if e.out.Some? then e.out.value else now
  {
  }

  /** Reserving moves what is set aside, within what is there, and nothing else. */
  lemma ReservingExactly(db: Db, b: Bucket, quantity: int, pallets: int)
    requires Valid(db)
    ensures Reserve(db, b, quantity, pallets).Ok? <==>
              && b in db.items
              && 0 <= db.items[b].allocatedQty + quantity && 0 <= db.items[b].allocatedPallets + pallets <= db.items[b].pallets
              && db.items[b].allocatedQty + quantity + db.items[b].damagedQty + db.items[b].holdQty <= db.items[b].quantity
    ensures Reserve(db, b, quantity, pallets).Ok? ==>
              var after := Reserve(db, b, quantity, pallets).value;
              && after == db.(items := after.items) && b in after.items && after.items == db.items[b := after.items[b]]
              && after.items[b].quantity == db.items[b].quantity && after.items[b].pallets == db.items[b].pallets
              && after.items[b].allocatedQty == db.items[b].allocatedQty + quantity
              && after.items[b].allocatedPallets == db.items[b].allocatedPallets + pallets
              && after.items[b].damagedQty == db.items[b].damagedQty && after.items[b].holdQty == db.items[b].holdQty
  {
    if b in db.items {
      assert db.items[b].Sound();
    }
  }
}
