/**
  The operations that post to the stock ledger. Each is one transaction: on an error the tables
  are as they were before.
 */
module StockOperations {
  import opened Wrappers
  import opened SourceFreeze
  import opened StockLedger
  import opened Folds

  class Warehouse {
    var ledger: seq<Row>
    var nextId: int
    var items: map<Bucket, Item>
    var containers: map<ContainerKey, Container>
    var documents: map<Source, Document>
    var invoices: seq<Invoice>

    constructor ()
      ensures Valid(State()) && ledger == [] && items == map[]
    {
      ledger, nextId, items, containers, documents, invoices := [], 1, map[], map[], map[], [];
    }

    function State(): Db
      reads this
    {
      Db(ledger, nextId, items, containers, documents, invoices)
    }

    /** Abandons the transaction. */
    method Rollback(saved: Db)
      modifies this
      ensures State() == saved
    {
      ledger, nextId, items, containers, documents, invoices :=
        saved.ledger, saved.nextId, saved.items, saved.containers, saved.documents, saved.invoices;
    }

    /** One ledger entry; after an error the caller abandons the transaction. */
    method CreateStockLedgerEntry(e: Entry, now: int) returns (error: Option<Error>)
      modifies this
      ensures ReportsWithin(error, Append(old(State()), e, now), State())
    {
      if e.bucket.customer <= 0 || e.bucket.location <= 0 {
        return Some(InvalidInput);
      }
      if e.quantity != 0 || e.pallets != 0 {
        var mutation := MutationOf(State(), e.bucket, GuardDay(e, now));
        var allowed := CheckMutationsAllowed(invoices, [mutation]);
        assert [mutation][0] == mutation;
        if !allowed {
          return Some(InvalidInput);
        }
      }
      ledger := ledger + [Row(nextId, e.event, e.bucket, e.quantity, e.pallets, e.source, StoredDay(e), now)];
      nextId := nextId + 1;
      error := ApplyInventoryDelta(e);
      if error.None? {
        RecomputeContainer(KeyOf(e.bucket));
      }
    }

    method ApplyInventoryDelta(e: Entry) returns (error: Option<Error>)
      modifies `items
      ensures Reports(error, ApplyDelta(old(items), e), items, old(items))
    {
      var b := e.bucket;
      if b.sku <= 0 {
        return None;
      }
      if b in items {
        var moved := items[b].pallets + e.pallets;
        var after := items[b].(quantity := items[b].quantity + e.quantity, pallets := if moved < 0 then 0 else moved);
        if !after.Sound() {
          return Some(ConstraintViolation);
        }
        items := items[b := after];
        return None;
      }
      if e.quantity == 0 && e.pallets == 0 {
        return None;
      }
      if e.quantity < 0 || e.pallets < 0 {
        return Some(InvalidInput);
      }
      items := items[b := Item(e.quantity, e.pallets, 0, 0, 0, 0)];
      return None;
    }

    /** Location and status from the inventory and the outbound rows as they are now. */
    method RecomputeContainer(key: ContainerKey)
      modifies `containers
      ensures State() == Reproject(old(State()), key)
    {
      if key.container == "" {
        return;
      }
      var (location, status) := Projected(State(), key);
      var containerType := if key in containers then containers[key].containerType else "NORMAL";
      containers := containers[key := Container(containerType, location, status)];
    }

    // ----- inventory adjustments

    /** Brings the bucket to its final balances or moves it by the deltas; posted counts the rows it needed. */
    method PostAdjustmentLine(id: int, line: AdjustLine, occurred: Option<int>, now: int)
      returns (error: Option<Error>, posted: nat)
      modifies this
      ensures ReportsWithin(error, AdjustOne(old(State()), id, line, occurred, now), State())
      ensures error.None? ==> |ledger| == |old(ledger)| + posted
    {
      if line.bucket !in items {
        return Some(NotFound), 0;
      }
      var item := items[line.bucket];
      var quantity, pallets := line.Deltas(item).0, line.Deltas(item).1;
      if quantity == 0 && pallets == 0 {
        return None, 0;
      }
      if item.quantity + quantity < item.Reserved() || item.pallets + pallets < item.allocatedPallets {
        return Some(InsufficientStock), 0;
      }
      error := CreateStockLedgerEntry(AdjustmentEntry(id, line.bucket, quantity, pallets, occurred), now);
      posted := 1;
    }

    method PostAdjustmentLines(id: int, lines: seq<AdjustLine>, occurred: Option<int>, now: int)
      returns (error: Option<Error>, posted: nat)
      modifies this
      ensures ReportsWithin(error, Fold(AdjustStep(id, occurred, now), old(State()), lines, |lines|), State())
      ensures error.None? ==> |ledger| == |old(ledger)| + posted
    {
      posted := 0;
      ghost var step, start := AdjustStep(id, occurred, now), State();
      for i := 0 to |lines|
        invariant Fold(step, start, lines, i) == Ok(State()) && |ledger| == |start.ledger| + posted
      {
        ghost var before := State();
        var one;
        error, one := PostAdjustmentLine(id, lines[i], occurred, now);
        AdjustStepIs(before, id, lines[i], occurred, now);
        FoldStep(step, start, lines, i, before);
        if error.Some? {
          FoldFails(step, start, lines, i + 1);
          return;
        }
        posted := posted + one;
      }
      error := None;
    }

    /** Posts the lines that change something; fails as a whole. */
    method CreateInventoryAdjustment(id: int, lines: seq<AdjustLine>, occurred: Option<int>, now: int)
      returns (error: Option<Error>)
      modifies this
      ensures Reports(error, Adjusted(old(State()), id, lines, occurred, now), State(), old(State()))
    {
      var kept := SanitizeLines(lines);
      if kept == [] || exists i :: 0 <= i < |kept| && !kept[i].WellFormed() {
        return Some(InvalidInput);
      }
      var saved, posted := State(), 0;
      error, posted := PostAdjustmentLines(id, kept, occurred, now);
      if error.None? && posted == 0 {
        error := Some(InvalidInput);
      }
      if error.Some? {
        Rollback(saved);
        return;
      }
      documents := documents[Source(Adjustment, id) := ACTIVITY];
    }

    // ----- cycle counts

    /** Posts the difference between what was counted and what the bucket holds. */
    method PostCountLine(id: int, line: CountLine, now: int) returns (error: Option<Error>)
      modifies this
      ensures ReportsWithin(error, CountOne(old(State()), id, line, now), State())
    {
      if line.bucket !in items {
        return Some(NotFound);
      }
      var item := items[line.bucket];
      if line.quantity < item.Reserved() || line.pallets < item.allocatedPallets {
        return Some(InsufficientStock);
      }
      if line.quantity == item.quantity && line.pallets == item.pallets {
        return None;
      }
      error := CreateStockLedgerEntry(CountEntry(id, line, item, now), now);
    }

    method PostCountLines(id: int, lines: seq<CountLine>, now: int) returns (error: Option<Error>)
      modifies this
      ensures ReportsWithin(error, Fold(CountStep(id, now), old(State()), lines, |lines|), State())
    {
      ghost var step, start := CountStep(id, now), State();
      for i := 0 to |lines|
        invariant Fold(step, start, lines, i) == Ok(State())
      {
        ghost var before := State();
        error := PostCountLine(id, lines[i], now);
        CountStepIs(before, id, lines[i], now);
        FoldStep(step, start, lines, i, before);
        if error.Some? {
          FoldFails(step, start, lines, i + 1);
          return;
        }
      }
      error := None;
    }

    /** Posts the variance of every counted bucket, the first line of a bucket deciding. */
    method CreateCycleCount(id: int, lines: seq<CountLine>, now: int) returns (error: Option<Error>)
      modifies this
      ensures Reports(error, CycleCounted(old(State()), id, lines, now), State(), old(State()))
    {
      var kept := SanitizeCountLines(lines);
      if kept == [] || exists i :: 0 <= i < |kept| && (kept[i].quantity < 0 || kept[i].pallets < 0) {
        return Some(InvalidInput);
      }
      var saved := State();
      error := PostCountLines(id, kept, now);
      if error.Some? {
        Rollback(saved);
        return;
      }
      documents := documents[Source(CycleCount, id) := ACTIVITY];
    }

    // ----- receipts

    /** Posts one RECEIVE row a line. */
    method ConfirmInbound(receipt: Receipt, now: int) returns (error: Option<Error>)
      modifies this
      ensures Reports(error, Confirmed(old(State()), receipt, now), State(), old(State()))
    {
      if receipt.Own() in documents && documents[receipt.Own()].standing != Draft {
        return Some(InvalidInput);
      }
      if !receipt.CanConfirm() {
        return Some(InvalidInput);
      }
      var day := receipt.Day(now);
      var mutation := Mutation(receipt.customer, day, {receipt.location}, receipt.container, receipt.containerType);
      var allowed := CheckMutationsAllowed(invoices, [mutation]);
      assert [mutation][0] == mutation;
      if !allowed {
        return Some(InvalidInput);
      }
      var saved := State();
      EnsureReceiptContainer(receipt);
      error := ReceiveLines(receipt, receipt.lines, now);
      if error.Some? {
        Rollback(saved);
        return;
      }
      documents := documents[receipt.Own() := receipt.Filed(now)];
    }

    method ReceiveLines(receipt: Receipt, lines: seq<ReceiptLine>, now: int) returns (error: Option<Error>)
      modifies this
      ensures ReportsWithin(error, Fold(ReceiveStep(receipt, now), old(State()), lines, |lines|), State())
    {
      ghost var step, start := ReceiveStep(receipt, now), State();
      for i := 0 to |lines|
        invariant Fold(step, start, lines, i) == Ok(State())
      {
        ghost var before := State();
        error := ReceiveLine(receipt, lines[i], now);
        ReceiveStepIs(before, receipt, lines[i], now);
        FoldStep(step, start, lines, i, before);
        if error.Some? {
          FoldFails(step, start, lines, i + 1);
          return;
        }
      }
      error := None;
    }

    /** Makes sure that there is a bucket, and posts what was received into it. */
    method ReceiveLine(receipt: Receipt, line: ReceiptLine, now: int) returns (error: Option<Error>)
      modifies this
      ensures ReportsWithin(error, ReceiveOne(old(State()), receipt, line, now), State())
    {
      var bucket := receipt.BucketOf(line);
      if bucket !in items {
        items := items[bucket := Item(0, 0, 0, 0, 0, 0)];
      }
      error := CreateStockLedgerEntry(receipt.EntryOf(line, now), now);
    }

    method EnsureReceiptContainer(receipt: Receipt)
      modifies `containers
      ensures State() == LinkContainer(old(State()), receipt)
    {
      RecomputeContainer(receipt.Key());
      if receipt.container != "" {
        containers := containers[receipt.Key() := containers[receipt.Key()].(containerType := receipt.containerType)];
      }
    }
  }

  // ----- adjustments as a fold over the lines

  datatype AdjustLine = AdjustLine(bucket: Bucket, quantity: int, pallets: int,
                                   finalQuantity: Option<int>, finalPallets: Option<int>) {
    predicate Kept() {
      && 0 < bucket.customer && 0 < bucket.location && 0 < bucket.sku
      && (finalQuantity.Some? || finalPallets.Some? || quantity != 0 || pallets != 0)
    }

    /** Final balances come in pairs, without deltas, and are not negative. */
    predicate WellFormed() {
      && finalQuantity.Some? == finalPallets.Some?
      && (finalQuantity.Some? ==>
            quantity == 0 && pallets == 0 && 0 <= finalQuantity.value && 0 <= finalPallets.value)
    }

    function Deltas(item: Item): (int, int) {
      if finalQuantity.Some? && finalPallets.Some?
      then (finalQuantity.value - item.quantity, finalPallets.value - item.pallets)
      else (quantity, pallets)
    }
  }

  function KeptLines(lines: seq<AdjustLine>): seq<AdjustLine> {
    if lines == [] then []
    else KeptLines(lines[..|lines| - 1]) + if lines[|lines| - 1].Kept() then [lines[|lines| - 1]] else []
  }

  method SanitizeLines(lines: seq<AdjustLine>) returns (kept: seq<AdjustLine>)
    ensures kept == KeptLines(lines)
  {
    kept := [];
    for i := 0 to |lines|
      invariant kept == KeptLines(lines[..i])
    {
      assert lines[..i + 1][..i] == lines[..i];
      if lines[i].Kept() {
        kept := kept + [lines[i]];
      }
    }
    assert lines[..|lines|] == lines;
  }

  lemma {:induction false} KeptInOrder(first: seq<AdjustLine>, rest: seq<AdjustLine>)
    ensures KeptLines(first + rest) == KeptLines(first) + KeptLines(rest)
  {
    if rest == [] {
      assert first + rest == first;
    } else {
      var n := |rest| - 1;
      KeptInOrder(first, rest[..n]);
      assert (first + rest)[..|first + rest| - 1] == first + rest[..n];
    }
  }

  /** The lines that are kept are the meaningful ones, each as often as it was asked for. */
  lemma {:induction false} KeptLinesAreThose(lines: seq<AdjustLine>, line: AdjustLine)
    ensures multiset(KeptLines(lines))[line] == if line.Kept() then multiset(lines)[line] else 0
  {
    if lines != [] {
      var n := |lines| - 1;
      var rest := lines[..n];
      KeptLinesAreThose(rest, line);
      OneMoreOf(rest, lines[n], line);
      OneMoreOf(KeptLines(rest), lines[n], line);
      assert lines == rest + [lines[n]] && KeptLines(rest) + [] == KeptLines(rest);
    }
  }

  lemma OneMoreOf(lines: seq<AdjustLine>, last: AdjustLine, line: AdjustLine)
    ensures multiset(lines + [last])[line] == multiset(lines)[line] + if last == line then 1 else 0
  {
  }

  /** A line that is dropped names no real bucket or would not have moved anything. */
  lemma DroppedLinesMoveNothing(db: Db, id: int, line: AdjustLine, occurred: Option<int>, now: int)
    requires Valid(db) && !line.Kept() && line.bucket in db.items
    requires 0 < line.bucket.customer && 0 < line.bucket.location
    ensures AdjustOne(db, id, line, occurred, now) == Ok(db)
  {
    assert 0 < line.bucket.sku;
  }

  function AdjustmentEntry(id: int, b: Bucket, quantity: int, pallets: int, occurred: Option<int>): Entry {
    Entry(EventType.Adjust, b, quantity, pallets, Source(Adjustment, id), occurred, None, None)
  }

  function AdjustOne(db: Db, id: int, line: AdjustLine, occurred: Option<int>, now: int): Result<Db> {
    if line.bucket !in db.items then Err(NotFound)
    else
      var item := db.items[line.bucket];
      var (quantity, pallets) := line.Deltas(item);
      if quantity == 0 && pallets == 0 then Ok(db)
      else if item.quantity + quantity < item.Reserved() || item.pallets + pallets < item.allocatedPallets
      then Err(InsufficientStock)
      else Append(db, AdjustmentEntry(id, line.bucket, quantity, pallets, occurred), now)
  }

  function AdjustStep(id: int, occurred: Option<int>, now: int): (Db, AdjustLine) -> Result<Db> {
    (db: Db, line: AdjustLine) => AdjustOne(db, id, line, occurred, now)
  }

  lemma AdjustStepIs(db: Db, id: int, line: AdjustLine, occurred: Option<int>, now: int)
    ensures AdjustStep(id, occurred, now)(db, line) == AdjustOne(db, id, line, occurred, now)
  {
  }

  function Adjusted(db: Db, id: int, lines: seq<AdjustLine>, occurred: Option<int>, now: int): Result<Db> {
    var kept := KeptLines(lines);
    if kept == [] || exists i :: 0 <= i < |kept| && !kept[i].WellFormed() then Err(InvalidInput)
    else
      match Fold(AdjustStep(id, occurred, now), db, kept, |kept|)
      case Err(error) => Err(error)
      case Ok(after) =>
        if |after.ledger| == |db.ledger| then Err(InvalidInput)
        else Ok(after.(documents := after.documents[Source(Adjustment, id) := ACTIVITY]))
  }

  // ----- cycle counts as a fold over the distinct lines

  datatype CountLine = CountLine(bucket: Bucket, quantity: int, pallets: int)

  predicate Listed(lines: seq<CountLine>, b: Bucket) {
    exists i :: 0 <= i < |lines| && lines[i].bucket == b
  }

  /** Lines with real identifiers, the first of every bucket. */
  function DistinctLines(lines: seq<CountLine>): seq<CountLine> {
    if lines == [] then []
    else
      var rest, last := DistinctLines(lines[..|lines| - 1]), lines[|lines| - 1];
      if last.bucket.customer <= 0 || last.bucket.location <= 0 || last.bucket.sku <= 0 || Listed(rest, last.bucket)
      then rest else rest + [last]
  }

  /** Remembers the buckets already seen. */
  method SanitizeCountLines(lines: seq<CountLine>) returns (kept: seq<CountLine>)
    ensures kept == DistinctLines(lines)
  {
    kept := [];
    var seen: set<Bucket> := {};
    for i := 0 to |lines|
      invariant kept == DistinctLines(lines[..i])
      invariant forall b :: b in seen <==> Listed(kept, b)
    {
      var line := lines[i];
      assert lines[..i + 1][..i] == lines[..i];
      if 0 < line.bucket.customer && 0 < line.bucket.location && 0 < line.bucket.sku && line.bucket !in seen {
        ghost var before := kept;
        kept, seen := kept + [line], seen + {line.bucket};
        forall b
          ensures Listed(kept, b) <==> Listed(before, b) || b == line.bucket
        {
          assert kept[|before|] == line;
          if k :| 0 <= k < |before| && before[k].bucket == b {
            assert kept[k].bucket == b;
          }
        }
      }
    }
    assert lines[..|lines|] == lines;
  }

  lemma {:induction false} LinesAreDistinct(lines: seq<CountLine>)
    ensures forall i, j :: 0 <= i < j < |DistinctLines(lines)| ==>
              DistinctLines(lines)[i].bucket != DistinctLines(lines)[j].bucket
  {
    if lines != [] {
      LinesAreDistinct(lines[..|lines| - 1]);
      var rest, last := DistinctLines(lines[..|lines| - 1]), lines[|lines| - 1];
      forall i | 0 <= i < |rest| && !Listed(rest, last.bucket)
        ensures rest[i].bucket != last.bucket
      {
      }
    }
  }

  function CountEntry(id: int, line: CountLine, item: Item, now: int): Entry {
    Entry(EventType.Count, line.bucket, line.quantity - item.quantity, line.pallets - item.pallets,
          Source(CycleCount, id), Some(now), None, None)
  }

  function CountOne(db: Db, id: int, line: CountLine, now: int): Result<Db> {
    if line.bucket !in db.items then Err(NotFound)
    else
      var item := db.items[line.bucket];
      if line.quantity < item.Reserved() || line.pallets < item.allocatedPallets then Err(InsufficientStock)
      else if line.quantity == item.quantity && line.pallets == item.pallets then Ok(db)
      else Append(db, CountEntry(id, line, item, now), now)
  }

  function CountStep(id: int, now: int): (Db, CountLine) -> Result<Db> {
    (db: Db, line: CountLine) => CountOne(db, id, line, now)
  }

  lemma CountStepIs(db: Db, id: int, line: CountLine, now: int)
    ensures CountStep(id, now)(db, line) == CountOne(db, id, line, now)
  {
  }

  function CycleCounted(db: Db, id: int, lines: seq<CountLine>, now: int): Result<Db> {
    var kept := DistinctLines(lines);
    if kept == [] || exists i :: 0 <= i < |kept| && (kept[i].quantity < 0 || kept[i].pallets < 0) then Err(InvalidInput)
    else
      match Fold(CountStep(id, now), db, kept, |kept|)
      case Err(error) => Err(error)
      case Ok(after) =>
        Ok(after.(documents := after.documents[Source(CycleCount, id) := ACTIVITY]))
  }

  // ----- receipts as a fold over the lines

  datatype ReceiptLine = ReceiptLine(sku: int, section: string, quantity: int, pallets: int)

  datatype Receipt = Receipt(id: int, customer: int, location: int, container: string, containerType: string,
                             sealedTransit: bool, arrival: Option<int>, lines: seq<ReceiptLine>) {
    predicate CanConfirm() {
      && !sealedTransit && lines != []
      && forall i :: 0 <= i < |lines| ==> 0 <= lines[i].quantity && 0 <= lines[i].pallets && 0 < lines[i].sku
    }

    function Day(now: int): int {
      if arrival.Some? then arrival.value else now
    }

    function Key(): ContainerKey {
      ContainerKey(customer, container)
    }

    function Own(): Source {
      Source(Inbound, id)
    }

    function Filed(now: int): Document {
      Document(Posted, Key(), containerType, location, Day(now))
    }

    function BucketOf(line: ReceiptLine): Bucket {
      Bucket(line.sku, customer, location, line.section, container)
    }

    function EntryOf(line: ReceiptLine, now: int): Entry {
      Entry(Receive, BucketOf(line), line.quantity, line.pallets, Source(Inbound, id), Some(Day(now)), Some(Day(now)), None)
    }
  }

  function LinkContainer(db: Db, receipt: Receipt): Db {
    var linked := Reproject(db, receipt.Key());
    if receipt.container == "" then linked
    else
      var container := linked.containers[receipt.Key()].(containerType := receipt.containerType);
      linked.(containers := linked.containers[receipt.Key() := container])
  }

  /** A bucket with nothing in it yet. */
  function OpenBucket(db: Db, b: Bucket): Db {
    if b in db.items then db else db.(items := db.items[b := Item(0, 0, 0, 0, 0, 0)])
  }

  function ReceiveOne(db: Db, receipt: Receipt, line: ReceiptLine, now: int): Result<Db> {
    Append(OpenBucket(db, receipt.BucketOf(line)), receipt.EntryOf(line, now), now)
  }

  function ReceiveStep(receipt: Receipt, now: int): (Db, ReceiptLine) -> Result<Db> {
    (db: Db, line: ReceiptLine) => ReceiveOne(db, receipt, line, now)
  }

  lemma ReceiveStepIs(db: Db, receipt: Receipt, line: ReceiptLine, now: int)
    ensures ReceiveStep(receipt, now)(db, line) == ReceiveOne(db, receipt, line, now)
  {
  }

  function Confirmed(db: Db, receipt: Receipt, now: int): Result<Db> {
    if receipt.Own() in db.documents && db.documents[receipt.Own()].standing != Draft then Err(InvalidInput)
    else if !receipt.CanConfirm() then Err(InvalidInput)
    else if Frozen(db.invoices, Mutation(receipt.customer, receipt.Day(now), {receipt.location}, receipt.container, receipt.containerType))
    then Err(InvalidInput)
    else
      match Fold(ReceiveStep(receipt, now), LinkContainer(db, receipt), receipt.lines, |receipt.lines|)
      case Err(error) => Err(error)
      case Ok(after) => Ok(after.(documents := after.documents[receipt.Own() := receipt.Filed(now)]))
  }

  // ----- reservations, and movements posted by shipments and transfers

  /** Reserving or releasing stock for a shipment, within the table's checks. */
  function Reserve(db: Db, b: Bucket, quantity: int, pallets: int): Result<Db> {
    if b !in db.items then Err(NotFound)
    else
      var after := db.items[b].(allocatedQty := db.items[b].allocatedQty + quantity,
                                allocatedPallets := db.items[b].allocatedPallets + pallets);
      if after.Sound() then Ok(db.(items := db.items[b := after])) else Err(ConstraintViolation)
  }

  /** A shipment or transfer row, posted only if the bucket keeps its reserved pallets. */
  function Post(db: Db, e: Entry, now: int): Result<Db> {
    if e.bucket.sku <= 0 || Held(db.items, e.bucket).pallets + e.pallets < Held(db.items, e.bucket).allocatedPallets
    then Err(InsufficientStock)
    else Append(db, e, now)
  }

  // ----- every operation keeps the invariant

  lemma AdjustOneKeeps(db: Db, id: int, line: AdjustLine, occurred: Option<int>, now: int)
    requires Valid(db) && AdjustOne(db, id, line, occurred, now).Ok?
    ensures Valid(AdjustOne(db, id, line, occurred, now).value)
    ensures line.finalQuantity.Some? && line.finalPallets.Some? ==>
              var after := Held(AdjustOne(db, id, line, occurred, now).value.items, line.bucket);
              after.quantity == line.finalQuantity.value && after.pallets == line.finalPallets.value
  {
    var item := db.items[line.bucket];
    var (quantity, pallets) := line.Deltas(item);
    var e := AdjustmentEntry(id, line.bucket, quantity, pallets, occurred);
    assert item.Sound();
    if quantity != 0 || pallets != 0 {
      AppendKeepsValid(db, e, now);
      AppendEffect(db, e, now);
    }
  }

  lemma CountOneKeeps(db: Db, id: int, line: CountLine, now: int)
    requires Valid(db) && CountOne(db, id, line, now).Ok?
    ensures Valid(CountOne(db, id, line, now).value)
    ensures forall b :: b != line.bucket ==> Held(CountOne(db, id, line, now).value.items, b) == Held(db.items, b)
    ensures var after := Held(CountOne(db, id, line, now).value.items, line.bucket);
            after.quantity == line.quantity && after.pallets == line.pallets
  {
    var item := db.items[line.bucket];
    assert item.Sound();
    if line.quantity != item.quantity || line.pallets != item.pallets {
      AppendKeepsValid(db, CountEntry(id, line, item, now), now);
      AppendEffect(db, CountEntry(id, line, item, now), now);
    }
  }

  ghost predicate HoldsCounts(db: Db, lines: seq<CountLine>, n: nat)
    requires n <= |lines|
  {
    forall i :: 0 <= i < n ==>
      var held := Held(db.items, lines[i].bucket);
      held.quantity == lines[i].quantity && held.pallets == lines[i].pallets
  }

  lemma OneMoreCounted(db: Db, id: int, lines: seq<CountLine>, k: nat, now: int)
    requires k < |lines| && Valid(db) && CountOne(db, id, lines[k], now).Ok? && HoldsCounts(db, lines, k)
    requires forall i, j :: 0 <= i < j < |lines| ==> lines[i].bucket != lines[j].bucket
    ensures Valid(CountOne(db, id, lines[k], now).value) && HoldsCounts(CountOne(db, id, lines[k], now).value, lines, k + 1)
  {
    CountOneKeeps(db, id, lines[k], now);
  }

  /** After a cycle count every counted bucket holds what was counted. */
  lemma CountedBalancesHold(db: Db, id: int, lines: seq<CountLine>, n: nat, now: int)
    requires n <= |lines| && Valid(db)
    requires forall i, j :: 0 <= i < j < |lines| ==> lines[i].bucket != lines[j].bucket
    ensures var outcome := Fold(CountStep(id, now), db, lines, n);
            outcome.Ok? ==> Valid(outcome.value) && HoldsCounts(outcome.value, lines, n)
  {
    var step, inv := CountStep(id, now), (k: nat, s: Db) => k <= |lines| && Valid(s) && HoldsCounts(s, lines, k);
    forall k: nat, s: Db | k < |lines| && inv(k, s) && step(s, lines[k]).Ok?
      ensures inv(k + 1, step(s, lines[k]).value)
    {
      CountStepIs(s, id, lines[k], now);
      OneMoreCounted(s, id, lines, k, now);
    }
    FoldKeeps(step, db, lines, n, inv);
  }

  /** Items that hold the same balances in the same places are as good. */
  lemma ItemsKeep(db: Db, items: map<Bucket, Item>)
    requires Valid(db) && ItemsSound(items)
    requires forall m, b: Bucket :: Balance(m, items, b) == Balance(m, db.items, b)
    requires forall key :: ActiveLocations(items, key) == ActiveLocations(db.items, key)
    ensures Valid(db.(items := items))
  {
    var after := db.(items := items);
    forall m, b: Bucket | 0 < b.sku
      ensures Balance(m, after.items, b) == Total(m, after.ledger, b)
    {
      assert Balance(m, after.items, b) == Balance(m, db.items, b);
    }
    forall key | key in after.containers
      ensures key.container != "" && IsProjected(after, key)
    {
      assert IsProjected(db, key);
    }
  }

  lemma {:induction false} EmptyBucketKeeps(db: Db, b: Bucket)
    requires Valid(db) && 0 < b.sku
    ensures Valid(OpenBucket(db, b))
  {
    if b !in db.items {
      var items := db.items[b := Item(0, 0, 0, 0, 0, 0)];
      forall key
        ensures ActiveLocations(items, key) == ActiveLocations(db.items, key)
      {
      }
      ItemsKeep(db, items);
    }
  }

  lemma LinkKeeps(db: Db, receipt: Receipt)
    requires Valid(db)
    ensures Valid(LinkContainer(db, receipt))
  {
    var after := LinkContainer(db, receipt);
    forall key | key in after.containers
      ensures key.container != "" && IsProjected(after, key)
    {
      assert key == receipt.Key() || IsProjected(db, key);
    }
  }

  /** Putting something into a bucket that holds no negative balance does not clamp. */
  lemma ReceivingDoesNotClamp(db: Db, b: Bucket, e: Entry)
    requires ItemsSound(db.items) && e.bucket == b && 0 <= e.pallets
    ensures NoClamp(OpenBucket(db, b), e)
  {
    assert b in db.items ==> db.items[b].Sound();
  }

  lemma AppendToOpenedKeeps(db: Db, e: Entry, now: int)
    requires Valid(db) && 0 < e.bucket.sku && 0 <= e.pallets && Append(OpenBucket(db, e.bucket), e, now).Ok?
    ensures Valid(Append(OpenBucket(db, e.bucket), e, now).value)
  {
    EmptyBucketKeeps(db, e.bucket);
    ReceivingDoesNotClamp(db, e.bucket, e);
    AppendKeepsValid(OpenBucket(db, e.bucket), e, now);
  }

  lemma ReceiveOneKeeps(db: Db, receipt: Receipt, line: ReceiptLine, now: int)
    requires Valid(db) && 0 <= line.pallets && 0 < line.sku && ReceiveOne(db, receipt, line, now).Ok?
    ensures Valid(ReceiveOne(db, receipt, line, now).value)
  {
    AppendToOpenedKeeps(db, receipt.EntryOf(line, now), now);
  }

  lemma ReserveKeeps(db: Db, b: Bucket, quantity: int, pallets: int)
    requires Valid(db) && Reserve(db, b, quantity, pallets).Ok?
    ensures Valid(Reserve(db, b, quantity, pallets).value)
  {
    var items := Reserve(db, b, quantity, pallets).value.items;
    forall key
      ensures ActiveLocations(items, key) == ActiveLocations(db.items, key)
    {
    }
    ItemsKeep(db, items);
  }

  lemma PostKeeps(db: Db, e: Entry, now: int)
    requires Valid(db) && Post(db, e, now).Ok?
    ensures Valid(Post(db, e, now).value)
  {
    assert 0 <= Held(db.items, e.bucket).allocatedPallets;
    AppendKeepsValid(db, e, now);
  }

  /** Adding to the document registry touches nothing the invariant is about. */
  lemma DocumentsDoNotMatter(db: Db, documents: map<Source, Document>)
    requires Valid(db)
    ensures Valid(db.(documents := documents))
  {
    var after := db.(documents := documents);
    forall key | key in after.containers
      ensures key.container != "" && IsProjected(after, key)
    {
      assert IsProjected(db, key);
    }
  }
}
