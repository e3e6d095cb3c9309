/**
  The stock ledger and what is kept beside it: a balance per bucket and a status per container.
  Every change appends a ledger row and moves the cached balance by the same amount.

  Container numbers and sections are normalized texts; the empty container number is "none".
 */
module StockLedger {
  import opened Wrappers
  import opened SourceFreeze

  datatype SourceKind = Inbound | Outbound | Transfer | Adjustment | CycleCount | Opening | CascadeDelete

  datatype Source = Source(kind: SourceKind, id: int)

  datatype EventType = Receive | Ship | Reversal | TransferOut | TransferIn | Adjust | Count

  datatype Bucket = Bucket(sku: int, customer: int, location: int, section: string, container: string)

  /** What a caller asks to be recorded; a SKU that is not positive is unknown. */
  datatype Entry = Entry(event: EventType, bucket: Bucket, quantity: int, pallets: int, source: Source,
                         occurred: Option<int>, delivery: Option<int>, out: Option<int>)

  /** day is the stored business day; None is a row without one. */
  datatype Row = Row(id: int, event: EventType, bucket: Bucket, quantity: int, pallets: int, source: Source,
                     day: Option<int>, created: int)

  datatype Item = Item(quantity: int, pallets: int, allocatedQty: int, damagedQty: int, holdQty: int, allocatedPallets: int) {
    function Reserved(): int {
      allocatedQty + damagedQty + holdQty
    }
    /** The table's CHECK constraints. */
    predicate Sound() {
      && 0 <= allocatedQty && 0 <= damagedQty && 0 <= holdQty && 0 <= allocatedPallets
      && Reserved() <= quantity && allocatedPallets <= pallets
    }
  }

  datatype Status = InStock | PartiallyOutbound | Shipped | Depleted

  datatype ContainerKey = ContainerKey(customer: int, container: string)

  datatype Container = Container(containerType: string, location: Option<int>, status: Status)

  /** Withdrawn is deleted or reversed. */
  datatype Standing = Draft | Posted | Withdrawn

  /** A source document; a receipt has its container, place and arrival day. */
  datatype Document = Document(standing: Standing, key: ContainerKey, containerType: string, location: int, day: int)

  const ACTIVITY := Document(Posted, ContainerKey(0, ""), "", 0, 0)

  datatype Db = Db(ledger: seq<Row>, nextId: int, items: map<Bucket, Item>, containers: map<ContainerKey, Container>,
                   documents: map<Source, Document>, invoices: seq<Invoice>)

  // ----- dates

  /** The day the freeze looks at. */
  function GuardDay(e: Entry, now: int): int {
    if e.occurred.Some? then e.occurred.value
    else if e.delivery.Some? then e.delivery.value
    else if e.out.Some? then e.out.value
    else now
  }

  /** The day the row is stored with. */
  function StoredDay(e: Entry): Option<int> {
    if e.occurred.Some? then e.occurred
    else if e.event == Receive then e.delivery
    else if e.event == Ship || e.event == Reversal then e.out
    else None
  }

  /** Only a shipment that names both a delivery day and another ship day is stored off its guarded day. */
  lemma StoredOffGuard(e: Entry, now: int)
    ensures StoredDay(e).Some? ==>
              (StoredDay(e).value != GuardDay(e, now) <==>
               && e.occurred.None? && (e.event == Ship || e.event == Reversal)
               && e.delivery.Some? && e.delivery != e.out)
  {
  }

  predicate WellDated(e: Entry) {
    e.event == Ship || e.event == Reversal ==> e.occurred.Some? || e.delivery.None?
  }

  // ----- sums over the ledger

  datatype Measure = Quantity | Pallets

  function Change(m: Measure, r: Row): int {
    if m.Quantity? then r.quantity else r.pallets
  }

  function Total(m: Measure, ledger: seq<Row>, b: Bucket): int {
    if ledger == [] then 0
    else
      var r := ledger[|ledger| - 1];
      Total(m, ledger[..|ledger| - 1], b) + if r.bucket == b then Change(m, r) else 0
  }

  lemma TotalAppend(m: Measure, ledger: seq<Row>, r: Row, b: Bucket)
    ensures Total(m, ledger + [r], b) == Total(m, ledger, b) + if r.bucket == b then Change(m, r) else 0
  {
    assert (ledger + [r])[..|ledger|] == ledger;
  }

  function Held(items: map<Bucket, Item>, b: Bucket): Item {
    if b in items then items[b] else Item(0, 0, 0, 0, 0, 0)
  }

  function Balance(m: Measure, items: map<Bucket, Item>, b: Bucket): int {
    if m.Quantity? then Held(items, b).quantity else Held(items, b).pallets
  }

  // ----- the container's projection

  predicate InContainer(b: Bucket, key: ContainerKey) {
    b.customer == key.customer && b.container == key.container
  }

  function ActiveLocations(items: map<Bucket, Item>, key: ContainerKey): set<int> {
    set b | b in items && InContainer(b, key) && (0 < items[b].quantity || 0 < items[b].pallets) :: b.location
  }

  function NetOutbound(m: Measure, ledger: seq<Row>, key: ContainerKey): int {
    if ledger == [] then 0
    else
      var r := ledger[|ledger| - 1];
      NetOutbound(m, ledger[..|ledger| - 1], key)
      + if InContainer(r.bucket, key) && r.source.kind == Outbound && (r.event == Ship || r.event == Reversal)
        then Change(m, r) else 0
  }

  function ResolveStatus(active: bool, netQuantity: int, netPallets: int): Status {
    var unreversed := netQuantity < 0 || netPallets < 0;
    if active && unreversed then PartiallyOutbound
    else if active then InStock
    else if unreversed then Shipped
    else Depleted
  }

  function OnlyLocation(locations: set<int>): Option<int> {
    if l :| l in locations && locations == {l} then Some(l) else None
  }

  function Projected(db: Db, key: ContainerKey): (Option<int>, Status) {
    var locations := ActiveLocations(db.items, key);
    (OnlyLocation(locations),
     ResolveStatus(locations != {}, NetOutbound(Quantity, db.ledger, key), NetOutbound(Pallets, db.ledger, key)))
  }

  /** Pieces or pallets are there. */
  predicate Stocked(items: map<Bucket, Item>, b: Bucket) {
    b in items && (0 < items[b].quantity || 0 < items[b].pallets)
  }

  /** More was shipped out of the container than shipments were reversed. */
  predicate ShippedOut(ledger: seq<Row>, key: ContainerKey) {
    NetOutbound(Quantity, ledger, key) < 0 || NetOutbound(Pallets, ledger, key) < 0
  }

  /** Shipments and their reversals count, and only those of this container. */
  lemma OutboundAppend(m: Measure, ledger: seq<Row>, r: Row, key: ContainerKey)
    ensures r.source.kind == Outbound && (r.event == Ship || r.event == Reversal) && KeyOf(r.bucket) == key ==>
              NetOutbound(m, ledger + [r], key) == NetOutbound(m, ledger, key) + if m.Quantity? then r.quantity else r.pallets
    ensures r.source.kind != Outbound || (r.event != Ship && r.event != Reversal) || KeyOf(r.bucket) != key ==>
              NetOutbound(m, ledger + [r], key) == NetOutbound(m, ledger, key)
  {
    assert (ledger + [r])[..|ledger|] == ledger;
  }

  /** There is stock of the container at the location. */
  ghost predicate StockedAt(items: map<Bucket, Item>, key: ContainerKey, location: int) {
    exists b :: Stocked(items, b) && KeyOf(b) == key && b.location == location
  }

  lemma ActiveExactly(items: map<Bucket, Item>, key: ContainerKey, location: int)
    ensures location in ActiveLocations(items, key) <==> StockedAt(items, key, location)
  {
    if location in ActiveLocations(items, key) {
      var b :| b in items && InContainer(b, key) && (0 < items[b].quantity || 0 < items[b].pallets) && b.location == location;
      assert Stocked(items, b) && KeyOf(b) == key;
    }
    if b :| Stocked(items, b) && KeyOf(b) == key && b.location == location {
      assert InContainer(b, key);
    }
  }

  /** The status of a container says whether stock is left and whether something has been shipped. */
  lemma ProjectionTells(db: Db, key: ContainerKey)
    requires IsProjected(db, key)
    ensures var status, left := db.containers[key].status, exists l :: StockedAt(db.items, key, l);
            && (status == InStock <==> left && !ShippedOut(db.ledger, key))
            && (status == PartiallyOutbound <==> left && ShippedOut(db.ledger, key))
            && (status == Shipped <==> !left && ShippedOut(db.ledger, key))
            && (status == Depleted <==> !left && !ShippedOut(db.ledger, key))
  {
    if l :| l in ActiveLocations(db.items, key) {
      ActiveExactly(db.items, key, l);
    }
    if l :| StockedAt(db.items, key, l) {
      ActiveExactly(db.items, key, l);
    }
  }

  /** Its location is where all of its stock is, if that is one place. */
  lemma LocationTells(db: Db, key: ContainerKey, location: int)
    requires IsProjected(db, key)
    ensures db.containers[key].location == Some(location) <==> forall l :: StockedAt(db.items, key, l) <==> l == location
  {
    var locations := ActiveLocations(db.items, key);
    forall l
      ensures l in locations <==> StockedAt(db.items, key, l)
    {
      ActiveExactly(db.items, key, l);
    }
    if forall l :: StockedAt(db.items, key, l) <==> l == location {
      assert locations == {location};
    }
  }

  /** Inserts the container when it is new, then recomputes its location and status from scratch. */
  function Reproject(db: Db, key: ContainerKey): Db {
    if key.container == "" then db
    else
      var containerType := if key in db.containers then db.containers[key].containerType else "NORMAL";
      var (location, status) := Projected(db, key);
      db.(containers := db.containers[key := Container(containerType, location, status)])
  }

  // ----- appending

  function KeyOf(b: Bucket): ContainerKey {
    ContainerKey(b.customer, b.container)
  }

  function MutationOf(db: Db, b: Bucket, day: int): Mutation {
    Mutation(b.customer, day, {b.location}, b.container,
             if b.container != "" && KeyOf(b) in db.containers then db.containers[KeyOf(b)].containerType else "")
  }

  predicate Moves(e: Entry) {
    e.quantity != 0 || e.pallets != 0
  }

  /** Updates the bucket, clamping its pallets at zero, or opens it for a non-negative change. */
  function ApplyDelta(items: map<Bucket, Item>, e: Entry): Result<map<Bucket, Item>> {
    var b := e.bucket;
    if b.sku <= 0 then Ok(items)
    else if b in items then
      var moved := items[b].pallets + e.pallets;
      var after := items[b].(quantity := items[b].quantity + e.quantity, pallets := if moved < 0 then 0 else moved);
      if after.Sound() then Ok(items[b := after]) else Err(ConstraintViolation)
    else if !Moves(e) then Ok(items)
    else if e.quantity < 0 || e.pallets < 0 then Err(InvalidInput)
    else Ok(items[b := Item(e.quantity, e.pallets, 0, 0, 0, 0)])
  }

  function RowFor(db: Db, e: Entry, now: int): Row {
    Row(db.nextId, e.event, e.bucket, e.quantity, e.pallets, e.source, StoredDay(e), now)
  }

  /** One ledger entry with everything it moves, or an error that abandons the transaction. */
  function Append(db: Db, e: Entry, now: int): Result<Db> {
    if e.bucket.customer <= 0 || e.bucket.location <= 0 then Err(InvalidInput)
    else if Moves(e) && Frozen(db.invoices, MutationOf(db, e.bucket, GuardDay(e, now))) then Err(InvalidInput)
    else
      match ApplyDelta(db.items, e)
      case Err(error) => Err(error)
      case Ok(items) =>
        Ok(Reproject(db.(ledger := db.ledger + [RowFor(db, e, now)], nextId := db.nextId + 1, items := items),
                     KeyOf(e.bucket)))
  }

  // ----- the invariant

  /** Every cached balance is the sum of the bucket's ledger rows. */
  ghost predicate Agrees(db: Db) {
    forall m, b: Bucket :: 0 < b.sku ==> Balance(m, db.items, b) == Total(m, db.ledger, b)
  }

  ghost predicate ById(ledger: seq<Row>, bound: int) {
    && (forall i, j :: 0 <= i < j < |ledger| ==> ledger[i].id < ledger[j].id)
    && (forall i :: 0 <= i < |ledger| ==> ledger[i].id < bound)
  }

  ghost predicate ItemsSound(items: map<Bucket, Item>) {
    forall b :: b in items ==> 0 < b.sku && items[b].Sound()
  }

  predicate IsProjected(db: Db, key: ContainerKey) {
    key in db.containers && (db.containers[key].location, db.containers[key].status) == Projected(db, key)
  }

  /** Every container's location and status are what a computation from scratch gives. */
  ghost predicate ContainersProjected(db: Db) {
    forall key :: key in db.containers ==> key.container != "" && IsProjected(db, key)
  }

  /** Rows name a real customer and place, and a container that exists. */
  predicate RowSound(r: Row, containers: map<ContainerKey, Container>) {
    && 0 < r.bucket.customer && 0 < r.bucket.location
    && (r.bucket.container != "" ==> KeyOf(r.bucket) in containers)
  }

  ghost predicate RowsSound(db: Db) {
    forall i :: 0 <= i < |db.ledger| ==> RowSound(db.ledger[i], db.containers)
  }

  ghost predicate Valid(db: Db) {
    && Agrees(db)
    && ItemsSound(db.items)
    && ById(db.ledger, db.nextId)
    && ContainersProjected(db)
    && RowsSound(db)
  }

  /** The bucket's pallets stay at or above zero without the clamp. */
  predicate NoClamp(db: Db, e: Entry) {
    e.bucket.sku <= 0 || 0 <= Held(db.items, e.bucket).pallets + e.pallets
  }

  lemma ProjectionElsewhere(db: Db, after: Db, e: Entry, now: int, key: ContainerKey)
    requires ApplyDelta(db.items, e).Ok? && after.items == ApplyDelta(db.items, e).value
    requires after.ledger == db.ledger + [RowFor(db, e, now)]
    requires key != KeyOf(e.bucket)
    ensures Projected(after, key) == Projected(db, key)
  {
    assert after.ledger[..|db.ledger|] == db.ledger;
    assert ActiveLocations(after.items, key) == ActiveLocations(db.items, key);
  }

  /** What an append leaves in the tables. */
  lemma AppendEffect(db: Db, e: Entry, now: int)
    requires Append(db, e, now).Ok? && ById(db.ledger, db.nextId)
    ensures var after := Append(db, e, now).value;
            && after.ledger == db.ledger + [RowFor(db, e, now)]
            && after.items == ApplyDelta(db.items, e).value
            && after.invoices == db.invoices && after.nextId == db.nextId + 1 && after.documents == db.documents
            && ById(after.ledger, after.nextId)
            && (ContainersProjected(db) ==> ContainersProjected(after))
            && (RowsSound(db) ==> RowsSound(after))
            && (forall k :: k in db.containers ==>
                  k in after.containers && after.containers[k].containerType == db.containers[k].containerType)
  {
    var after := Append(db, e, now).value;
    var key := KeyOf(e.bucket);
    if ContainersProjected(db) {
      forall k | k in after.containers
        ensures k.container != "" && IsProjected(after, k)
      {
        if k != key {
          ProjectionElsewhere(db, after, e, now, k);
          assert k in db.containers && IsProjected(db, k);
        }
      }
    }
  }

  lemma DeltaEffect(items: map<Bucket, Item>, e: Entry, m: Measure, b: Bucket)
    requires ApplyDelta(items, e).Ok? && 0 < e.bucket.sku
    ensures b != e.bucket ==> Balance(m, ApplyDelta(items, e).value, b) == Balance(m, items, b)
    ensures Balance(Quantity, ApplyDelta(items, e).value, e.bucket) == Balance(Quantity, items, e.bucket) + e.quantity
    ensures var moved := Balance(Pallets, items, e.bucket) + e.pallets;
            Balance(Pallets, ApplyDelta(items, e).value, e.bucket) == if moved < 0 then 0 else moved
    ensures ItemsSound(items) ==> ItemsSound(ApplyDelta(items, e).value)
  {
  }

  /** The table's own checks leave one gap: an append keeps ledger and balance together exactly when the clamp is idle. */
  lemma AppendAgreesExactlyWhen(db: Db, e: Entry, now: int)
    requires Valid(db) && Append(db, e, now).Ok?
    ensures Agrees(Append(db, e, now).value) <==> NoClamp(db, e)
    ensures ItemsSound(Append(db, e, now).value.items)
  {
    var after := Append(db, e, now).value;
    AppendEffect(db, e, now);
    var row := RowFor(db, e, now);
    forall m, b: Bucket
      ensures Total(m, after.ledger, b) == Total(m, db.ledger, b) + if b == e.bucket then Change(m, row) else 0
    {
      TotalAppend(m, db.ledger, row, b);
    }
    if 0 < e.bucket.sku {
      forall m, b: Bucket {
        DeltaEffect(db.items, e, m, b);
      }
      assert Balance(Pallets, db.items, e.bucket) == Total(Pallets, db.ledger, e.bucket);
      assert Balance(Quantity, db.items, e.bucket) == Total(Quantity, db.ledger, e.bucket);
    }
  }

  lemma AppendKeepsValid(db: Db, e: Entry, now: int)
    requires Valid(db) && Append(db, e, now).Ok? && NoClamp(db, e)
    ensures Valid(Append(db, e, now).value)
  {
    AppendEffect(db, e, now);
    AppendAgreesExactlyWhen(db, e, now);
  }

  /**
    A change is accepted exactly when what is left covers what is reserved, and a new bucket is
    not opened below zero; it moves the balances of its bucket, keeps the reservations, and leaves
    every other bucket alone.
   */
  lemma DeltaExactlyWhen(items: map<Bucket, Item>, e: Entry)
    requires ItemsSound(items) && 0 < e.bucket.sku
    ensures ApplyDelta(items, e).Ok? <==>
              if e.bucket in items
              then && items[e.bucket].Reserved() <= items[e.bucket].quantity + e.quantity
                   && (items[e.bucket].allocatedPallets == 0
                       || items[e.bucket].allocatedPallets <= items[e.bucket].pallets + e.pallets)
              else 0 <= e.quantity && 0 <= e.pallets
    ensures ApplyDelta(items, e).Ok? ==>
              var after := ApplyDelta(items, e).value;
              && ItemsSound(after)
              && (forall b :: b != e.bucket ==> (b in after <==> b in items) && (b in items ==> after[b] == items[b]))
              && (e.bucket in items ==>
                    e.bucket in after
                    && after[e.bucket].Reserved() == items[e.bucket].Reserved()
                    && after[e.bucket].allocatedPallets == items[e.bucket].allocatedPallets)
              && Balance(Quantity, after, e.bucket) == Balance(Quantity, items, e.bucket) + e.quantity
              && (NoClampIn(items, e) ==> Balance(Pallets, after, e.bucket) == Balance(Pallets, items, e.bucket) + e.pallets)
  {
    if e.bucket in items {
      assert items[e.bucket].Sound();
    }
  }

  predicate NoClampIn(items: map<Bucket, Item>, e: Entry) {
    0 <= Held(items, e.bucket).pallets + e.pallets
  }

  /** Recomputing settles one container: doing it again changes nothing, and nothing else is touched. */
  lemma ReprojectionSettles(db: Db, key: ContainerKey)
    requires key.container != ""
    ensures var after := Reproject(db, key);
            && IsProjected(after, key) && Reproject(after, key) == after
            && (key in db.containers ==> after.containers[key].containerType == db.containers[key].containerType)
            && after == db.(containers := after.containers) && after.containers.Keys == db.containers.Keys + {key}
            && (forall k :: k in db.containers && k != key ==> after.containers[k] == db.containers[k])
            && (after == db <==> IsProjected(db, key))
  {
    var after := Reproject(db, key);
    assert Projected(after, key) == Projected(db, key);
    assert after.containers[key := after.containers[key]] == after.containers;
    if IsProjected(db, key) {
      assert db.containers[key := db.containers[key]] == db.containers;
    }
  }
}
