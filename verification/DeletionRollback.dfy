/**
  Rolling back a set of source documents, newest ledger row first, and then erasing both their
  rows and the reversals.
 */
module DeletionRollback {
  import opened Wrappers
  import opened SourceFreeze
  import opened StockLedger
  import opened Folds

  // ----- the rows that stay and the rows that go

  function Without(ledger: seq<Row>, sources: set<Source>): seq<Row> {
    if ledger == [] then []
    else
      var r := ledger[|ledger| - 1];
      Without(ledger[..|ledger| - 1], sources) + if r.source in sources then [] else [r]
  }

  /** The rows of the given sources, newest first. */
  function NewestFirst(ledger: seq<Row>, sources: set<Source>): seq<Row> {
    if ledger == [] then []
    else
      var r := ledger[|ledger| - 1];
      (if r.source in sources then [r] else []) + NewestFirst(ledger[..|ledger| - 1], sources)
  }

  /** A bucket's balance once the covered rows from i on have been reversed. */
  function Midway(m: Measure, ledger: seq<Row>, sources: set<Source>, i: nat, b: Bucket): int
    requires i <= |ledger|
    decreases |ledger| - i
  {
    if i == |ledger| then Total(m, ledger, b)
    else Midway(m, ledger, sources, i + 1, b) - Covered(m, ledger[i], sources, b)
  }

  function Covered(m: Measure, r: Row, sources: set<Source>, b: Bucket): int {
    if r.source in sources && r.bucket == b then Change(m, r) else 0
  }

  /** What the rows from i on that stay add to a bucket. */
  function Kept(m: Measure, ledger: seq<Row>, sources: set<Source>, i: nat, b: Bucket): int
    requires i <= |ledger|
    decreases |ledger| - i
  {
    if i == |ledger| then 0
    else (if ledger[i].source !in sources && ledger[i].bucket == b then Change(m, ledger[i]) else 0)
         + Kept(m, ledger, sources, i + 1, b)
  }

  /** The past balance before row i, plus the later rows that stay. */
  lemma {:induction false} MidwayIsPastAndKept(m: Measure, ledger: seq<Row>, sources: set<Source>, i: nat, b: Bucket)
    requires i <= |ledger|
    ensures Midway(m, ledger, sources, i, b) == Total(m, ledger[..i], b) + Kept(m, ledger, sources, i, b)
    decreases |ledger| - i
  {
    if i == |ledger| {
      assert ledger[..i] == ledger;
    } else {
      MidwayIsPastAndKept(m, ledger, sources, i + 1, b);
      assert ledger[..i + 1] == ledger[..i] + [ledger[i]];
      TotalAppend(m, ledger[..i], ledger[i], b);
    }
  }

  lemma {:induction false} KeptIsWithout(m: Measure, ledger: seq<Row>, sources: set<Source>, i: nat, b: Bucket)
    requires i <= |ledger|
    ensures Total(m, Without(ledger[..i], sources), b) + Kept(m, ledger, sources, i, b) == Kept(m, ledger, sources, 0, b)
  {
    if i > 0 {
      KeptIsWithout(m, ledger, sources, i - 1, b);
      assert ledger[..i][..i - 1] == ledger[..i - 1];
      var before := Without(ledger[..i - 1], sources);
      TotalAppend(m, before, ledger[i - 1], b);
      assert before + [] == before;
    }
  }

  /** Once everything covered is reversed, what is left is a replay of the rows that stay. */
  lemma MidwayIsReplay(m: Measure, ledger: seq<Row>, sources: set<Source>, b: Bucket)
    ensures Midway(m, ledger, sources, 0, b) == Total(m, Without(ledger, sources), b)
  {
    MidwayIsPastAndKept(m, ledger, sources, 0, b);
    KeptIsWithout(m, ledger, sources, |ledger|, b);
    assert ledger[..|ledger|] == ledger;
    assert ledger[..0] == [];
  }

  // ----- reversing one row

  function ReversalOf(r: Row, receipt: int, now: int): Entry {
    Entry(EventType.Adjust, r.bucket, -r.quantity, -r.pallets, Source(CascadeDelete, receipt), Some(now), None, None)
  }

  /** The stock needed to take a change back must be there and unreserved. */
  predicate BalanceAllows(items: map<Bucket, Item>, r: Row) {
    if r.quantity <= 0 && r.pallets <= 0 then true
    else
      && r.bucket in items
      && var item := items[r.bucket];
         && item.Reserved() <= item.quantity - r.quantity && 0 <= item.quantity - r.quantity
         && item.allocatedPallets <= item.pallets - r.pallets && 0 <= item.pallets - r.pallets
  }

  function ReverseOne(db: Db, r: Row, receipt: int, now: int): Result<Db> {
    if r.bucket.sku <= 0 then
      if r.quantity == 0 && r.pallets == 0 then Ok(db) else Err(InvalidInput)
    else if !BalanceAllows(db.items, r) then Err(InsufficientStock)
    else Append(db, ReversalOf(r, receipt, now), now)
  }

  function ReverseStep(receipt: int, now: int): (Db, Row) -> Result<Db> {
    (db: Db, r: Row) => ReverseOne(db, r, receipt, now)
  }

  function ReverseAll(db: Db, rows: seq<Row>, receipt: int, now: int): Result<Db> {
    Each(ReverseStep(receipt, now), db, rows)
  }

  // ----- the state while the rollback runs

  function Reservations(item: Item): Item {
    item.(quantity := 0, pallets := 0)
  }

  /** The balances are the old ones with the covered rows from i on taken back; reservations stand. */
  ghost predicate BalancesAt(was: Db, items: map<Bucket, Item>, sources: set<Source>, i: nat)
    requires i <= |was.ledger|
  {
    && (forall m, b: Bucket :: 0 < b.sku ==> Balance(m, items, b) == Midway(m, was.ledger, sources, i, b))
    && (forall b :: Reservations(Held(items, b)) == Reservations(Held(was.items, b)))
  }

  ghost predicate Touched(was: Db, sources: set<Source>, b: Bucket) {
    exists k :: 0 <= k < |was.ledger| && was.ledger[k].source in sources && was.ledger[k].bucket == b
  }

  /** The old ledger is still there, followed by reversals only. */
  ghost predicate ReversalsAfter(was: Db, ledger: seq<Row>, sources: set<Source>, receipt: int) {
    && |was.ledger| <= |ledger| && ledger[..|was.ledger|] == was.ledger
    && forall j :: |was.ledger| <= j < |ledger| ==>
         ledger[j].source == Source(CascadeDelete, receipt) && Touched(was, sources, ledger[j].bucket)
  }

  ghost predicate SameSetting(was: Db, db: Db) {
    && db.invoices == was.invoices && db.documents == was.documents
    && db.containers.Keys == was.containers.Keys
    && forall k :: k in was.containers ==> db.containers[k].containerType == was.containers[k].containerType
  }

  ghost predicate RolledBackTo(was: Db, db: Db, sources: set<Source>, i: nat, receipt: int)
    requires i <= |was.ledger|
  {
    && Valid(db)
    && BalancesAt(was, db.items, sources, i)
    && ReversalsAfter(was, db.ledger, sources, receipt)
    && SameSetting(was, db)
  }

  /** A change dated today in the row's bucket is not frozen. */
  predicate Thawed(db: Db, r: Row, now: int) {
    (r.quantity == 0 && r.pallets == 0) || !Frozen(db.invoices, MutationOf(db, r.bucket, now))
  }

  /** Balances that still hold what is reserved. */
  predicate Suffices(reserved: Item, quantity: int, pallets: int) {
    reserved.Reserved() <= quantity && reserved.allocatedPallets <= pallets
  }

  /** Taking the row back, which leaves the given balances, is allowed today. */
  predicate Takes(db: Db, r: Row, quantity: int, pallets: int, now: int) {
    if r.bucket.sku <= 0 then r.quantity == 0 && r.pallets == 0
    else Thawed(db, r, now) && ((r.quantity <= 0 && r.pallets <= 0) || Suffices(Held(db.items, r.bucket), quantity, pallets))
  }

  /** The i-th row can be taken back: judged from the ledger and today's reservations and freezes alone. */
  ghost predicate CanTakeBack(db: Db, sources: set<Source>, i: nat, now: int)
    requires i < |db.ledger|
  {
    var r := db.ledger[i];
    Takes(db, r, Midway(Quantity, db.ledger, sources, i, r.bucket), Midway(Pallets, db.ledger, sources, i, r.bucket), now)
  }

  /** Once the balance allows it and nothing is frozen, the reversal cannot fail. */
  lemma ReverseOneSucceeds(db: Db, r: Row, receipt: int, now: int)
    requires ItemsSound(db.items) && RowSound(r, db.containers) && 0 < r.bucket.sku
    ensures ReverseOne(db, r, receipt, now).Ok? <==>
              BalanceAllows(db.items, r) && Thawed(db, r, now)
    ensures ReverseOne(db, r, receipt, now).Ok? ==> NoClamp(db, ReversalOf(r, receipt, now))
  {
    assert r.bucket in db.items ==> db.items[r.bucket].Sound();
  }

  lemma GuardArithmetic(items: map<Bucket, Item>, r: Row, reserved: Item, quantity: int, pallets: int)
    requires Held(items, r.bucket).quantity - r.quantity == quantity
    requires Held(items, r.bucket).pallets - r.pallets == pallets
    requires Held(items, r.bucket).Reserved() == reserved.Reserved()
    requires Held(items, r.bucket).allocatedPallets == reserved.allocatedPallets
    requires r.bucket in items ==> items[r.bucket].Sound()
    ensures BalanceAllows(items, r) <==> (r.quantity <= 0 && r.pallets <= 0) || Suffices(reserved, quantity, pallets)
  {
  }

  /** The guard on today's stock is a guard on the balance the rollback has come back to. */
  lemma GuardReadsMidway(was: Db, items: map<Bucket, Item>, sources: set<Source>, i: nat)
    requires i < |was.ledger| && was.ledger[i].source in sources && 0 < was.ledger[i].bucket.sku
    requires BalancesAt(was, items, sources, i + 1) && ItemsSound(items)
    ensures var r := was.ledger[i];
            var quantity := Midway(Quantity, was.ledger, sources, i, r.bucket);
            var pallets := Midway(Pallets, was.ledger, sources, i, r.bucket);
            BalanceAllows(items, r) <==> (r.quantity <= 0 && r.pallets <= 0) || Suffices(Held(was.items, r.bucket), quantity, pallets)
  {
    var r := was.ledger[i];
    BucketQuantity(was, items, sources, i, r.bucket);
    BucketPallets(was, items, sources, i, r.bucket);
    BucketReserved(was, items, sources, i + 1, r.bucket);
    GuardArithmetic(items, r, Held(was.items, r.bucket), Midway(Quantity, was.ledger, sources, i, r.bucket),
                    Midway(Pallets, was.ledger, sources, i, r.bucket));
  }

  lemma BucketQuantity(was: Db, items: map<Bucket, Item>, sources: set<Source>, i: nat, b: Bucket)
    requires i < |was.ledger| && was.ledger[i].source in sources && was.ledger[i].bucket == b && 0 < b.sku
    requires BalancesAt(was, items, sources, i + 1)
    ensures Held(items, b).quantity - was.ledger[i].quantity == Midway(Quantity, was.ledger, sources, i, b)
  {
    assert Balance(Quantity, items, b) == Midway(Quantity, was.ledger, sources, i + 1, b);
  }

  lemma BucketPallets(was: Db, items: map<Bucket, Item>, sources: set<Source>, i: nat, b: Bucket)
    requires i < |was.ledger| && was.ledger[i].source in sources && was.ledger[i].bucket == b && 0 < b.sku
    requires BalancesAt(was, items, sources, i + 1)
    ensures Held(items, b).pallets - was.ledger[i].pallets == Midway(Pallets, was.ledger, sources, i, b)
  {
    assert Balance(Pallets, items, b) == Midway(Pallets, was.ledger, sources, i + 1, b);
  }

  lemma BucketReserved(was: Db, items: map<Bucket, Item>, sources: set<Source>, i: nat, b: Bucket)
    requires i <= |was.ledger| && BalancesAt(was, items, sources, i)
    ensures Held(items, b).Reserved() == Held(was.items, b).Reserved()
    ensures Held(items, b).allocatedPallets == Held(was.items, b).allocatedPallets
  {
    ReservedAlike(Held(items, b), Held(was.items, b));
  }

  lemma ReservedAlike(x: Item, y: Item)
    ensures Reservations(x) == Reservations(y) ==> x.Reserved() == y.Reserved() && x.allocatedPallets == y.allocatedPallets
  {
    assert Reservations(x).allocatedQty == x.allocatedQty && Reservations(y).allocatedQty == y.allocatedQty;
    assert Reservations(x).damagedQty == x.damagedQty && Reservations(y).damagedQty == y.damagedQty;
    assert Reservations(x).holdQty == x.holdQty && Reservations(y).holdQty == y.holdQty;
  }

  lemma SameMutation(was: Db, db: Db, b: Bucket, now: int)
    requires SameSetting(was, db)
    ensures MutationOf(db, b, now) == MutationOf(was, b, now)
  {
  }

  lemma ReverseOneExactly(was: Db, db: Db, sources: set<Source>, i: nat, receipt: int, now: int)
    requires RowsSound(was) && i < |was.ledger| && was.ledger[i].source in sources
    requires ItemsSound(db.items) && BalancesAt(was, db.items, sources, i + 1) && SameSetting(was, db)
    ensures ReverseOne(db, was.ledger[i], receipt, now).Ok? <==> CanTakeBack(was, sources, i, now)
  {
    var r := was.ledger[i];
    assert RowSound(r, was.containers);
    if 0 < r.bucket.sku {
      GuardReadsMidway(was, db.items, sources, i);
      ReverseOneSucceeds(db, r, receipt, now);
      SameMutation(was, db, r.bucket, now);
    }
  }

  /** A row that is not covered, or has an unknown SKU, moves no balance on the way back. */
  lemma SkipRow(was: Db, items: map<Bucket, Item>, sources: set<Source>, i: nat)
    requires i < |was.ledger| && BalancesAt(was, items, sources, i + 1)
    requires was.ledger[i].source in sources ==> was.ledger[i].bucket.sku <= 0
    ensures BalancesAt(was, items, sources, i)
  {
    forall m, b: Bucket | 0 < b.sku
      ensures Balance(m, items, b) == Midway(m, was.ledger, sources, i, b)
    {
    }
  }

  lemma AppendReservations(items: map<Bucket, Item>, e: Entry, b: Bucket)
    requires ApplyDelta(items, e).Ok?
    ensures Reservations(Held(ApplyDelta(items, e).value, b)) == Reservations(Held(items, b))
  {
  }

  lemma ReversedBalances(was: Db, items: map<Bucket, Item>, sources: set<Source>, i: nat, e: Entry, m: Measure, b: Bucket)
    requires i < |was.ledger| && was.ledger[i].source in sources && 0 < was.ledger[i].bucket.sku && 0 < b.sku
    requires Balance(m, items, b) == Midway(m, was.ledger, sources, i + 1, b)
    requires e.bucket == was.ledger[i].bucket && e.quantity == -was.ledger[i].quantity && e.pallets == -was.ledger[i].pallets
    requires ApplyDelta(items, e).Ok? && 0 <= Held(items, e.bucket).pallets + e.pallets
    ensures Balance(m, ApplyDelta(items, e).value, b) == Midway(m, was.ledger, sources, i, b)
  {
    DeltaEffect(items, e, m, b);
  }

  lemma BalancesStep(was: Db, items: map<Bucket, Item>, sources: set<Source>, i: nat, e: Entry)
    requires i < |was.ledger| && was.ledger[i].source in sources && 0 < was.ledger[i].bucket.sku
    requires BalancesAt(was, items, sources, i + 1)
    requires e.bucket == was.ledger[i].bucket && e.quantity == -was.ledger[i].quantity && e.pallets == -was.ledger[i].pallets
    requires ApplyDelta(items, e).Ok? && 0 <= Held(items, e.bucket).pallets + e.pallets
    ensures BalancesAt(was, ApplyDelta(items, e).value, sources, i)
  {
    forall m, b: Bucket | 0 < b.sku
      ensures Balance(m, ApplyDelta(items, e).value, b) == Midway(m, was.ledger, sources, i, b)
    {
      ReversedBalances(was, items, sources, i, e, m, b);
    }
    forall b {
      AppendReservations(items, e, b);
    }
  }

  lemma ReversalsStep(was: Db, ledger: seq<Row>, r: Row, sources: set<Source>, i: nat, receipt: int)
    requires i < |was.ledger| && was.ledger[i].source in sources && r.bucket == was.ledger[i].bucket
    requires r.source == Source(CascadeDelete, receipt)
    requires ReversalsAfter(was, ledger, sources, receipt)
    ensures ReversalsAfter(was, ledger + [r], sources, receipt)
  {
    assert (ledger + [r])[..|was.ledger|] == ledger[..|was.ledger|];
    assert Touched(was, sources, r.bucket);
  }

  lemma ReverseOneStep(was: Db, db: Db, sources: set<Source>, i: nat, receipt: int, now: int)
    requires RowsSound(was) && i < |was.ledger| && was.ledger[i].source in sources
    requires RolledBackTo(was, db, sources, i + 1, receipt)
    requires ReverseOne(db, was.ledger[i], receipt, now).Ok?
    ensures RolledBackTo(was, ReverseOne(db, was.ledger[i], receipt, now).value, sources, i, receipt)
  {
    var r := was.ledger[i];
    assert RowSound(r, was.containers);
    if r.bucket.sku <= 0 {
      SkipRow(was, db.items, sources, i);
    } else {
      var e := ReversalOf(r, receipt, now);
      ReverseOneSucceeds(db, r, receipt, now);
      AppendKeepsValid(db, e, now);
      AppendEffect(db, e, now);
      BalancesStep(was, db.items, sources, i, e);
      ReversalsStep(was, db.ledger, RowFor(db, e, now), sources, i, receipt);
    }
  }

  ghost predicate AllTakeable(db: Db, sources: set<Source>, i: nat, now: int)
    requires i <= |db.ledger|
  {
    forall j :: 0 <= j < i && db.ledger[j].source in sources ==> CanTakeBack(db, sources, j, now)
  }

  lemma NewestFirstStep(ledger: seq<Row>, sources: set<Source>, i: nat)
    requires i < |ledger|
    ensures NewestFirst(ledger[..i + 1], sources)
         == (if ledger[i].source in sources then [ledger[i]] else []) + NewestFirst(ledger[..i], sources)
    ensures ledger[i].source !in sources ==> NewestFirst(ledger[..i + 1], sources) == NewestFirst(ledger[..i], sources)
  {
    assert ledger[..i + 1][..i] == ledger[..i];
  }

  /**
    Newest first: if every step over a covered row succeeds exactly when that row can go, and
    leads from a good state to a good state, then the steps over all covered rows do.
   */
  lemma {:induction false} StepsNewestFirst(step: (Db, Row) -> Result<Db>, ledger: seq<Row>, sources: set<Source>,
                                            good: (nat, Db) -> bool, can: nat -> bool, i: nat, db: Db)
    requires i <= |ledger| && good(i, db)
    requires forall k: nat, s :: k < |ledger| && ledger[k].source in sources && good(k + 1, s) ==>
               && (step(s, ledger[k]).Ok? <==> can(k))
               && (step(s, ledger[k]).Ok? ==> good(k, step(s, ledger[k]).value))
    requires forall k: nat, s :: k < |ledger| && ledger[k].source !in sources && good(k + 1, s) ==> good(k, s)
    ensures var end := Each(step, db, NewestFirst(ledger[..i], sources));
            && (end.Ok? <==> forall k :: 0 <= k < i && ledger[k].source in sources ==> can(k))
            && (end.Ok? ==> good(0, end.value))
    decreases i
  {
    if i > 0 {
      var r := ledger[i - 1];
      NewestFirstStep(ledger, sources, i - 1);
      if r.source !in sources {
        StepsNewestFirst(step, ledger, sources, good, can, i - 1, db);
      } else {
        EachStep(step, db, r, NewestFirst(ledger[..i - 1], sources));
        if step(db, r).Ok? {
          StepsNewestFirst(step, ledger, sources, good, can, i - 1, step(db, r).value);
        }
      }
    }
  }

  ghost function Good(was: Db, sources: set<Source>, receipt: int): (nat, Db) -> bool {
    (i: nat, db: Db) => i <= |was.ledger| && RolledBackTo(was, db, sources, i, receipt)
  }

  ghost function Can(was: Db, sources: set<Source>, now: int): nat -> bool {
    (i: nat) => i < |was.ledger| && CanTakeBack(was, sources, i, now)
  }

  lemma ReversingOne(was: Db, db: Db, sources: set<Source>, i: nat, receipt: int, now: int)
    requires RowsSound(was) && i < |was.ledger| && was.ledger[i].source in sources
    requires RolledBackTo(was, db, sources, i + 1, receipt)
    ensures ReverseStep(receipt, now)(db, was.ledger[i]).Ok? <==> CanTakeBack(was, sources, i, now)
    ensures ReverseStep(receipt, now)(db, was.ledger[i]).Ok? ==>
              RolledBackTo(was, ReverseStep(receipt, now)(db, was.ledger[i]).value, sources, i, receipt)
  {
    ReverseOneExactly(was, db, sources, i, receipt, now);
    if ReverseOne(db, was.ledger[i], receipt, now).Ok? {
      ReverseOneStep(was, db, sources, i, receipt, now);
    }
  }

  /**
    The rollback of all covered rows succeeds if and only if every one of them can be taken
    back, and then every balance is the replay of the rows that stay.
   */
  lemma RollbackExactly(was: Db, db: Db, sources: set<Source>, i: nat, receipt: int, now: int)
    requires RowsSound(was) && i <= |was.ledger|
    requires RolledBackTo(was, db, sources, i, receipt)
    ensures var end := ReverseAll(db, NewestFirst(was.ledger[..i], sources), receipt, now);
            && (end.Ok? <==> AllTakeable(was, sources, i, now))
            && (end.Ok? ==> RolledBackTo(was, end.value, sources, 0, receipt))
  {
    var step, good, can := ReverseStep(receipt, now), Good(was, sources, receipt), Can(was, sources, now);
    forall k: nat, s | k < |was.ledger| && was.ledger[k].source in sources && good(k + 1, s)
      ensures step(s, was.ledger[k]).Ok? <==> can(k)
      ensures step(s, was.ledger[k]).Ok? ==> good(k, step(s, was.ledger[k]).value)
    {
      ReversingOne(was, s, sources, k, receipt, now);
    }
    forall k: nat, s | k < |was.ledger| && was.ledger[k].source !in sources && good(k + 1, s)
      ensures good(k, s)
    {
      SkipRow(was, s.items, sources, k);
    }
    StepsNewestFirst(step, was.ledger, sources, good, can, i, db);
  }

  /** Nothing reversed yet. */
  lemma RollbackStart(db: Db, sources: set<Source>, receipt: int)
    requires Valid(db)
    ensures RolledBackTo(db, db, sources, |db.ledger|, receipt)
  {
    assert db.ledger[..|db.ledger|] == db.ledger;
  }

  // ----- retracing history

  /** On every touched bucket the covered rows are the last ones. */
  ghost predicate SuffixOnBuckets(ledger: seq<Row>, sources: set<Source>) {
    forall i, j :: 0 <= i < j < |ledger| && ledger[i].source in sources && ledger[j].bucket == ledger[i].bucket ==>
      ledger[j].source in sources
  }

  lemma {:induction false} NothingKept(m: Measure, ledger: seq<Row>, sources: set<Source>, i: nat, b: Bucket)
    requires i <= |ledger|
    requires forall j :: i <= j < |ledger| && ledger[j].bucket == b ==> ledger[j].source in sources
    ensures Kept(m, ledger, sources, i, b) == 0
    decreases |ledger| - i
  {
    if i < |ledger| {
      NothingKept(m, ledger, sources, i + 1, b);
    }
  }

  /**
    When the covered rows end the history of every bucket they touch, each intermediate balance
    is the bucket's past balance just before the row, so a row can only be refused because
    today's reservations (or a freeze of today, or an unknown SKU) stand against that past balance.
   */
  lemma RollbackRetracesHistory(db: Db, sources: set<Source>, i: nat, now: int)
    requires Valid(db) && SuffixOnBuckets(db.ledger, sources)
    requires i < |db.ledger| && db.ledger[i].source in sources
    ensures forall m :: Midway(m, db.ledger, sources, i, db.ledger[i].bucket) == Total(m, db.ledger[..i], db.ledger[i].bucket)
    ensures var r := db.ledger[i];
            CanTakeBack(db, sources, i, now) <==>
              Takes(db, r, Total(Quantity, db.ledger[..i], r.bucket), Total(Pallets, db.ledger[..i], r.bucket), now)
  {
    var b := db.ledger[i].bucket;
    forall m
      ensures Midway(m, db.ledger, sources, i, b) == Total(m, db.ledger[..i], b)
    {
      MidwayIsPastAndKept(m, db.ledger, sources, i, b);
      NothingKept(m, db.ledger, sources, i, b);
    }
  }
}
