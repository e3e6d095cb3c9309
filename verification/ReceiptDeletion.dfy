/**
  Deleting a single receipt, which is refused while its container has later activity: the
  received stock is given back bucket by bucket, then the document and its rows are erased.
 */
module ReceiptDeletion {
  import opened Wrappers
  import SortedSets
  import opened SourceFreeze
  import opened StockLedger
  import opened StockOperations
  import opened DeletionRollback
  import opened DeletionErase
  import opened InboundDeletion

  // ----- what a receipt left in the ledger

  /** A receipt's row is a RECEIVE in its container, at its place, on its day. */
  predicate ReceiptRow(r: Row, documents: map<Source, Document>) {
    && r.source in documents
    && var receipt := documents[r.source];
       receipt.standing == Posted && r.event == Receive && InContainer(r.bucket, receipt.key)
       && r.bucket.location == receipt.location && r.day == Some(receipt.day)
  }

  ghost predicate ReceiptRowsSound(ledger: seq<Row>, documents: map<Source, Document>) {
    forall i :: 0 <= i < |ledger| && ledger[i].source.kind == Inbound ==> ReceiptRow(ledger[i], documents)
  }

  function Receives(r: Row, own: Source, b: Bucket): bool {
    r.source == own && r.event == Receive && r.bucket == b
  }

  function Received(m: Measure, ledger: seq<Row>, own: Source, b: Bucket): int {
    if ledger == [] then 0
    else
      var r := ledger[|ledger| - 1];
      Received(m, ledger[..|ledger| - 1], own, b) + if Receives(r, own, b) then Change(m, r) else 0
  }

  function ReceivedBuckets(ledger: seq<Row>, own: Source): set<Bucket> {
    set i | 0 <= i < |ledger| && ledger[i].source == own && ledger[i].event == Receive :: ledger[i].bucket
  }

  ghost predicate OnlyReceives(ledger: seq<Row>, own: Source) {
    forall i :: 0 <= i < |ledger| && ledger[i].source == own ==> ledger[i].event == Receive
  }

  /** What a receipt received is what erasing its rows takes off a bucket. */
  lemma {:induction false} ReceivedIsErased(m: Measure, ledger: seq<Row>, own: Source, b: Bucket)
    requires OnlyReceives(ledger, own)
    ensures Total(m, Without(ledger, {own}), b) == Total(m, ledger, b) - Received(m, ledger, own, b)
  {
    if ledger != [] {
      var n := |ledger| - 1;
      ReceivedIsErased(m, ledger[..n], own, b);
      var before := Without(ledger[..n], {own});
      TotalAppend(m, before, ledger[n], b);
      assert before + [] == before;
    }
  }

  lemma {:induction false} NothingReceived(m: Measure, ledger: seq<Row>, own: Source, b: Bucket)
    requires b !in ReceivedBuckets(ledger, own)
    ensures Received(m, ledger, own, b) == 0
  {
    if ledger != [] {
      assert forall c :: c in ReceivedBuckets(ledger[..|ledger| - 1], own) ==> c in ReceivedBuckets(ledger, own);
      NothingReceived(m, ledger[..|ledger| - 1], own, b);
    }
  }

  // ----- when it may be deleted

  /** The received stock of a bucket is all there and free. */
  predicate IsFree(items: map<Bucket, Item>, b: Bucket, quantity: int, pallets: int) {
    && b in items
    && quantity <= Largest(0, items[b].quantity - items[b].Reserved())
    && pallets <= Largest(0, items[b].pallets - items[b].allocatedPallets)
  }

  predicate CanGiveBack(db: Db, own: Source, b: Bucket, now: int) {
    var quantity, pallets := Received(Quantity, db.ledger, own, b), Received(Pallets, db.ledger, own, b);
    && 0 < b.sku && 0 <= quantity && 0 <= pallets
    && (quantity == 0 == pallets ||
        (IsFree(db.items, b, quantity, pallets) && !Frozen(db.invoices, MutationOf(db, b, now))))
  }

  predicate Provenance(ledger: seq<Row>, own: Source, key: ContainerKey) {
    key.container == "" || Boundary(ledger, own) == 0 || LaterSources(ledger, own, key, Boundary(ledger, own)) == {}
  }

  function ReceiptMutation(d: Document): Mutation {
    Mutation(d.key.customer, d.day, {d.location}, d.key.container, d.containerType)
  }

  /** A confirmed receipt is not dated into a period that a live invoice has frozen. */
  predicate ReceiptThawed(db: Db, own: Source)
    requires own in db.documents
  {
    db.documents[own].standing == Posted ==> !Frozen(db.invoices, ReceiptMutation(db.documents[own]))
  }

  /** Drafts may always go; a confirmed receipt only if nothing later, frozen or taken stands in the way. */
  ghost predicate Removable(db: Db, own: Source, now: int)
    requires own in db.documents
  {
    && ReceiptThawed(db, own)
    && (db.documents[own].standing == Posted ==>
      && Provenance(db.ledger, own, db.documents[own].key)
      && forall b :: b in ReceivedBuckets(db.ledger, own) ==> CanGiveBack(db, own, b, now))
  }

  // ----- giving the stock back

  function ReturnEntry(own: Source, b: Bucket, quantity: int, pallets: int, now: int): Entry {
    Entry(EventType.Adjust, b, -quantity, -pallets, own, Some(now), None, None)
  }

  function GiveBack(was: Db, own: Source, b: Bucket, now: int): Entry {
    ReturnEntry(own, b, Received(Quantity, was.ledger, own, b), Received(Pallets, was.ledger, own, b), now)
  }

  function Unmoved(was: map<Bucket, Item>, items: map<Bucket, Item>, b: Bucket): bool {
    (b in items <==> b in was) && (b in was ==> items[b] == was[b])
  }

  /** The stock of the given buckets has been taken off, and nothing else has changed. */
  ghost predicate GivenBack(was: Db, db: Db, own: Source, done: set<Bucket>) {
    && Valid(db) && SameSetting(was, db)
    && (forall b :: b !in done ==> Unmoved(was.items, db.items, b))
    && (forall m, b :: b in done ==>
          Balance(m, db.items, b) == Balance(m, was.items, b) - Received(m, was.ledger, own, b))
    && (forall b :: Reservations(Held(db.items, b)) == Reservations(Held(was.items, b)))
    && |was.ledger| <= |db.ledger| && db.ledger[..|was.ledger|] == was.ledger
    && forall j :: |was.ledger| <= j < |db.ledger| ==> db.ledger[j].source == own
  }

  predicate GivesNothing(was: Db, own: Source, b: Bucket) {
    Received(Quantity, was.ledger, own, b) == 0 == Received(Pallets, was.ledger, own, b)
  }

  /** Nothing given back yet. */
  lemma NothingGivenBack(db: Db, own: Source)
    requires Valid(db)
    ensures GivenBack(db, db, own, {})
  {
    assert db.ledger[..|db.ledger|] == db.ledger;
  }

  ghost predicate Counted(ledger: seq<Row>, own: Source, b: Bucket) {
    0 < b.sku && 0 <= Received(Quantity, ledger, own, b) && 0 <= Received(Pallets, ledger, own, b)
  }

  lemma ReceivedInContainer(db: Db, own: Source, b: Bucket)
    requires RowsSound(db) && b in ReceivedBuckets(db.ledger, own)
    ensures 0 < b.customer && 0 < b.location && (b.container != "" ==> KeyOf(b) in db.containers)
  {
    var i :| 0 <= i < |db.ledger| && db.ledger[i].source == own && db.ledger[i].bucket == b;
    assert RowSound(db.ledger[i], db.containers);
  }

  /** Giving back succeeds exactly when the received stock is free and today is not frozen. */
  lemma GiveBackExactly(was: Db, db: Db, own: Source, done: set<Bucket>, b: Bucket, now: int)
    requires Valid(was) && GivenBack(was, db, own, done) && b in ReceivedBuckets(was.ledger, own) && b !in done
    requires 0 < b.sku && !GivesNothing(was, own, b)
    requires 0 <= Received(Quantity, was.ledger, own, b) && 0 <= Received(Pallets, was.ledger, own, b)
    requires IsFree(db.items, b, Received(Quantity, was.ledger, own, b), Received(Pallets, was.ledger, own, b))
    ensures Append(db, GiveBack(was, own, b, now), now).Ok? <==> CanGiveBack(was, own, b, now)
    ensures NoClamp(db, GiveBack(was, own, b, now))
  {
    ReceivedInContainer(was, own, b);
    SameMutation(was, db, b, now);
    assert Unmoved(was.items, db.items, b) && db.items[b].Sound();
  }

  lemma MovedBalance(items: map<Bucket, Item>, e: Entry, m: Measure, b: Bucket)
    requires 0 < e.bucket.sku && ApplyDelta(items, e).Ok? && 0 <= Held(items, e.bucket).pallets + e.pallets
    ensures b != e.bucket ==> Unmoved(items, ApplyDelta(items, e).value, b)
    ensures Balance(m, ApplyDelta(items, e).value, e.bucket)
         == Balance(m, items, e.bucket) + if m.Quantity? then e.quantity else e.pallets
  {
  }

  lemma GiveBackStep(was: Db, db: Db, own: Source, done: set<Bucket>, b: Bucket, now: int)
    requires Valid(was) && GivenBack(was, db, own, done) && b in ReceivedBuckets(was.ledger, own) && b !in done
    requires 0 < b.sku && NoClamp(db, GiveBack(was, own, b, now)) && Append(db, GiveBack(was, own, b, now), now).Ok?
    ensures GivenBack(was, Append(db, GiveBack(was, own, b, now), now).value, own, done + {b})
  {
    var e := GiveBack(was, own, b, now);
    var after := Append(db, e, now).value;
    ReceivedInContainer(was, own, b);
    AppendKeepsValid(db, e, now);
    AppendEffect(db, e, now);
    assert after.ledger[..|was.ledger|] == db.ledger[..|was.ledger|];
    forall c {
      AppendReservations(db.items, e, c);
    }
    GiveBackBalances(was, db.items, own, done, e);
  }

  lemma GiveBackBalances(was: Db, items: map<Bucket, Item>, own: Source, done: set<Bucket>, e: Entry)
    requires e.quantity == -Received(Quantity, was.ledger, own, e.bucket)
    requires e.pallets == -Received(Pallets, was.ledger, own, e.bucket)
    requires 0 < e.bucket.sku && e.bucket !in done
    requires ApplyDelta(items, e).Ok? && 0 <= Held(items, e.bucket).pallets + e.pallets
    requires forall b :: b !in done ==> Unmoved(was.items, items, b)
    requires forall m, b :: b in done ==> Balance(m, items, b) == Balance(m, was.items, b) - Received(m, was.ledger, own, b)
    ensures var after := ApplyDelta(items, e).value;
            && (forall b :: b !in done + {e.bucket} ==> Unmoved(was.items, after, b))
            && (forall m, b :: b in done + {e.bucket} ==>
                  Balance(m, after, b) == Balance(m, was.items, b) - Received(m, was.ledger, own, b))
  {
    var after := ApplyDelta(items, e).value;
    forall m, b
      ensures b != e.bucket ==> Unmoved(items, after, b) && Balance(m, after, b) == Balance(m, items, b)
      ensures Balance(m, after, e.bucket) == Balance(m, was.items, e.bucket) - Received(m, was.ledger, own, e.bucket)
    {
      MovedBalance(items, e, m, b);
      assert Unmoved(was.items, items, e.bucket);
    }
  }

  lemma GiveBackOutcome(was: Db, db: Db, own: Source, done: set<Bucket>, b: Bucket, now: int) returns (outcome: Result<Db>)
    requires Valid(was) && GivenBack(was, db, own, done) && b in ReceivedBuckets(was.ledger, own) && b !in done
    requires Counted(was.ledger, own, b) && !GivesNothing(was, own, b)
    ensures outcome == Append(db, GiveBack(was, own, b, now), now)
    ensures CanGiveBack(was, own, b, now) <==>
              IsFree(db.items, b, Received(Quantity, was.ledger, own, b), Received(Pallets, was.ledger, own, b)) && outcome.Ok?
    ensures CanGiveBack(was, own, b, now) ==> GivenBack(was, outcome.value, own, done + {b})
  {
    outcome := Append(db, GiveBack(was, own, b, now), now);
    assert Unmoved(was.items, db.items, b);
    if IsFree(db.items, b, Received(Quantity, was.ledger, own, b), Received(Pallets, was.ledger, own, b)) {
      GiveBackExactly(was, db, own, done, b, now);
      if outcome.Ok? {
        GiveBackStep(was, db, own, done, b, now);
      }
    }
  }

  method SumReceived(ledger: seq<Row>, own: Source, b: Bucket) returns (quantity: int, pallets: int)
    ensures quantity == Received(Quantity, ledger, own, b) && pallets == Received(Pallets, ledger, own, b)
  {
    quantity, pallets := 0, 0;
    for i := 0 to |ledger|
      invariant quantity == Received(Quantity, ledger[..i], own, b) && pallets == Received(Pallets, ledger[..i], own, b)
    {
      assert ledger[..i + 1][..i] == ledger[..i];
      if Receives(ledger[i], own, b) {
        quantity, pallets := quantity + ledger[i].quantity, pallets + ledger[i].pallets;
      }
    }
    assert ledger[..|ledger|] == ledger;
  }

  /** The buckets the receipt put something into; complete is false when its history does not add up. */
  method LoadBalances(ledger: seq<Row>, own: Source) returns (complete: bool, buckets: set<Bucket>)
    ensures complete <==> forall b :: b in ReceivedBuckets(ledger, own) ==> Counted(ledger, own, b)
    ensures complete ==>
              buckets == set b | b in ReceivedBuckets(ledger, own)
                                 && !(Received(Quantity, ledger, own, b) == 0 == Received(Pallets, ledger, own, b))
  {
    var all: set<Bucket> := {};
    for i := 0 to |ledger|
      invariant all == set j | 0 <= j < i && ledger[j].source == own && ledger[j].event == Receive :: ledger[j].bucket
    {
      if ledger[i].source == own && ledger[i].event == Receive {
        all := all + {ledger[i].bucket};
      }
    }
    assert all == ReceivedBuckets(ledger, own);
    complete, buckets := true, {};
    var rest := all;
    while rest != {}
      invariant rest <= all
      invariant complete <==> forall b :: b in all - rest ==> Counted(ledger, own, b)
      invariant buckets == set b | b in all - rest
                                   && !(Received(Quantity, ledger, own, b) == 0 == Received(Pallets, ledger, own, b))
      decreases rest
    {
      var b := SortedSets.PickOne(rest);
      assert all - (rest - {b}) == (all - rest) + {b};
      rest := rest - {b};
      var quantity, pallets := SumReceived(ledger, own, b);
      complete := complete && 0 < b.sku && 0 <= quantity && 0 <= pallets;
      if quantity != 0 || pallets != 0 {
        buckets := buckets + {b};
      }
    }
    assert all - rest == all;
  }

  /** Takes the received stock off one bucket, if all of it is there and free. */
  method GiveBackBucket(w: Warehouse, ghost was: Db, ledger: seq<Row>, own: Source, ghost done: set<Bucket>, b: Bucket, now: int)
    returns (error: Option<Error>)
    requires Valid(was) && GivenBack(was, w.State(), own, done) && ledger == was.ledger
    requires b in ReceivedBuckets(was.ledger, own) && b !in done && Counted(was.ledger, own, b) && !GivesNothing(was, own, b)
    modifies w
    ensures error.None? <==> CanGiveBack(was, own, b, now)
    ensures error.None? ==> GivenBack(was, w.State(), own, done + {b})
  {
    var quantity, pallets := SumReceived(ledger, own, b);
    ghost var outcome := GiveBackOutcome(was, w.State(), own, done, b, now);
    if !IsFree(w.items, b, quantity, pallets) {
      return Some(InvalidInput);
    }
    error := w.CreateStockLedgerEntry(ReturnEntry(own, b, quantity, pallets, now), now);
  }

  /** The buckets that were given back are all that received something. */
  ghost predicate NothingLeft(was: Db, own: Source, done: set<Bucket>) {
    forall b :: b in ReceivedBuckets(was.ledger, own) && b !in done ==> GivesNothing(was, own, b)
  }

  /** Takes the received stock off every bucket; the caller abandons the transaction after an error. */
  method ReverseReceipt(w: Warehouse, own: Source, now: int) returns (error: Option<Error>, ghost done: set<Bucket>)
    requires Valid(w.State())
    modifies w
    ensures error.None? <==>
              forall b :: b in ReceivedBuckets(old(w.ledger), own) ==> CanGiveBack(old(w.State()), own, b, now)
    ensures error.None? ==> GivenBack(old(w.State()), w.State(), own, done)
    ensures error.None? ==> NothingLeft(old(w.State()), own, done)
  {
    ghost var was := w.State();
    done := {};
    NothingGivenBack(was, own);
    var complete, buckets := LoadBalances(w.ledger, own);
    if !complete {
      return Some(InvalidInput), done;
    }
    var rest := buckets;
    var ledger := w.ledger;
    while rest != {}
      invariant rest <= buckets && done == buckets - rest
      invariant GivenBack(was, w.State(), own, done)
      invariant forall b :: b in done ==> CanGiveBack(was, own, b, now)
      decreases rest
    {
      var b := SortedSets.PickOne(rest);
      rest := rest - {b};
      error := GiveBackBucket(w, was, ledger, own, done, b, now);
      if error.Some? {
        return;
      }
      done := done + {b};
    }
    error := None;
  }

  // ----- erasing the receipt

  lemma {:induction false} WithoutSuffix(was: seq<Row>, ledger: seq<Row>, own: Source, n: nat)
    requires |was| <= n <= |ledger| && ledger[..|was|] == was
    requires forall j :: |was| <= j < |ledger| ==> ledger[j].source == own
    ensures Without(ledger[..n], {own}) == Without(was, {own})
    decreases n
  {
    if n > |was| {
      WithoutSuffix(was, ledger, own, n - 1);
      assert ledger[..n][..n - 1] == ledger[..n - 1];
    }
  }

  lemma {:induction false} NetOutboundOfOthers(m: Measure, ledger: seq<Row>, own: Source, key: ContainerKey)
    requires own.kind == Inbound
    ensures NetOutbound(m, Without(ledger, {own}), key) == NetOutbound(m, ledger, key)
  {
    if ledger != [] {
      var n := |ledger| - 1;
      var before := Without(ledger[..n], {own});
      NetOutboundOfOthers(m, ledger[..n], own, key);
      if ledger[n].source != own {
        assert (before + [ledger[n]])[..|before|] == before;
      } else {
        assert before + [] == before;
      }
    }
  }

  function ReceiptErased(db: Db, own: Source): Db {
    db.(ledger := Without(db.ledger, {own}), documents := db.documents - {own})
  }

  lemma ErasedProjections(db: Db, own: Source)
    requires own.kind == Inbound && ContainersProjected(db)
    ensures ContainersProjected(ReceiptErased(db, own))
  {
    var after := ReceiptErased(db, own);
    forall key | key in after.containers
      ensures key.container != "" && IsProjected(after, key)
    {
      assert IsProjected(db, key);
      NetOutboundOfOthers(Quantity, db.ledger, own, key);
      NetOutboundOfOthers(Pallets, db.ledger, own, key);
    }
  }

  lemma ErasedReceiptRows(db: Db, own: Source)
    requires RowsSound(db) && ById(db.ledger, db.nextId)
    ensures RowsSound(ReceiptErased(db, own)) && ById(ReceiptErased(db, own).ledger, db.nextId)
  {
    var after := ReceiptErased(db, own);
    WithoutKeepsOrder(db.ledger, {own}, db.nextId);
    forall i | 0 <= i < |after.ledger|
      ensures RowSound(after.ledger[i], after.containers)
    {
      assert after.ledger[i] in after.ledger;
      WithoutMembers(db.ledger, {own}, after.ledger[i]);
    }
  }

  lemma ErasedBalance(m: Measure, was: Db, items: map<Bucket, Item>, own: Source, b: Bucket, given: bool)
    requires OnlyReceives(was.ledger, own) && Balance(m, was.items, b) == Total(m, was.ledger, b)
    requires given ==> Balance(m, items, b) == Balance(m, was.items, b) - Received(m, was.ledger, own, b)
    requires !given ==> Unmoved(was.items, items, b)
    requires !given && b in ReceivedBuckets(was.ledger, own) ==> GivesNothing(was, own, b)
    ensures Balance(m, items, b) == Total(m, Without(was.ledger, {own}), b)
  {
    ReceivedIsErased(m, was.ledger, own, b);
    if !given && b !in ReceivedBuckets(was.ledger, own) {
      NothingReceived(m, was.ledger, own, b);
    }
  }

  lemma ErasedBalances(was: Db, db: Db, own: Source, done: set<Bucket>)
    requires Agrees(was) && GivenBack(was, db, own, done) && OnlyReceives(was.ledger, own)
    requires NothingLeft(was, own, done)
    ensures ReceiptErased(db, own).ledger == Without(was.ledger, {own})
    ensures Agrees(ReceiptErased(db, own))
  {
    WithoutSuffix(was.ledger, db.ledger, own, |db.ledger|);
    assert db.ledger[..|db.ledger|] == db.ledger;
    forall m, b: Bucket | 0 < b.sku
      ensures Balance(m, db.items, b) == Total(m, Without(was.ledger, {own}), b)
    {
      assert b in done || Unmoved(was.items, db.items, b);
      ErasedBalance(m, was, db.items, own, b, b in done);
    }
  }

  lemma ErasedReceiptIsValid(was: Db, db: Db, own: Source, done: set<Bucket>)
    requires own.kind == Inbound && Valid(was) && NoReversals(was.ledger) && OnlyReceives(was.ledger, own)
    requires GivenBack(was, db, own, done)
    requires NothingLeft(was, own, done)
    ensures AsIfNever(was, ReceiptErased(db, own), {own})
  {
    var after := ReceiptErased(db, own);
    ErasedBalances(was, db, own, done);
    ErasedProjections(db, own);
    ErasedReceiptRows(db, own);
    forall i | 0 <= i < |after.ledger|
      ensures after.ledger[i].source.kind != CascadeDelete
    {
      assert after.ledger[i] in after.ledger;
      WithoutMembers(was.ledger, {own}, after.ledger[i]);
    }
  }

  method FindLater(ledger: seq<Row>, own: Source, key: ContainerKey) returns (clear: bool)
    ensures clear <==> Provenance(ledger, own, key)
  {
    if key.container == "" {
      return true;
    }
    var boundary := FindBoundary(ledger, own);
    if boundary <= 0 {
      return true;
    }
    var later := GroupLaterRows(ledger, own, key, boundary);
    return later == {};
  }

  lemma DraftsHaveNoRows(db: Db, own: Source)
    requires own.kind == Inbound && own in db.documents && db.documents[own].standing != Posted
    requires ReceiptRowsSound(db.ledger, db.documents)
    ensures ReceivedBuckets(db.ledger, own) == {}
  {
  }

  /** Recomputing a container that is up to date changes nothing. */
  lemma AlreadyProjected(db: Db, key: ContainerKey)
    requires ContainersProjected(db) && key in db.containers
    ensures Reproject(db, key) == db
  {
    assert IsProjected(db, key);
    assert db.containers[key := db.containers[key]] == db.containers;
  }

  /**
    Deletes the receipt, leaving the tables as if it had never been posted; it succeeds exactly
    when the receipt may be removed. The caller abandons the transaction after an error.
   */
  method DeleteReceipt(w: Warehouse, own: Source, now: int) returns (error: Option<Error>)
    requires own.kind == Inbound && Valid(w.State()) && NoReversals(w.ledger)
    requires ReceiptRowsSound(w.ledger, w.documents)
    modifies w
    ensures error.None? <==> old(own in w.documents && w.documents[own].standing != Withdrawn && Removable(w.State(), own, now))
    ensures error.None? ==> AsIfNever(old(w.State()), w.State(), {own})
  {
    if own !in w.documents {
      return Some(NotFound);
    }
    var receipt := w.documents[own];
    if receipt.standing == Withdrawn {
      return Some(InvalidInput);
    }
    ghost var was := w.State();
    ghost var done := {};
    NothingGivenBack(was, own);
    if receipt.standing == Posted {
      var clear := FindLater(w.ledger, own, receipt.key);
      if !clear {
        return Some(InvalidInput);
      }
      var allowed := CheckMutationsAllowed(w.invoices, [ReceiptMutation(receipt)]);
      assert [ReceiptMutation(receipt)][0] == ReceiptMutation(receipt);
      if !allowed {
        return Some(InvalidInput);
      }
      error, done := ReverseReceipt(w, own, now);
      if error.Some? {
        return;
      }
    } else {
      DraftsHaveNoRows(was, own);
    }
    if receipt.key in w.containers {
      AlreadyProjected(w.State(), receipt.key);
      w.RecomputeContainer(receipt.key);
    }
    EraseReceipt(w, was, own, receipt.key, done);
    error := None;
  }

  method EraseReceipt(w: Warehouse, ghost was: Db, own: Source, key: ContainerKey, ghost done: set<Bucket>)
    requires own.kind == Inbound && Valid(was) && NoReversals(was.ledger) && OnlyReceives(was.ledger, own)
    requires GivenBack(was, w.State(), own, done)
    requires NothingLeft(was, own, done) && HasKey(was, own, key)
    modifies w
    ensures AsIfNever(was, w.State(), {own})
  {
    ErasedReceiptIsValid(was, w.State(), own, done);
    DeleteRows(w, own);
    w.documents := w.documents - {own};
    PurgeKeeps(was, w.State(), {own}, key);
    PurgeContainer(w, key);
  }

  /** A receipt on its own: all or nothing. */
  method CancelInboundDocument(w: Warehouse, id: int, now: int) returns (error: Option<Error>)
    requires Valid(w.State()) && NoReversals(w.ledger) && ReceiptRowsSound(w.ledger, w.documents)
    modifies w
    ensures var own := Source(Inbound, id);
            error.None? <==> old(own in w.documents && w.documents[own].standing != Withdrawn && Removable(w.State(), own, now))
    ensures error.None? ==> AsIfNever(old(w.State()), w.State(), {Source(Inbound, id)})
    ensures error.Some? ==> w.State() == old(w.State())
  {
    var saved := w.State();
    error := DeleteReceipt(w, Source(Inbound, id), now);
    if error.Some? {
      w.Rollback(saved);
    }
  }
}
