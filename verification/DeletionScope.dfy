/**
  Which documents and rows a deletion takes along, said in terms of the rows and of the pick links
  alone.
 */
module DeletionScope {
  import opened Wrappers
  import opened SourceFreeze
  import opened StockLedger
  import opened DeletionRollback
  import opened DeletionErase
  import opened InboundDeletion
  import opened ReceiptDeletion

  predicate IsReceiveRow(r: Row, own: Source) {
    r.source == own && r.event == Receive
  }

  /** A row of the receipt's container that was recorded after everything the receipt received. */
  ghost predicate CameLater(db: Db, own: Source, r: Row)
    requires own in db.documents
  {
    var document := db.documents[own];
    && document.standing == Posted && document.key.container != ""
    && r in db.ledger && r.source != own && r.source.kind != CascadeDelete
    && r.bucket.customer == document.key.customer && r.bucket.container == document.key.container
    && (exists q :: q in db.ledger && IsReceiveRow(q, own) && 0 < q.id)
    && (forall q :: q in db.ledger && IsReceiveRow(q, own) ==> q.id < r.id)
  }

  /** What the shipment s shipped was picked from the transfer t. */
  predicate PickedFrom(s: Source, t: Source, links: map<int, set<int>>) {
    s.kind == Outbound && s.id in links && t.kind == Transfer && 0 < t.id && t.id in links[s.id]
  }

  /** Came later itself, or was picked from by a shipment that did. */
  ghost predicate TakenAlong(db: Db, own: Source, links: map<int, set<int>>, s: Source)
    requires own in db.documents
  {
    exists r :: CameLater(db, own, r) && (r.source == s || PickedFrom(r.source, s, links))
  }

  lemma {:induction false} BoundaryIsNewest(ledger: seq<Row>, own: Source)
    ensures forall q :: q in ledger && IsReceiveRow(q, own) ==> q.id <= Boundary(ledger, own)
    ensures 0 < Boundary(ledger, own) ==> exists q :: q in ledger && IsReceiveRow(q, own) && q.id == Boundary(ledger, own)
  {
    if ledger != [] {
      var n := |ledger| - 1;
      BoundaryIsNewest(ledger[..n], own);
      assert ledger == ledger[..n] + [ledger[n]];
      assert ledger[n] in ledger;
    }
  }

  /** A version is the id of the document's newest row in any container. */
  lemma {:induction false} LastIdIsNewest(ledger: seq<Row>, s: Source)
    ensures forall q :: q in ledger && q.source == s ==> q.id <= LastId(ledger, s)
    ensures 0 < LastId(ledger, s) ==> exists q :: q in ledger && q.source == s && q.id == LastId(ledger, s)
  {
    if ledger != [] {
      var n := |ledger| - 1;
      LastIdIsNewest(ledger[..n], s);
      assert ledger == ledger[..n] + [ledger[n]];
      assert ledger[n] in ledger;
    }
  }

  lemma LaterExactly(db: Db, own: Source, s: Source)
    requires own in db.documents
    ensures s in Later(db, own) <==> exists r :: CameLater(db, own, r) && r.source == s
  {
    var key, boundary := db.documents[own].key, Boundary(db.ledger, own);
    BoundaryIsNewest(db.ledger, own);
    if s in Later(db, own) {
      var i :| 0 <= i < |db.ledger| && IsLater(db.ledger[i], own, key, boundary) && db.ledger[i].source == s;
      assert CameLater(db, own, db.ledger[i]);
    }
    if r :| CameLater(db, own, r) && r.source == s {
      var i :| 0 <= i < |db.ledger| && db.ledger[i] == r;
      assert IsLater(db.ledger[i], own, key, boundary);
    }
  }

  /** The listed documents are those that came later, but for transfers that a later shipment was picked from. */
  lemma PlannedExactly(db: Db, own: Source, links: map<int, set<int>>, s: Source)
    requires own in db.documents && forall p :: p in Later(db, own) && p.kind == Outbound ==> 0 < p.id
    ensures s in Planned(db, own, links) <==>
              && (exists r :: CameLater(db, own, r) && r.source == s)
              && !(exists r :: CameLater(db, own, r) && PickedFrom(r.source, s, links))
  {
    LaterExactly(db, own, s);
    forall p
      ensures p in Later(db, own) <==> exists r :: CameLater(db, own, r) && r.source == p
    {
      LaterExactly(db, own, p);
    }
    LinkedExactly(Later(db, own), links, s);
  }

  lemma LinkedExactly(sources: set<Source>, links: map<int, set<int>>, t: Source)
    requires forall p :: p in sources && p.kind == Outbound ==> 0 < p.id
    ensures t in Transfers(sources, links) <==> exists p :: p in sources && PickedFrom(p, t, links)
  {
    if p :| p in sources && PickedFrom(p, t, links) {
      assert t in TransfersOf(p, links);
    }
  }

  /** A deletion covers the receipt and what is taken along with it. */
  lemma CoverageExactly(db: Db, own: Source, links: map<int, set<int>>, s: Source)
    requires own in db.documents && forall p :: p in Planned(db, own, links) ==> Reversible(db, p)
    ensures s in Coverage(db, own, links) <==> s == own || TakenAlong(db, own, links, s)
  {
    var later, planned := Later(db, own), Planned(db, own, links);
    forall p | p in later && p.kind == Outbound
      ensures p in planned && 0 < p.id
    {
      assert p !in Transfers(later, links);
    }
    LaterIsCovered(own, later, links);
    LaterExactly(db, own, s);
    LinkedExactly(planned, links, s);
    if s in Transfers(planned, links) {
      var p :| p in planned && PickedFrom(p, s, links);
      LaterExactly(db, own, p);
    }
    if r :| CameLater(db, own, r) && PickedFrom(r.source, s, links) {
      LaterExactly(db, own, r.source);
      assert r.source in planned && s in Transfers(planned, links);
    }
  }

  /**
    After a successful deletion exactly these rows are gone: the receipt's own, those of documents
    with a later row in its container, and those of the transfers that such shipments were picked
    from. Every other row stays.
   */
  lemma ErasedExactly(was: Db, after: Db, own: Source, links: map<int, set<int>>, selected: seq<Selection>, now: int)
    requires Deletable(was, own, links, selected, now) && AsIfNever(was, after, Coverage(was, own, links))
    ensures forall r :: r in after.ledger <==> r in was.ledger && r.source != own && !TakenAlong(was, own, links, r.source)
    ensures forall s :: s in after.documents <==> s in was.documents && s != own && !TakenAlong(was, own, links, s)
  {
    forall s
      ensures s in Coverage(was, own, links) <==> s == own || TakenAlong(was, own, links, s)
    {
      CoverageExactly(was, own, links, s);
    }
    forall r {
      WithoutMembers(was.ledger, Coverage(was, own, links), r);
    }
  }

  // ----- when a deletion goes through

  ghost predicate GoesAlong(db: Db, own: Source, links: map<int, set<int>>, s: Source)
    requires own in db.documents
  {
    s == own || TakenAlong(db, own, links, s)
  }

  /** Shown to the caller: came later, and no later shipment was picked from it. */
  ghost predicate Listed(db: Db, own: Source, links: map<int, set<int>>, s: Source)
    requires own in db.documents
  {
    && (exists r :: CameLater(db, own, r) && r.source == s)
    && !(exists r :: CameLater(db, own, r) && PickedFrom(r.source, s, links))
  }

  /** A shipment, transfer, adjustment, count or receipt with a number that has not been withdrawn. */
  predicate MayBeUndone(db: Db, s: Source) {
    && 0 < s.id && s.kind != CascadeDelete && s.kind != Opening
    && s in db.documents && db.documents[s].standing != Withdrawn
  }

  predicate IsNewestRow(ledger: seq<Row>, s: Source, id: int) {
    && (exists q :: q in ledger && q.source == s && q.id == id)
    && forall q :: q in ledger && q.source == s ==> q.id <= id
  }

  /** The caller has named every listed document once, and at the version of its newest row. */
  ghost predicate NamesListed(db: Db, own: Source, links: map<int, set<int>>, selected: seq<Selection>)
    requires own in db.documents
  {
    && (forall s :: (exists i :: 0 <= i < |selected| && selected[i].source == s) <==> Listed(db, own, links, s))
    && (forall i, j :: 0 <= i < j < |selected| ==> selected[i].source != selected[j].source)
    && forall i :: 0 <= i < |selected| ==> IsNewestRow(db.ledger, selected[i].source, selected[i].lastId)
  }

  /** A change in the bucket on that day; a container with a record has its type. */
  function ChangeAt(db: Db, b: Bucket, day: int): Mutation {
    var key := ContainerKey(b.customer, b.container);
    Mutation(b.customer, day, {b.location}, b.container,
             if b.container != "" && key in db.containers then db.containers[key].containerType else "")
  }

  /** What the rows from i on that do not go along add to a bucket. */
  ghost function StaysFrom(m: Measure, db: Db, own: Source, links: map<int, set<int>>, i: nat, b: Bucket): int
    requires own in db.documents && i <= |db.ledger|
    decreases |db.ledger| - i
  {
    if i == |db.ledger| then 0
    else
      var r := db.ledger[i];
      (if r.bucket == b && !GoesAlong(db, own, links, r.source) then if m.Quantity? then r.quantity else r.pallets else 0)
      + StaysFrom(m, db, own, links, i + 1, b)
  }

  /**
    The row can be undone today, leaving so much: unless it is empty, nothing freezes its bucket,
    and if it brought stock, what is left covers what is reserved.
   */
  predicate MayLeave(db: Db, r: Row, quantity: int, pallets: int, now: int) {
    r.quantity == 0 == r.pallets
    || (&& 0 < r.bucket.sku && !Frozen(db.invoices, ChangeAt(db, r.bucket, now))
        && ((r.quantity <= 0 && r.pallets <= 0) || Suffices(Held(db.items, r.bucket), quantity, pallets)))
  }

  /** What undoing row i leaves in a bucket: what was there before it, and what stays of the later rows. */
  ghost function LeftIn(m: Measure, db: Db, own: Source, links: map<int, set<int>>, i: nat, b: Bucket): int
    requires own in db.documents && i <= |db.ledger|
  {
    Total(m, db.ledger[..i], b) + StaysFrom(m, db, own, links, i, b)
  }

  ghost predicate MayUndo(db: Db, own: Source, links: map<int, set<int>>, i: nat, now: int)
    requires own in db.documents && i < |db.ledger|
  {
    var r := db.ledger[i];
    MayLeave(db, r, LeftIn(Quantity, db, own, links, i, r.bucket), LeftIn(Pallets, db, own, links, i, r.bucket), now)
  }

  lemma {:induction false} StaysIsKept(m: Measure, db: Db, own: Source, links: map<int, set<int>>, sources: set<Source>, i: nat, b: Bucket)
    requires own in db.documents && i <= |db.ledger| && forall s :: s in sources <==> GoesAlong(db, own, links, s)
    ensures StaysFrom(m, db, own, links, i, b) == Kept(m, db.ledger, sources, i, b)
    decreases |db.ledger| - i
  {
    if i < |db.ledger| {
      StaysIsKept(m, db, own, links, sources, i + 1, b);
    }
  }

  lemma SameChange(db: Db, b: Bucket, day: int)
    ensures MutationOf(db, b, day) == ChangeAt(db, b, day)
  {
  }

  lemma TakesExactly(db: Db, r: Row, quantity: int, pallets: int, now: int)
    ensures Takes(db, r, quantity, pallets, now) <==> MayLeave(db, r, quantity, pallets, now)
  {
    SameChange(db, r.bucket, now);
  }

  lemma MidwayTells(m: Measure, db: Db, own: Source, links: map<int, set<int>>, sources: set<Source>, i: nat, b: Bucket)
    requires own in db.documents && i <= |db.ledger| && forall s :: s in sources <==> GoesAlong(db, own, links, s)
    ensures Midway(m, db.ledger, sources, i, b) == LeftIn(m, db, own, links, i, b)
  {
    MidwayIsPastAndKept(m, db.ledger, sources, i, b);
    StaysIsKept(m, db, own, links, sources, i, b);
  }

  lemma TakeBackIs(db: Db, sources: set<Source>, i: nat, now: int, quantity: int, pallets: int)
    requires i < |db.ledger| && quantity == Midway(Quantity, db.ledger, sources, i, db.ledger[i].bucket)
    requires pallets == Midway(Pallets, db.ledger, sources, i, db.ledger[i].bucket)
    ensures CanTakeBack(db, sources, i, now) <==> Takes(db, db.ledger[i], quantity, pallets, now)
  {
  }

  lemma UndoIs(db: Db, own: Source, links: map<int, set<int>>, i: nat, now: int, quantity: int, pallets: int)
    requires own in db.documents && i < |db.ledger|
    requires var b := db.ledger[i].bucket;
             quantity == LeftIn(Quantity, db, own, links, i, b) && pallets == LeftIn(Pallets, db, own, links, i, b)
    ensures MayUndo(db, own, links, i, now) <==> MayLeave(db, db.ledger[i], quantity, pallets, now)
  {
  }

  lemma UndoneExactly(db: Db, own: Source, links: map<int, set<int>>, sources: set<Source>, i: nat, now: int)
    requires own in db.documents && i < |db.ledger| && forall s :: s in sources <==> GoesAlong(db, own, links, s)
    ensures CanTakeBack(db, sources, i, now) <==> MayUndo(db, own, links, i, now)
  {
    var b := db.ledger[i].bucket;
    var quantity, pallets := Midway(Quantity, db.ledger, sources, i, b), Midway(Pallets, db.ledger, sources, i, b);
    MidwayTells(Quantity, db, own, links, sources, i, b);
    MidwayTells(Pallets, db, own, links, sources, i, b);
    TakeBackIs(db, sources, i, now, quantity, pallets);
    UndoIs(db, own, links, i, now, quantity, pallets);
    TakesExactly(db, db.ledger[i], quantity, pallets, now);
  }

  lemma NewestExactly(ledger: seq<Row>, s: Source, id: int)
    requires exists q :: q in ledger && q.source == s && 0 < q.id
    ensures id == LastId(ledger, s) <==> IsNewestRow(ledger, s, id)
  {
    LastIdIsNewest(ledger, s);
  }

  lemma ListedExactly(db: Db, own: Source, links: map<int, set<int>>, s: Source)
    requires own in db.documents
    requires (forall p :: p in Planned(db, own, links) ==> Reversible(db, p))
             || (forall p :: Listed(db, own, links, p) ==> MayBeUndone(db, p))
    ensures s in Planned(db, own, links) <==> Listed(db, own, links, s)
  {
    forall p | p in Later(db, own) && p.kind == Outbound
      ensures 0 < p.id
    {
      LaterExactly(db, own, p);
      assert p !in Transfers(Later(db, own), links) && p in Planned(db, own, links);
      assert Listed(db, own, links, p);
    }
    PlannedExactly(db, own, links, s);
  }

  lemma NamedExactly(db: Db, own: Source, links: map<int, set<int>>, selected: seq<Selection>)
    requires own in db.documents && forall s :: s in Planned(db, own, links) <==> Listed(db, own, links, s)
    ensures Confirms(selected, db, Planned(db, own, links)) <==> NamesListed(db, own, links, selected)
  {
    forall s
      ensures s in SelectedSources(selected) <==> exists i :: 0 <= i < |selected| && selected[i].source == s
    {
    }
    forall s, id | Listed(db, own, links, s)
      ensures id == LastId(db.ledger, s) <==> IsNewestRow(db.ledger, s, id)
    {
      NewestExactly(db.ledger, s, id);
    }
    if NamesListed(db, own, links, selected) {
      assert SelectedSources(selected) == Planned(db, own, links);
    }
    if Confirms(selected, db, Planned(db, own, links)) || NamesListed(db, own, links, selected) {
      forall i | 0 <= i < |selected|
        ensures Listed(db, own, links, selected[i].source)
      {
        assert selected[i].source in SelectedSources(selected);
      }
    }
  }

  /** No row that goes lies in a period that a live invoice has frozen; a row without a day was made on the day it was created. */
  ghost predicate NoneFrozen(db: Db, own: Source, links: map<int, set<int>>)
    requires own in db.documents
  {
    forall r :: r in db.ledger && GoesAlong(db, own, links, r.source) ==>
      !Frozen(db.invoices, ChangeAt(db, r.bucket, if r.day.Some? then r.day.value else r.created))
  }

  lemma FrozenExactly(db: Db, own: Source, links: map<int, set<int>>, sources: set<Source>)
    requires own in db.documents && forall s :: s in sources <==> GoesAlong(db, own, links, s)
    ensures NothingFrozen(db, sources) <==> NoneFrozen(db, own, links)
  {
    forall r: Row
      ensures RowMutation(db, r) == ChangeAt(db, r.bucket, if r.day.Some? then r.day.value else r.created)
    {
    }
    if NoneFrozen(db, own, links) {
      forall i | 0 <= i < |db.ledger| && db.ledger[i].source in sources
        ensures !Frozen(db.invoices, RowMutation(db, db.ledger[i]))
      {
        assert db.ledger[i] in db.ledger;
      }
    }
  }

  ghost predicate AllUndoable(db: Db, own: Source, links: map<int, set<int>>, now: int)
    requires own in db.documents
  {
    forall i :: 0 <= i < |db.ledger| && GoesAlong(db, own, links, db.ledger[i].source) ==> MayUndo(db, own, links, i, now)
  }

  lemma AllUndoneExactly(db: Db, own: Source, links: map<int, set<int>>, sources: set<Source>, now: int)
    requires own in db.documents && forall s :: s in sources <==> GoesAlong(db, own, links, s)
    ensures AllTakeable(db, sources, |db.ledger|, now) <==> AllUndoable(db, own, links, now)
  {
    forall i | 0 <= i < |db.ledger|
      ensures CanTakeBack(db, sources, i, now) <==> MayUndo(db, own, links, i, now)
    {
      UndoneExactly(db, own, links, sources, i, now);
    }
  }

  ghost predicate AllMayBeUndone(db: Db, own: Source, links: map<int, set<int>>)
    requires own in db.documents
  {
    forall s :: Listed(db, own, links, s) ==> MayBeUndone(db, s)
  }

  lemma ReversibleExactly(db: Db, own: Source, links: map<int, set<int>>)
    requires own in db.documents
    ensures (forall s :: s in Planned(db, own, links) ==> Reversible(db, s)) <==> AllMayBeUndone(db, own, links)
    ensures AllMayBeUndone(db, own, links) ==>
              && (forall s :: s in Planned(db, own, links) <==> Listed(db, own, links, s))
              && forall s :: s in Coverage(db, own, links) <==> GoesAlong(db, own, links, s)
  {
    if (forall s :: s in Planned(db, own, links) ==> Reversible(db, s)) || AllMayBeUndone(db, own, links) {
      forall s
        ensures s in Planned(db, own, links) <==> Listed(db, own, links, s)
      {
        ListedExactly(db, own, links, s);
      }
      forall s
        ensures s in Coverage(db, own, links) <==> GoesAlong(db, own, links, s)
      {
        CoverageExactly(db, own, links, s);
      }
    }
  }

  /**
    A deletion goes through exactly when all that is listed may be undone and has been named at its
    newest version, no row that goes is frozen, and each of these rows can be undone today.
   */
  lemma DeletableExactly(db: Db, own: Source, links: map<int, set<int>>, selected: seq<Selection>, now: int)
    requires own in db.documents
    ensures Deletable(db, own, links, selected, now) <==>
              && db.documents[own].standing != Withdrawn
              && AllMayBeUndone(db, own, links)
              && NamesListed(db, own, links, selected)
              && NoneFrozen(db, own, links)
              && AllUndoable(db, own, links, now)
  {
    ReversibleExactly(db, own, links);
    if AllMayBeUndone(db, own, links) {
      NamedExactly(db, own, links, selected);
      FrozenExactly(db, own, links, Coverage(db, own, links));
      AllUndoneExactly(db, own, links, Coverage(db, own, links), now);
    }
  }

  // ----- a single receipt

  /** What the receipt received into a bucket can be given back today. */
  predicate MayGiveBack(db: Db, b: Bucket, quantity: int, pallets: int, now: int) {
    && 0 < b.sku && 0 <= quantity && 0 <= pallets
    && (quantity != 0 || pallets != 0 ==>
          && b in db.items && !Frozen(db.invoices, MutationOf(db, b, now))
          && db.items[b].allocatedQty + db.items[b].damagedQty + db.items[b].holdQty <= db.items[b].quantity - quantity
          && db.items[b].allocatedPallets <= db.items[b].pallets - pallets)
  }

  /** A receipt may be removed unless its arrival is frozen, something came later, or its stock is taken. */
  lemma RemovableExactly(db: Db, own: Source, now: int)
    requires Valid(db) && own in db.documents && db.documents[own].standing == Posted
    ensures Removable(db, own, now) <==>
              && (var d := db.documents[own];
                  !Frozen(db.invoices, Mutation(d.key.customer, d.day, {d.location}, d.key.container, d.containerType)))
              && !(exists r :: CameLater(db, own, r))
              && forall r :: r in db.ledger && IsReceiveRow(r, own) ==>
                   MayGiveBack(db, r.bucket, Received(Quantity, db.ledger, own, r.bucket), Received(Pallets, db.ledger, own, r.bucket), now)
  {
    forall s
      ensures s in Later(db, own) <==> exists r :: CameLater(db, own, r) && r.source == s
    {
      LaterExactly(db, own, s);
    }
    if r :| CameLater(db, own, r) {
      assert r.source in Later(db, own);
    }
    assert Provenance(db.ledger, own, db.documents[own].key) <==> Later(db, own) == {};
    forall b | b in db.items
      ensures db.items[b].Sound()
    {
    }
    forall r | r in db.ledger && IsReceiveRow(r, own)
      ensures r.bucket in ReceivedBuckets(db.ledger, own)
    {
    }
  }

  // ----- the container that a receipt leaves behind

  ghost predicate NoReceiptLeft(db: Db, key: ContainerKey) {
    key.container != "" && forall s :: s in db.documents && s.kind == Inbound ==> db.documents[s].key != key
  }

  /** Nothing is there, and nothing is set aside. */
  predicate HoldsNothing(item: Item) {
    && item.quantity == 0 == item.pallets
    && item.allocatedQty == 0 == item.damagedQty && item.holdQty == 0 == item.allocatedPallets
  }

  /** After the last receipt of a container its empty buckets go, and no others. */
  lemma PurgedBuckets(db: Db, key: ContainerKey, b: Bucket)
    ensures var items := Purge(db, key).items;
            if b in db.items && !(NoReceiptLeft(db, key) && KeyOf(b) == key && HoldsNothing(db.items[b]))
            then b in items && items[b] == db.items[b] else b !in items
  {
  }

  /** Its record goes too, if that leaves no bucket and there is no row, and no other record. */
  lemma PurgedRecords(db: Db, key: ContainerKey, k: ContainerKey)
    ensures var after := Purge(db, key);
            && after == db.(items := after.items, containers := after.containers)
            && if k in db.containers
                  && !(NoReceiptLeft(db, key) && k == key
                       && (forall b :: b in after.items ==> KeyOf(b) != key) && (forall r :: r in db.ledger ==> KeyOf(r.bucket) != key))
               then k in after.containers && after.containers[k] == db.containers[k] else k !in after.containers
  {
    var after := Purge(db, key);
    if i :| 0 <= i < |db.ledger| && InContainer(db.ledger[i].bucket, key) {
      assert db.ledger[i] in db.ledger && KeyOf(db.ledger[i].bucket) == key;
    }
    if b :| b in after.items && InContainer(b, key) {
      assert KeyOf(b) == key;
    }
  }
}
