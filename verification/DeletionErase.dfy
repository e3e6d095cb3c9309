/**
  Erasing the rolled-back documents: their rows and the reversals go, the touched containers are
  recomputed, and an empty container projection is purged. What remains is as if the documents
  had never been posted.
 */
module DeletionErase {
  import opened Wrappers
  import opened SourceFreeze
  import opened StockLedger
  import opened DeletionRollback

  /** No reversal row is in the ledger between transactions. */
  ghost predicate NoReversals(ledger: seq<Row>) {
    forall i :: 0 <= i < |ledger| ==> ledger[i].source.kind != CascadeDelete
  }

  /** Containers keep their types, and only a deleted receipt's container can go, with its last receipt. */
  ghost predicate ContainersKept(was: Db, after: Db, sources: set<Source>) {
    && after.containers.Keys <= was.containers.Keys
    && (forall k :: k in after.containers ==> after.containers[k].containerType == was.containers[k].containerType)
    && (forall k :: k in was.containers && k !in after.containers ==>
          !ReceiptRemains(after, k) && OneHasKey(was, sources, k))
  }

  predicate HasKey(db: Db, s: Source, key: ContainerKey) {
    s in db.documents && db.documents[s].key == key
  }

  ghost predicate OneHasKey(db: Db, sources: set<Source>, key: ContainerKey) {
    exists s :: s in sources && HasKey(db, s, key)
  }

  /** The database as if the sources had never been posted. */
  ghost predicate AsIfNever(was: Db, after: Db, sources: set<Source>) {
    && after.ledger == Without(was.ledger, sources)
    && Valid(after) && NoReversals(after.ledger)
    && (forall b :: Reservations(Held(after.items, b)) == Reservations(Held(was.items, b)))
    && after.documents == was.documents - sources
    && after.invoices == was.invoices
    && ContainersKept(was, after, sources)
  }

  // ----- the ledger

  lemma {:induction false} WithoutMembers(ledger: seq<Row>, sources: set<Source>, r: Row)
    ensures r in Without(ledger, sources) <==> r in ledger && r.source !in sources
  {
    if ledger != [] {
      var n := |ledger| - 1;
      WithoutMembers(ledger[..n], sources, r);
      assert ledger == ledger[..n] + [ledger[n]];
    }
  }

  lemma {:induction false} WithoutKeepsOrder(ledger: seq<Row>, sources: set<Source>, bound: int)
    requires ById(ledger, bound)
    ensures ById(Without(ledger, sources), bound)
  {
    if ledger != [] {
      var n := |ledger| - 1;
      WithoutKeepsOrder(ledger[..n], sources, ledger[n].id);
      assert ById(ledger[..n], ledger[n].id);
    }
  }

  lemma {:induction false} WithoutReversals(was: seq<Row>, ledger: seq<Row>, sources: set<Source>, c: Source, n: nat)
    requires |was| <= n <= |ledger| && ledger[..|was|] == was
    requires forall i :: 0 <= i < |was| ==> was[i].source != c
    requires forall j :: |was| <= j < |ledger| ==> ledger[j].source == c
    ensures Without(ledger[..n], sources + {c}) == Without(was, sources)
    decreases n
  {
    if n == |was| {
      WithoutUnused(was, sources, c);
    } else {
      WithoutReversals(was, ledger, sources, c, n - 1);
      assert ledger[..n][..n - 1] == ledger[..n - 1];
    }
  }

  lemma {:induction false} WithoutUnused(ledger: seq<Row>, sources: set<Source>, c: Source)
    requires forall i :: 0 <= i < |ledger| ==> ledger[i].source != c
    ensures Without(ledger, sources + {c}) == Without(ledger, sources)
  {
    if ledger != [] {
      WithoutUnused(ledger[..|ledger| - 1], sources, c);
    }
  }

  /** Deleting the rows of one source after another deletes the rows of all. */
  lemma {:induction false} WithoutTwice(ledger: seq<Row>, s: set<Source>, t: set<Source>)
    ensures Without(Without(ledger, s), t) == Without(ledger, s + t)
  {
    if ledger != [] {
      var n := |ledger| - 1;
      var r := ledger[n];
      WithoutTwice(ledger[..n], s, t);
      if r.source !in s {
        var before := Without(ledger[..n], s);
        assert (before + [r])[..|before|] == before;
      } else {
        assert Without(ledger, s) == Without(ledger[..n], s) + [] == Without(ledger[..n], s);
      }
    }
  }

  lemma {:induction false} NetOutboundWithout(m: Measure, ledger: seq<Row>, sources: set<Source>, key: ContainerKey)
    requires forall i :: 0 <= i < |ledger| && ledger[i].source in sources ==> !InContainer(ledger[i].bucket, key)
    ensures NetOutbound(m, Without(ledger, sources), key) == NetOutbound(m, ledger, key)
  {
    if ledger != [] {
      var n := |ledger| - 1;
      var before := Without(ledger[..n], sources);
      NetOutboundWithout(m, ledger[..n], sources, key);
      if ledger[n].source !in sources {
        assert (before + [ledger[n]])[..|before|] == before;
      } else {
        assert before + [] == before;
      }
    }
  }

  // ----- erasing

  function ReversalSource(receipt: int): Source {
    Source(CascadeDelete, receipt)
  }

  function Erased(db: Db, sources: set<Source>, receipt: int): Db {
    db.(ledger := Without(db.ledger, sources + {ReversalSource(receipt)}), documents := db.documents - sources)
  }

  /** Containers of the covered rows. */
  function TouchedKeys(rows: seq<Row>): set<ContainerKey> {
    set i | 0 <= i < |rows| && rows[i].bucket.container != "" :: KeyOf(rows[i].bucket)
  }

  lemma {:induction false} NewestFirstMembers(ledger: seq<Row>, sources: set<Source>, r: Row)
    ensures r in NewestFirst(ledger, sources) <==> r in ledger && r.source in sources
  {
    if ledger != [] {
      var n := |ledger| - 1;
      NewestFirstMembers(ledger[..n], sources, r);
      assert ledger == ledger[..n] + [ledger[n]];
    }
  }

  lemma ErasedLedger(was: Db, db: Db, sources: set<Source>, receipt: int)
    requires RolledBackTo(was, db, sources, 0, receipt) && NoReversals(was.ledger)
    ensures Erased(db, sources, receipt).ledger == Without(was.ledger, sources)
  {
    WithoutReversals(was.ledger, db.ledger, sources, ReversalSource(receipt), |db.ledger|);
    assert db.ledger[..|db.ledger|] == db.ledger;
  }

  lemma ErasedAgrees(was: Db, db: Db, sources: set<Source>, receipt: int)
    requires RolledBackTo(was, db, sources, 0, receipt) && NoReversals(was.ledger)
    ensures Agrees(Erased(db, sources, receipt))
  {
    var after := Erased(db, sources, receipt);
    ErasedLedger(was, db, sources, receipt);
    forall m, b: Bucket | 0 < b.sku
      ensures Balance(m, after.items, b) == Total(m, after.ledger, b)
    {
      MidwayIsReplay(m, was.ledger, sources, b);
    }
  }

  lemma ErasedRows(was: Db, db: Db, sources: set<Source>, receipt: int)
    requires RolledBackTo(was, db, sources, 0, receipt) && NoReversals(was.ledger)
    ensures var after := Erased(db, sources, receipt);
            && ById(after.ledger, after.nextId)
            && NoReversals(after.ledger)
            && forall r :: r in after.ledger ==> r in was.ledger && RowSound(r, db.containers)
  {
    var after := Erased(db, sources, receipt);
    WithoutKeepsOrder(db.ledger, sources + {ReversalSource(receipt)}, db.nextId);
    ErasedLedger(was, db, sources, receipt);
    forall r
      ensures r in after.ledger ==> r in was.ledger && r in db.ledger
    {
      WithoutMembers(was.ledger, sources, r);
      WithoutMembers(db.ledger, sources + {ReversalSource(receipt)}, r);
    }
    forall i | 0 <= i < |after.ledger|
      ensures after.ledger[i].source.kind != CascadeDelete
    {
      assert after.ledger[i] in after.ledger;
    }
  }

  /** A container without a covered row keeps its projection. */
  lemma UntouchedProjection(was: Db, db: Db, sources: set<Source>, receipt: int, key: ContainerKey)
    requires RolledBackTo(was, db, sources, 0, receipt) && NoReversals(was.ledger)
    requires key.container != "" && key !in TouchedKeys(NewestFirst(was.ledger, sources))
    ensures Projected(Erased(db, sources, receipt), key) == Projected(db, key)
  {
    var gone := sources + {ReversalSource(receipt)};
    forall i | 0 <= i < |db.ledger| && db.ledger[i].source in gone
      ensures !InContainer(db.ledger[i].bucket, key)
    {
      var r := db.ledger[i];
      if i < |was.ledger| {
        assert was.ledger[i] == r && r in was.ledger;
        CoveredBucketIsTouched(was, sources, r);
      } else {
        assert Touched(was, sources, r.bucket);
        var k :| 0 <= k < |was.ledger| && was.ledger[k].source in sources && was.ledger[k].bucket == r.bucket;
        assert was.ledger[k] in was.ledger;
        CoveredBucketIsTouched(was, sources, was.ledger[k]);
      }
    }
    NetOutboundWithout(Quantity, db.ledger, gone, key);
    NetOutboundWithout(Pallets, db.ledger, gone, key);
  }

  lemma CoveredBucketIsTouched(was: Db, sources: set<Source>, r: Row)
    requires r in was.ledger && r.source in sources
    ensures r.bucket.container != "" ==> KeyOf(r.bucket) in TouchedKeys(NewestFirst(was.ledger, sources))
  {
    var rows := NewestFirst(was.ledger, sources);
    NewestFirstMembers(was.ledger, sources, r);
    var i :| 0 <= i < |rows| && rows[i] == r;
  }

  // ----- recomputing the touched containers

  /** db with the given containers recomputed and nothing else changed. */
  ghost predicate Recomputed(db: Db, after: Db, keys: set<ContainerKey>) {
    && after == db.(containers := after.containers)
    && after.containers.Keys == db.containers.Keys
    && forall k :: k in db.containers ==>
         if k in keys then IsProjected(after, k) && after.containers[k].containerType == db.containers[k].containerType
         else after.containers[k] == db.containers[k]
  }

  lemma RecomputeOne(db: Db, after: Db, keys: set<ContainerKey>, key: ContainerKey)
    requires Recomputed(db, after, keys) && key in db.containers && key.container != ""
    ensures Recomputed(db, Reproject(after, key), keys + {key})
  {
    var next := Reproject(after, key);
    forall k | k in db.containers
      ensures if k in keys + {key}
              then IsProjected(next, k) && next.containers[k].containerType == db.containers[k].containerType
              else next.containers[k] == db.containers[k]
    {
      assert Projected(next, k) == Projected(after, k);
      assert k in keys ==> IsProjected(after, k);
    }
  }

  lemma RecomputedProjections(was: Db, db: Db, sources: set<Source>, receipt: int, after: Db)
    requires RolledBackTo(was, db, sources, 0, receipt) && NoReversals(was.ledger)
    requires Recomputed(Erased(db, sources, receipt), after, TouchedKeys(NewestFirst(was.ledger, sources)))
    ensures ContainersProjected(after)
  {
    forall k | k in after.containers
      ensures k.container != "" && IsProjected(after, k)
    {
      assert k in db.containers && k.container != "" && IsProjected(db, k);
      assert Projected(after, k) == Projected(Erased(db, sources, receipt), k);
      if k !in TouchedKeys(NewestFirst(was.ledger, sources)) {
        UntouchedProjection(was, db, sources, receipt, k);
      }
    }
  }

  /** Everything is valid again once the touched containers are recomputed. */
  lemma ErasureIsValid(was: Db, db: Db, sources: set<Source>, receipt: int, after: Db)
    requires RolledBackTo(was, db, sources, 0, receipt) && NoReversals(was.ledger)
    requires Recomputed(Erased(db, sources, receipt), after, TouchedKeys(NewestFirst(was.ledger, sources)))
    ensures AsIfNever(was, after, sources)
  {
    var bare := Erased(db, sources, receipt);
    ErasedAgrees(was, db, sources, receipt);
    ErasedRows(was, db, sources, receipt);
    ErasedLedger(was, db, sources, receipt);
    RecomputedProjections(was, db, sources, receipt, after);
    forall i | 0 <= i < |after.ledger|
      ensures RowSound(after.ledger[i], after.containers)
    {
      assert after.ledger[i] in bare.ledger;
    }
  }

  // ----- purging an empty container

  predicate ReceiptRemains(db: Db, key: ContainerKey) {
    exists s :: s in db.documents && s.kind == Inbound && db.documents[s].key == key
  }

  predicate Empty(item: Item) {
    item == Item(0, 0, 0, 0, 0, 0)
  }

  /** Drops the empty buckets of a container without receipts, and the container when nothing refers to it. */
  function Purge(db: Db, key: ContainerKey): Db {
    if key.container == "" || ReceiptRemains(db, key) then db
    else
      var items := map b | b in db.items && !(InContainer(b, key) && Empty(db.items[b])) :: db.items[b];
      if (exists b :: b in items && InContainer(b, key))
         || (exists i :: 0 <= i < |db.ledger| && InContainer(db.ledger[i].bucket, key))
      then db.(items := items)
      else db.(items := items, containers := db.containers - {key})
  }

  lemma PurgeHeld(db: Db, key: ContainerKey, b: Bucket)
    ensures Held(Purge(db, key).items, b) == Held(db.items, b)
  {
  }

  lemma PurgeActive(db: Db, key: ContainerKey, k: ContainerKey)
    ensures ActiveLocations(Purge(db, key).items, k) == ActiveLocations(db.items, k)
    ensures Purge(db, key).ledger == db.ledger
  {
  }

  lemma PurgeProjections(db: Db, key: ContainerKey)
    requires ContainersProjected(db)
    ensures ContainersProjected(Purge(db, key))
  {
    var after := Purge(db, key);
    forall k | k in after.containers
      ensures k.container != "" && IsProjected(after, k)
    {
      assert IsProjected(db, k);
      PurgeActive(db, key, k);
    }
  }

  lemma PurgeRows(db: Db, key: ContainerKey)
    requires RowsSound(db)
    ensures RowsSound(Purge(db, key))
  {
    var after := Purge(db, key);
    forall i | 0 <= i < |after.ledger|
      ensures RowSound(after.ledger[i], after.containers)
    {
      assert RowSound(db.ledger[i], db.containers);
    }
  }

  lemma PurgeBalances(db: Db, key: ContainerKey)
    requires Agrees(db) && ItemsSound(db.items)
    ensures Agrees(Purge(db, key)) && ItemsSound(Purge(db, key).items)
  {
    var after := Purge(db, key);
    forall m, b: Bucket | 0 < b.sku
      ensures Balance(m, after.items, b) == Total(m, after.ledger, b)
    {
      PurgeHeld(db, key, b);
      assert Balance(m, db.items, b) == Total(m, db.ledger, b);
    }
  }

  lemma PurgeValid(db: Db, key: ContainerKey)
    requires Valid(db)
    ensures Valid(Purge(db, key))
  {
    PurgeBalances(db, key);
    PurgeProjections(db, key);
    PurgeRows(db, key);
    assert Purge(db, key).ledger == db.ledger && Purge(db, key).nextId == db.nextId;
  }

  lemma PurgedContainers(was: Db, db: Db, sources: set<Source>, key: ContainerKey)
    requires ContainersKept(was, db, sources) && OneHasKey(was, sources, key)
    ensures ContainersKept(was, Purge(db, key), sources)
  {
    var after := Purge(db, key);
    forall k | k in was.containers && k !in after.containers
      ensures !ReceiptRemains(after, k) && OneHasKey(was, sources, k)
    {
      assert ReceiptRemains(after, k) == ReceiptRemains(db, k);
      assert k !in db.containers || k == key;
    }
  }

  /** A purge drops nothing that holds stock or is referred to. */
  lemma PurgeKeeps(was: Db, db: Db, sources: set<Source>, key: ContainerKey)
    requires AsIfNever(was, db, sources) && OneHasKey(was, sources, key)
    ensures AsIfNever(was, Purge(db, key), sources)
  {
    PurgeValid(db, key);
    PurgedContainers(was, db, sources, key);
    forall b
      ensures Reservations(Held(Purge(db, key).items, b)) == Reservations(Held(was.items, b))
    {
      PurgeHeld(db, key, b);
    }
  }
}
