/**
  Deleting a batch of receipts in one transaction: the receipt with the newest RECEIVE row goes
  first, so that the check for later activity does not stop on a receipt of the same batch.
 */
module BatchDeletion {
  import opened Wrappers
  import opened StockLedger
  import opened StockOperations
  import opened DeletionRollback
  import opened DeletionErase
  import opened InboundDeletion
  import opened ReceiptDeletion
  import opened BatchStock

  const MAX_BATCH := 100

  function ReceiptsOf(ids: seq<int>): set<Source> {
    set i | 0 <= i < |ids| :: Source(Inbound, ids[i])
  }

  /** What the caller may ask for. */
  ghost predicate WellFormed(ids: seq<int>) {
    && 0 < |ids| <= MAX_BATCH
    && (forall i :: 0 <= i < |ids| ==> 0 < ids[i])
    && (forall i, j :: 0 <= i < j < |ids| ==> ids[i] != ids[j])
  }

  // ----- the order

  predicate Before(ledger: seq<Row>, a: Source, b: Source) {
    Boundary(ledger, b) < Boundary(ledger, a) || (Boundary(ledger, b) == Boundary(ledger, a) && b.id < a.id)
  }

  ghost predicate Ordered(ledger: seq<Row>, order: seq<Source>) {
    forall i, j :: 0 <= i < j < |order| ==> Before(ledger, order[i], order[j])
  }

  lemma BeforeIsTransitive(ledger: seq<Row>, a: Source, b: Source, c: Source)
    ensures Before(ledger, a, b) && Before(ledger, b, c) ==> Before(ledger, a, c)
  {
  }

  method InsertInOrder(ledger: seq<Row>, order: seq<Source>, s: Source) returns (inserted: seq<Source>)
    requires Ordered(ledger, order) && s.kind == Inbound && s !in Members(order)
    requires forall i :: 0 <= i < |order| ==> order[i].kind == Inbound
    ensures Ordered(ledger, inserted) && Members(inserted) == Members(order) + {s}
    ensures forall i :: 0 <= i < |inserted| ==> inserted[i].kind == Inbound
  {
    var p := 0;
    while p < |order| && Before(ledger, order[p], s)
      invariant p <= |order| && forall i :: 0 <= i < p ==> Before(ledger, order[i], s)
    {
      p := p + 1;
    }
    inserted := order[..p] + [s] + order[p..];
    forall j | p <= j < |order|
      ensures Before(ledger, s, order[j])
    {
      assert order[p] in Members(order) && order[p] != s;
      BeforeIsTransitive(ledger, s, order[p], order[j]);
    }
    forall i | 0 <= i < |order|
      ensures order[i] in Members(inserted)
    {
      assert inserted[if i < p then i else i + 1] == order[i];
    }
    assert inserted[p] == s;
  }

  // ----- the check for later activity along the batch

  lemma {:induction false} BoundaryWithout(ledger: seq<Row>, sources: set<Source>, own: Source)
    requires own !in sources
    ensures Boundary(Without(ledger, sources), own) == Boundary(ledger, own)
  {
    if ledger != [] {
      var n := |ledger| - 1;
      var before := Without(ledger[..n], sources);
      BoundaryWithout(ledger[..n], sources, own);
      if ledger[n].source !in sources {
        assert (before + [ledger[n]])[..|before|] == before;
      } else {
        assert before + [] == before;
      }
    }
  }

  lemma LaterWithout(ledger: seq<Row>, sources: set<Source>, own: Source, key: ContainerKey, boundary: int)
    ensures LaterSources(Without(ledger, sources), own, key, boundary)
         == LaterSources(ledger, own, key, boundary) - sources
  {
    var after := Without(ledger, sources);
    forall s
      ensures s in LaterSources(after, own, key, boundary) <==> s in LaterSources(ledger, own, key, boundary) - sources
    {
      if s in LaterSources(after, own, key, boundary) {
        var i :| 0 <= i < |after| && IsLater(after[i], own, key, boundary) && after[i].source == s;
        WithoutMembers(ledger, sources, after[i]);
        assert after[i] in after;
        var j :| 0 <= j < |ledger| && ledger[j] == after[i];
      }
      if s in LaterSources(ledger, own, key, boundary) - sources {
        var j :| 0 <= j < |ledger| && IsLater(ledger[j], own, key, boundary) && ledger[j].source == s;
        WithoutMembers(ledger, sources, ledger[j]);
        var i :| 0 <= i < |after| && after[i] == ledger[j];
      }
    }
  }

  lemma {:induction false} BoundaryIsLargest(ledger: seq<Row>, own: Source, i: nat)
    requires i < |ledger| && ledger[i].source == own && ledger[i].event == Receive
    ensures ledger[i].id <= Boundary(ledger, own)
  {
    if i < |ledger| - 1 {
      BoundaryIsLargest(ledger[..|ledger| - 1], own, i);
    }
  }

  predicate Checked(db: Db, own: Source)
    requires own in db.documents
  {
    db.documents[own].standing == Posted && db.documents[own].key.container != "" && 0 < Boundary(db.ledger, own)
  }

  /** Every later activity in the batch's containers belongs to the batch. */
  ghost predicate BatchClear(db: Db, batch: set<Source>)
    requires forall own :: own in batch ==> own in db.documents
  {
    forall own :: own in batch && Checked(db, own) ==>
      LaterSources(db.ledger, own, db.documents[own].key, Boundary(db.ledger, own)) <= batch
  }

  /** The check the i-th deletion makes, on the ledger that the earlier ones leave. */
  ghost predicate PassesInTurn(db: Db, order: seq<Source>, i: nat)
    requires i < |order| && order[i] in db.documents
  {
    db.documents[order[i]].standing == Posted ==>
      Provenance(Without(db.ledger, Members(order[..i])), order[i], db.documents[order[i]].key)
  }

  lemma PassesExactly(db: Db, order: seq<Source>, i: nat)
    requires i < |order| && order[i] in db.documents && Ordered(db.ledger, order)
    ensures PassesInTurn(db, order, i) <==>
              (Checked(db, order[i]) ==>
                 LaterSources(db.ledger, order[i], db.documents[order[i]].key, Boundary(db.ledger, order[i]))
                 <= Members(order[..i]))
  {
    var own, earlier := order[i], Members(order[..i]);
    assert own !in earlier;
    BoundaryWithout(db.ledger, earlier, own);
    LaterWithout(db.ledger, earlier, own, db.documents[own].key, Boundary(db.ledger, own));
    var later := LaterSources(db.ledger, own, db.documents[own].key, Boundary(db.ledger, own));
    assert later <= earlier <==> later - earlier == {} by {
      assert forall s :: s in later && s !in earlier ==> s in later - earlier;
    }
  }

  /** A later receipt of the batch has a newer RECEIVE row, so it is deleted earlier. */
  lemma LaterGoesFirst(db: Db, order: seq<Source>, i: nat, s: Source)
    requires ReceiptRowsSound(db.ledger, db.documents) && Ordered(db.ledger, order)
    requires i < |order| && order[i] in db.documents && s in Members(order) && s.kind == Inbound
    requires s in LaterSources(db.ledger, order[i], db.documents[order[i]].key, Boundary(db.ledger, order[i]))
    ensures s in Members(order[..i])
  {
    var own, key := order[i], db.documents[order[i]].key;
    var k :| 0 <= k < |db.ledger| && IsLater(db.ledger[k], own, key, Boundary(db.ledger, own)) && db.ledger[k].source == s;
    BoundaryIsLargest(db.ledger, s, k);
    var j :| 0 <= j < |order| && order[j] == s;
    assert !Before(db.ledger, own, s);
    assert j < i;
    assert order[..i][j] == s;
  }

  /**
    With the newest receipt first, every check along the batch passes if and only if all later
    activity in the batch's containers belongs to the batch.
   */
  lemma BatchOrderIsRight(db: Db, order: seq<Source>)
    requires ReceiptRowsSound(db.ledger, db.documents) && Ordered(db.ledger, order)
    requires forall i :: 0 <= i < |order| ==> order[i] in db.documents && order[i].kind == Inbound
    ensures (forall i :: 0 <= i < |order| ==> PassesInTurn(db, order, i)) <==> BatchClear(db, Members(order))
  {
    forall i | 0 <= i < |order|
      ensures PassesInTurn(db, order, i) <==>
                (Checked(db, order[i]) ==>
                   LaterSources(db.ledger, order[i], db.documents[order[i]].key, Boundary(db.ledger, order[i]))
                   <= Members(order))
    {
      PassesExactly(db, order, i);
      forall s | s in Members(order) && s in LaterSources(db.ledger, order[i], db.documents[order[i]].key, Boundary(db.ledger, order[i]))
        ensures s in Members(order[..i])
      {
        LaterGoesFirst(db, order, i, s);
      }
    }
  }

  // ----- the transaction

  /** Every receipt of the batch exists and passed the freeze. */
  ghost predicate BatchThawed(db: Db, batch: set<Source>) {
    forall own :: own in batch ==> own in db.documents && ReceiptThawed(db, own)
  }

  lemma KeptTwice(was: Db, mid: Db, after: Db, sources: set<Source>, own: Source)
    requires ContainersKept(was, mid, sources) && ContainersKept(mid, after, {own})
    requires mid.documents == was.documents - sources && after.documents == mid.documents - {own}
    ensures ContainersKept(was, after, sources + {own})
  {
    forall k | k in was.containers && k !in after.containers
      ensures !ReceiptRemains(after, k) && OneHasKey(was, sources + {own}, k)
    {
      if k in mid.containers {
        assert HasKey(mid, own, k) && HasKey(was, own, k);
      } else {
        var s :| s in sources && HasKey(was, s, k);
        assert s in sources + {own};
        FewerReceipts(mid, after, k);
      }
    }
  }

  lemma FewerReceipts(mid: Db, after: Db, key: ContainerKey)
    requires forall s :: s in after.documents ==> s in mid.documents && after.documents[s] == mid.documents[s]
    ensures ReceiptRemains(after, key) ==> ReceiptRemains(mid, key)
  {
  }

  lemma NeverTwice(was: Db, mid: Db, after: Db, sources: set<Source>, own: Source)
    requires AsIfNever(was, mid, sources) && AsIfNever(mid, after, {own})
    ensures AsIfNever(was, after, sources + {own})
  {
    WithoutTwice(was.ledger, sources, {own});
    KeptTwice(was, mid, after, sources, own);
    assert was.documents - sources - {own} == was.documents - (sources + {own});
  }

  lemma ReceiptRowsSurvive(was: Db, after: Db, sources: set<Source>)
    requires AsIfNever(was, after, sources) && ReceiptRowsSound(was.ledger, was.documents)
    ensures ReceiptRowsSound(after.ledger, after.documents)
  {
    forall i | 0 <= i < |after.ledger| && after.ledger[i].source.kind == Inbound
      ensures ReceiptRow(after.ledger[i], after.documents)
    {
      assert after.ledger[i] in after.ledger;
      WithoutMembers(was.ledger, sources, after.ledger[i]);
    }
  }

  lemma NothingErased(db: Db)
    requires Valid(db) && NoReversals(db.ledger)
    ensures AsIfNever(db, db, {})
  {
    WithoutNothing(db.ledger);
  }

  method LoadBatch(db: Db, ids: seq<int>) returns (error: Option<Error>, order: seq<Source>)
    requires ReceiptRowsSound(db.ledger, db.documents)
    ensures error.None? <==> BatchExists(db, ids)
    ensures error.None? ==> BatchReady(db, order) && Members(order) == ReceiptsOf(ids)
  {
    order := [];
    if |ids| == 0 || MAX_BATCH < |ids| {
      return Some(InvalidInput), order;
    }
    var seen: set<int> := {};
    for i := 0 to |ids|
      invariant forall j :: 0 <= j < i ==> 0 < ids[j]
      invariant forall j, k :: 0 <= j < k < i ==> ids[j] != ids[k]
      invariant seen == set j | 0 <= j < i :: ids[j]
    {
      if ids[i] <= 0 || ids[i] in seen {
        return Some(InvalidInput), order;
      }
      seen := seen + {ids[i]};
    }
    for i := 0 to |ids|
      invariant Ordered(db.ledger, order) && Members(order) == ReceiptsOf(ids[..i])
      invariant forall j :: 0 <= j < |order| ==>
                  order[j] in db.documents && order[j].kind == Inbound && db.documents[order[j]].standing != Withdrawn
      invariant forall j :: 0 <= j < i ==>
                  Source(Inbound, ids[j]) in db.documents && db.documents[Source(Inbound, ids[j])].standing != Withdrawn
    {
      var own := Source(Inbound, ids[i]);
      if own !in db.documents {
        return Some(NotFound), order;
      }
      if db.documents[own].standing == Withdrawn {
        return Some(InvalidInput), order;
      }
      assert own !in Members(order);
      order := InsertInOrder(db.ledger, order, own);
      assert ReceiptsOf(ids[..i + 1]) == ReceiptsOf(ids[..i]) + {own} by {
        assert ids[..i + 1] == ids[..i] + [ids[i]];
        assert ids[..i + 1][i] == ids[i];
        forall j | 0 <= j < i
          ensures ids[..i + 1][j] == ids[..i][j]
        {
        }
      }
      forall j | 0 <= j < |order|
        ensures order[j] in db.documents && db.documents[order[j]].standing != Withdrawn
      {
        assert order[j] in Members(order);
      }
    }
    assert ids[..|ids|] == ids;
    error := None;
  }

  ghost predicate BatchReady(was: Db, order: seq<Source>) {
    && Ordered(was.ledger, order) && BatchOf(was, order)
    && forall i :: 0 <= i < |order| ==> was.documents[order[i]].standing != Withdrawn
  }

  /** What the i-th deletion needs, judged on the first state. */
  ghost predicate TurnPasses(was: Db, order: seq<Source>, i: nat, now: int)
    requires i < |order| && order[i] in was.documents
  {
    ReceiptThawed(was, order[i]) && PassesInTurn(was, order, i) && FreeInTurn(was, order, i, now)
  }

  /** The first i receipts are gone without a trace. */
  ghost predicate DeletedSoFar(was: Db, db: Db, order: seq<Source>, i: nat)
    requires i <= |order|
  {
    AsIfNever(was, db, Members(order[..i]))
  }

  /** What a receipt has to pass is the same before and after the earlier ones are gone. */
  lemma InItsTurn(was: Db, mid: Db, order: seq<Source>, i: nat, now: int)
    requires i < |order| && BatchReady(was, order) && DeletedSoFar(was, mid, order, i)
    ensures order[i] in mid.documents && mid.documents[order[i]] == was.documents[order[i]]
    ensures Removable(mid, order[i], now) <==> TurnPasses(was, order, i, now)
  {
    var earlier, own := Members(order[..i]), order[i];
    assert own !in earlier;
    BucketsWithout(was.ledger, earlier, own);
    forall b | b in ReceivedBuckets(mid.ledger, own)
      ensures CanGiveBack(mid, own, b, now) <==> CanGiveBackWithout(was, earlier, own, b, now)
    {
      SameGiveBack(was, mid, earlier, own, b, now);
    }
  }

  /** Deletes the i-th receipt, the earlier ones being gone. */
  method DeleteNext(w: Warehouse, ghost was: Db, order: seq<Source>, i: nat, now: int) returns (error: Option<Error>)
    requires i < |order| && BatchReady(was, order) && DeletedSoFar(was, w.State(), order, i)
    modifies w
    ensures error.None? <==> TurnPasses(was, order, i, now)
    ensures error.None? ==> DeletedSoFar(was, w.State(), order, i + 1)
  {
    ghost var mid := w.State();
    ReceiptRowsSurvive(was, mid, Members(order[..i]));
    InItsTurn(was, mid, order, i, now);
    error := DeleteReceipt(w, order[i], now);
    if error.None? {
      NeverTwice(was, mid, w.State(), Members(order[..i]), order[i]);
      MembersGrow(order, i);
    }
  }

  /** Deletes the receipts one after another; the caller abandons the transaction after an error. */
  method DeleteInOrder(w: Warehouse, order: seq<Source>, now: int) returns (error: Option<Error>)
    requires Valid(w.State()) && NoReversals(w.ledger) && BatchReady(w.State(), order)
    modifies w
    ensures error.None? <==> forall i :: 0 <= i < |order| ==> TurnPasses(old(w.State()), order, i, now)
    ensures error.None? ==> DeletedSoFar(old(w.State()), w.State(), order, |order|)
  {
    ghost var was := w.State();
    error := None;
    NothingErased(was);
    assert Members(order[..0]) == {};
    for i := 0 to |order|
      invariant error.None? && DeletedSoFar(was, w.State(), order, i)
      invariant forall j :: 0 <= j < i ==> TurnPasses(was, order, j, now)
    {
      error := DeleteNext(w, was, order, i, now);
      if error.Some? {
        return;
      }
    }
  }

  /** A well-formed list of receipts that are there and not yet deleted. */
  ghost predicate BatchExists(db: Db, ids: seq<int>) {
    && WellFormed(ids)
    && forall i :: 0 <= i < |ids| ==>
         Source(Inbound, ids[i]) in db.documents && db.documents[Source(Inbound, ids[i])].standing != Withdrawn
  }

  /** The batch as a whole may go: not frozen, nothing else later in its containers, and none of its stock taken. */
  ghost predicate BatchDeletable(db: Db, ids: seq<int>, now: int) {
    && BatchExists(db, ids)
    && BatchThawed(db, ReceiptsOf(ids))
    && BatchClear(db, ReceiptsOf(ids))
    && BatchFree(db, ReceiptsOf(ids), now)
  }

  /** In this order every turn passes if and only if the batch as a whole may go. */
  lemma TurnsPassTogether(db: Db, order: seq<Source>, now: int)
    requires BatchReady(db, order)
    ensures (forall i :: 0 <= i < |order| ==> TurnPasses(db, order, i, now))
            <==> BatchThawed(db, Members(order)) && BatchClear(db, Members(order)) && BatchFree(db, Members(order), now)
  {
    BatchOrderIsRight(db, order);
    FreeInAnyOrder(db, order, now);
    if forall i :: 0 <= i < |order| ==> TurnPasses(db, order, i, now) {
      forall i | 0 <= i < |order|
        ensures PassesInTurn(db, order, i) && FreeInTurn(db, order, i, now)
      {
        assert TurnPasses(db, order, i, now);
      }
      forall own | own in Members(order)
        ensures own in db.documents && ReceiptThawed(db, own)
      {
        var i :| 0 <= i < |order| && order[i] == own;
        assert TurnPasses(db, order, i, now);
      }
    }
    if BatchThawed(db, Members(order)) && BatchClear(db, Members(order)) && BatchFree(db, Members(order), now) {
      forall i | 0 <= i < |order|
        ensures TurnPasses(db, order, i, now)
      {
        assert order[i] in Members(order);
      }
    }
  }

  /**
    Deletes the whole batch or nothing. It succeeds exactly when the batch as a whole may go, and
    afterwards it is as if none of its receipts had been posted.
   */
  method DeleteBatch(w: Warehouse, ids: seq<int>, now: int) returns (error: Option<Error>)
    requires Valid(w.State()) && NoReversals(w.ledger) && ReceiptRowsSound(w.ledger, w.documents)
    modifies w
    ensures error.None? <==> BatchDeletable(old(w.State()), ids, now)
    ensures error.None? ==> AsIfNever(old(w.State()), w.State(), ReceiptsOf(ids))
    ensures error.Some? ==> w.State() == old(w.State())
  {
    var was := w.State();
    var order;
    error, order := LoadBatch(was, ids);
    if error.Some? {
      return;
    }
    TurnsPassTogether(was, order, now);
    error := DeleteInOrder(w, order, now);
    if error.Some? {
      w.Rollback(was);
      return;
    }
    assert order[..|order|] == order;
  }
}
