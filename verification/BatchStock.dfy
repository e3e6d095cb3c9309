/**
  The stock that a batch of receipts gives back. Receipts of a batch may share buckets, so each
  one needs its stock free in a state that earlier deletions have changed; in the end the order
  does not matter.
 */
module BatchStock {
  import opened Wrappers
  import opened SourceFreeze
  import opened StockLedger
  import opened StockOperations
  import opened DeletionRollback
  import opened DeletionErase
  import opened InboundDeletion
  import opened ReceiptDeletion

  function Members(order: seq<Source>): set<Source> {
    set i | 0 <= i < |order| :: order[i]
  }

  lemma MembersGrow(order: seq<Source>, i: nat)
    requires i < |order|
    ensures Members(order[..i + 1]) == Members(order[..i]) + {order[i]}
  {
    assert order[..i + 1][i] == order[i];
    forall j | 0 <= j < i
      ensures order[..i + 1][j] == order[..i][j]
    {
    }
  }

  ghost predicate Distinct(order: seq<Source>) {
    forall i, j :: 0 <= i < j < |order| ==> order[i] != order[j]
  }

  /** A list of different receipts that exist. */
  ghost predicate BatchOf(db: Db, order: seq<Source>) {
    && Distinct(order) && ReceiptRowsSound(db.ledger, db.documents)
    && forall i :: 0 <= i < |order| ==> order[i] in db.documents && order[i].kind == Inbound
  }

  // ----- one receipt, the earlier ones being gone

  lemma {:induction false} ReceivedWithout(m: Measure, ledger: seq<Row>, sources: set<Source>, own: Source, b: Bucket)
    requires own !in sources
    ensures Received(m, Without(ledger, sources), own, b) == Received(m, ledger, own, b)
  {
    if ledger != [] {
      var n := |ledger| - 1;
      var before := Without(ledger[..n], sources);
      ReceivedWithout(m, ledger[..n], sources, own, b);
      if ledger[n].source !in sources {
        assert (before + [ledger[n]])[..|before|] == before;
      } else {
        assert before + [] == before;
      }
    }
  }

  lemma BucketsWithout(ledger: seq<Row>, sources: set<Source>, own: Source)
    requires own !in sources
    ensures ReceivedBuckets(Without(ledger, sources), own) == ReceivedBuckets(ledger, own)
  {
    var after := Without(ledger, sources);
    forall b
      ensures b in ReceivedBuckets(after, own) <==> b in ReceivedBuckets(ledger, own)
    {
      if b in ReceivedBuckets(after, own) {
        var i :| 0 <= i < |after| && after[i].source == own && after[i].event == Receive && after[i].bucket == b;
        assert after[i] in after;
        WithoutMembers(ledger, sources, after[i]);
      }
      if b in ReceivedBuckets(ledger, own) {
        var j :| 0 <= j < |ledger| && ledger[j].source == own && ledger[j].event == Receive && ledger[j].bucket == b;
        assert ledger[j] in ledger;
        WithoutMembers(ledger, sources, ledger[j]);
      }
    }
  }

  /** What a bucket must hold back today. */
  function Required(m: Measure, items: map<Bucket, Item>, b: Bucket): int {
    if b !in items then 0 else if m.Quantity? then items[b].Reserved() else items[b].allocatedPallets
  }

  lemma RequiredAlike(m: Measure, items: map<Bucket, Item>, others: map<Bucket, Item>, b: Bucket)
    requires Reservations(Held(items, b)) == Reservations(Held(others, b))
    ensures Required(m, items, b) == Required(m, others, b)
  {
    if b in items && b in others {
      ReservedAlike(items[b], others[b]);
    } else if b in items {
      NothingReserved(items[b]);
    } else if b in others {
      NothingReserved(others[b]);
    }
  }

  lemma NothingReserved(item: Item)
    requires Reservations(item) == Item(0, 0, 0, 0, 0, 0)
    ensures item.Reserved() == 0 == item.allocatedPallets
  {
  }

  /** With the given receipts gone, the stock of this one is there and free. */
  predicate FreeWithout(m: Measure, db: Db, gone: set<Source>, own: Source, b: Bucket) {
    Received(m, db.ledger, own, b) <= Largest(0, Total(m, Without(db.ledger, gone), b) - Required(m, db.items, b))
  }

  predicate CanGiveBackWithout(db: Db, gone: set<Source>, own: Source, b: Bucket, now: int) {
    && 0 < b.sku && 0 <= Received(Quantity, db.ledger, own, b) && 0 <= Received(Pallets, db.ledger, own, b)
    && (GivesNothing(db, own, b) ||
        (FreeWithout(Quantity, db, gone, own, b) && FreeWithout(Pallets, db, gone, own, b)
         && !Frozen(db.invoices, MutationOf(db, b, now))))
  }

  /** Judged on the first state: the i-th receipt's stock can be given back when its turn comes. */
  ghost predicate FreeInTurn(db: Db, order: seq<Source>, i: nat, now: int)
    requires i < |order| && order[i] in db.documents
  {
    db.documents[order[i]].standing == Posted ==>
      forall b :: b in ReceivedBuckets(db.ledger, order[i]) ==> CanGiveBackWithout(db, Members(order[..i]), order[i], b, now)
  }

  lemma SameMutationAfter(was: Db, mid: Db, gone: set<Source>, own: Source, b: Bucket, now: int)
    requires AsIfNever(was, mid, gone) && b in ReceivedBuckets(mid.ledger, own)
    ensures MutationOf(mid, b, now) == MutationOf(was, b, now)
  {
    ReceivedInContainer(mid, own, b);
  }

  lemma SameFree(was: Db, mid: Db, gone: set<Source>, own: Source, b: Bucket)
    requires AsIfNever(was, mid, gone) && own !in gone && 0 < b.sku
    requires 0 <= Received(Quantity, was.ledger, own, b) && 0 <= Received(Pallets, was.ledger, own, b)
    requires !GivesNothing(was, own, b)
    ensures IsFree(mid.items, b, Received(Quantity, was.ledger, own, b), Received(Pallets, was.ledger, own, b))
            <==> FreeWithout(Quantity, was, gone, own, b) && FreeWithout(Pallets, was, gone, own, b)
  {
    RequiredAlike(Quantity, mid.items, was.items, b);
    RequiredAlike(Pallets, mid.items, was.items, b);
    assert Balance(Quantity, mid.items, b) == Total(Quantity, Without(was.ledger, gone), b);
    assert Balance(Pallets, mid.items, b) == Total(Pallets, Without(was.ledger, gone), b);
  }

  lemma SameConditions(was: Db, mid: Db, gone: set<Source>, own: Source, b: Bucket, now: int)
    requires MutationOf(mid, b, now) == MutationOf(was, b, now) && mid.invoices == was.invoices
    requires Received(Quantity, mid.ledger, own, b) == Received(Quantity, was.ledger, own, b)
    requires Received(Pallets, mid.ledger, own, b) == Received(Pallets, was.ledger, own, b)
    requires 0 < b.sku && 0 <= Received(Quantity, was.ledger, own, b) && 0 <= Received(Pallets, was.ledger, own, b)
             && !GivesNothing(was, own, b) ==>
               (IsFree(mid.items, b, Received(Quantity, was.ledger, own, b), Received(Pallets, was.ledger, own, b))
                <==> FreeWithout(Quantity, was, gone, own, b) && FreeWithout(Pallets, was, gone, own, b))
    ensures CanGiveBack(mid, own, b, now) <==> CanGiveBackWithout(was, gone, own, b, now)
  {
  }

  /** Giving one bucket back needs the same in the state that the earlier deletions leave. */
  lemma SameGiveBack(was: Db, mid: Db, gone: set<Source>, own: Source, b: Bucket, now: int)
    requires AsIfNever(was, mid, gone) && own !in gone && b in ReceivedBuckets(mid.ledger, own)
    ensures CanGiveBack(mid, own, b, now) <==> CanGiveBackWithout(was, gone, own, b, now)
  {
    ReceivedWithout(Quantity, was.ledger, gone, own, b);
    ReceivedWithout(Pallets, was.ledger, gone, own, b);
    SameMutationAfter(was, mid, gone, own, b, now);
    if 0 < b.sku && 0 <= Received(Quantity, was.ledger, own, b) && 0 <= Received(Pallets, was.ledger, own, b)
       && !GivesNothing(was, own, b) {
      SameFree(was, mid, gone, own, b);
    }
    SameConditions(was, mid, gone, own, b, now);
  }

  // ----- the whole batch at once

  /** Once the whole batch is gone, what remains of what this receipt brought covers today's reservations. */
  predicate Spares(m: Measure, db: Db, batch: set<Source>, own: Source, b: Bucket) {
    0 < Received(m, db.ledger, own, b) ==> Required(m, db.items, b) <= Total(m, Without(db.ledger, batch), b)
  }

  predicate GivesBackWith(db: Db, batch: set<Source>, own: Source, b: Bucket, now: int) {
    && 0 < b.sku && 0 <= Received(Quantity, db.ledger, own, b) && 0 <= Received(Pallets, db.ledger, own, b)
    && (GivesNothing(db, own, b) || !Frozen(db.invoices, MutationOf(db, b, now)))
    && Spares(Quantity, db, batch, own, b) && Spares(Pallets, db, batch, own, b)
  }

  /** Nothing reserved today needs the stock of the batch. */
  ghost predicate BatchFree(db: Db, batch: set<Source>, now: int) {
    forall own, b {:trigger GivesBackWith(db, batch, own, b, now)} ::
      own in batch && own in db.documents && db.documents[own].standing == Posted && b in ReceivedBuckets(db.ledger, own)
      ==> GivesBackWith(db, batch, own, b, now)
  }

  /** What a bucket holds once the first n receipts are gone. */
  function Left(m: Measure, db: Db, order: seq<Source>, n: nat, b: Bucket): int
    requires n <= |order|
  {
    Total(m, Without(db.ledger, Members(order[..n])), b)
  }

  lemma LeftStep(m: Measure, db: Db, order: seq<Source>, n: nat, b: Bucket)
    requires BatchOf(db, order) && n < |order|
    ensures Left(m, db, order, n + 1, b) == Left(m, db, order, n, b) - Received(m, db.ledger, order[n], b)
  {
    var earlier, own := Members(order[..n]), order[n];
    var ledger := Without(db.ledger, earlier);
    MembersGrow(order, n);
    WithoutTwice(db.ledger, earlier, {own});
    assert own !in earlier;
    ReceivedWithout(m, db.ledger, earlier, own, b);
    forall i | 0 <= i < |ledger| && ledger[i].source == own
      ensures ledger[i].event == Receive
    {
      assert ledger[i] in ledger;
      WithoutMembers(db.ledger, earlier, ledger[i]);
    }
    ReceivedIsErased(m, ledger, own, b);
  }

  /** A receipt that did not touch the bucket, or was never posted, received nothing there. */
  lemma ReceivedByPosted(m: Measure, db: Db, own: Source, b: Bucket)
    requires own in db.documents && own.kind == Inbound && ReceiptRowsSound(db.ledger, db.documents)
    requires db.documents[own].standing != Posted || b !in ReceivedBuckets(db.ledger, own)
    ensures Received(m, db.ledger, own, b) == 0
  {
    if db.documents[own].standing != Posted {
      DraftsHaveNoRows(db, own);
    }
    NothingReceived(m, db.ledger, own, b);
  }

  // ----- taking amounts out of one bucket, one after another

  ghost predicate Draws(left: seq<int>, taken: seq<int>) {
    |left| == |taken| + 1 && forall n {:trigger taken[n]} :: 0 <= n < |taken| ==> left[n + 1] == left[n] - taken[n]
  }

  /** Every amount that is taken is there and not needed, when it is taken. */
  ghost predicate EachFits(left: seq<int>, taken: seq<int>, need: int)
    requires |left| == |taken| + 1
  {
    forall k :: 0 <= k < |taken| ==> 0 <= taken[k] && (0 < taken[k] ==> taken[k] <= left[k] - need)
  }

  /** If anything is taken, what is needed remains in the end. */
  ghost predicate AllFit(left: seq<int>, taken: seq<int>, need: int)
    requires |left| == |taken| + 1
  {
    forall k :: 0 <= k < |taken| ==> 0 <= taken[k] && (0 < taken[k] ==> need <= left[|taken|])
  }

  lemma {:induction false} NeverRises(left: seq<int>, taken: seq<int>, i: nat, n: nat)
    requires Draws(left, taken) && i <= n <= |taken| && forall k :: 0 <= k < |taken| ==> 0 <= taken[k]
    ensures left[n] <= left[i]
    decreases n
  {
    if i < n {
      NeverRises(left, taken, i, n - 1);
      assert left[n - 1 + 1] == left[n - 1] - taken[n - 1];
    }
  }

  lemma {:induction false} StaysCovered(left: seq<int>, taken: seq<int>, need: int, i: nat, n: nat)
    requires Draws(left, taken) && EachFits(left, taken, need) && i < n <= |taken| && 0 < taken[i]
    ensures need <= left[n]
    decreases n
  {
    assert left[n - 1 + 1] == left[n - 1] - taken[n - 1];
    if i < n - 1 {
      StaysCovered(left, taken, need, i, n - 1);
    }
  }

  lemma OneByOneOrAtOnce(left: seq<int>, taken: seq<int>, need: int)
    requires Draws(left, taken)
    ensures EachFits(left, taken, need) <==> AllFit(left, taken, need)
  {
    if EachFits(left, taken, need) {
      forall k | 0 <= k < |taken| && 0 < taken[k]
        ensures need <= left[|taken|]
      {
        StaysCovered(left, taken, need, k, |taken|);
      }
    }
    if AllFit(left, taken, need) {
      forall k | 0 <= k < |taken| && 0 < taken[k]
        ensures taken[k] <= left[k] - need
      {
        NeverRises(left, taken, k + 1, |taken|);
        assert left[k + 1] == left[k] - taken[k];
      }
    }
  }

  // ----- the batch

  ghost function Lefts(m: Measure, db: Db, order: seq<Source>, b: Bucket): (r: seq<int>)
    ensures |r| == |order| + 1
  {
    seq(|order| + 1, n requires 0 <= n <= |order| => Left(m, db, order, n, b))
  }

  ghost function Taken(m: Measure, db: Db, order: seq<Source>, b: Bucket): (r: seq<int>)
    ensures |r| == |order|
  {
    seq(|order|, k requires 0 <= k < |order| => Received(m, db.ledger, order[k], b))
  }

  lemma LeftsDraw(m: Measure, db: Db, order: seq<Source>, b: Bucket)
    requires BatchOf(db, order)
    ensures Draws(Lefts(m, db, order, b), Taken(m, db, order, b))
  {
    forall n | 0 <= n < |order|
      ensures Lefts(m, db, order, b)[n + 1] == Lefts(m, db, order, b)[n] - Taken(m, db, order, b)[n]
    {
      LeftStep(m, db, order, n, b);
    }
  }

  lemma GiveTells(m: Measure, db: Db, gone: set<Source>, own: Source, b: Bucket, now: int)
    requires CanGiveBackWithout(db, gone, own, b, now)
    ensures 0 <= Received(m, db.ledger, own, b)
    ensures 0 < Received(m, db.ledger, own, b) ==> FreeWithout(m, db, gone, own, b)
  {
    assert m == Quantity || m == Pallets;
  }

  lemma TurnTells(m: Measure, db: Db, order: seq<Source>, k: nat, now: int, b: Bucket)
    requires BatchOf(db, order) && k < |order| && FreeInTurn(db, order, k, now)
    ensures 0 <= Received(m, db.ledger, order[k], b)
    ensures 0 < Received(m, db.ledger, order[k], b) ==> FreeWithout(m, db, Members(order[..k]), order[k], b)
  {
    var own := order[k];
    if db.documents[own].standing == Posted && b in ReceivedBuckets(db.ledger, own) {
      GiveTells(m, db, Members(order[..k]), own, b, now);
    } else {
      ReceivedByPosted(m, db, own, b);
    }
  }

  lemma BatchTells(m: Measure, db: Db, order: seq<Source>, k: nat, now: int, b: Bucket)
    requires BatchOf(db, order) && k < |order| && BatchFree(db, Members(order), now)
    ensures 0 <= Received(m, db.ledger, order[k], b)
    ensures Spares(m, db, Members(order), order[k], b)
  {
    var own := order[k];
    if db.documents[own].standing == Posted && b in ReceivedBuckets(db.ledger, own) {
      assert GivesBackWith(db, Members(order), own, b, now);
      assert m == Quantity || m == Pallets;
    } else {
      ReceivedByPosted(m, db, own, b);
    }
  }

  lemma TurnsFit(m: Measure, db: Db, order: seq<Source>, now: int, b: Bucket)
    requires BatchOf(db, order) && forall k :: 0 <= k < |order| ==> FreeInTurn(db, order, k, now)
    ensures EachFits(Lefts(m, db, order, b), Taken(m, db, order, b), Required(m, db.items, b))
  {
    var left, taken, need := Lefts(m, db, order, b), Taken(m, db, order, b), Required(m, db.items, b);
    forall k | 0 <= k < |order|
      ensures 0 <= taken[k] && (0 < taken[k] ==> taken[k] <= left[k] - need)
    {
      TurnTells(m, db, order, k, now, b);
    }
  }

  lemma BatchFits(m: Measure, db: Db, order: seq<Source>, now: int, b: Bucket)
    requires BatchOf(db, order) && BatchFree(db, Members(order), now)
    ensures AllFit(Lefts(m, db, order, b), Taken(m, db, order, b), Required(m, db.items, b))
  {
    var left, taken, need := Lefts(m, db, order, b), Taken(m, db, order, b), Required(m, db.items, b);
    assert order[..|order|] == order;
    forall k | 0 <= k < |order|
      ensures 0 <= taken[k] && (0 < taken[k] ==> need <= left[|order|])
    {
      BatchTells(m, db, order, k, now, b);
    }
  }

  lemma TurnSpares(m: Measure, db: Db, order: seq<Source>, i: nat, now: int, b: Bucket)
    requires BatchOf(db, order) && i < |order|
    requires forall k :: 0 <= k < |order| ==> FreeInTurn(db, order, k, now)
    ensures Spares(m, db, Members(order), order[i], b)
  {
    var left, taken, need := Lefts(m, db, order, b), Taken(m, db, order, b), Required(m, db.items, b);
    TurnsFit(m, db, order, now, b);
    LeftsDraw(m, db, order, b);
    OneByOneOrAtOnce(left, taken, need);
    assert order[..|order|] == order;
    assert 0 < taken[i] ==> need <= left[|order|];
  }

  lemma SparesInTurn(m: Measure, db: Db, order: seq<Source>, i: nat, now: int, b: Bucket)
    requires BatchOf(db, order) && i < |order| && BatchFree(db, Members(order), now)
    ensures FreeWithout(m, db, Members(order[..i]), order[i], b)
  {
    var left, taken, need := Lefts(m, db, order, b), Taken(m, db, order, b), Required(m, db.items, b);
    BatchFits(m, db, order, now, b);
    LeftsDraw(m, db, order, b);
    OneByOneOrAtOnce(left, taken, need);
    assert 0 <= taken[i] && (0 < taken[i] ==> taken[i] <= left[i] - need);
  }

  lemma TurnsAreBatch(db: Db, order: seq<Source>, now: int)
    requires BatchOf(db, order) && forall i :: 0 <= i < |order| ==> FreeInTurn(db, order, i, now)
    ensures BatchFree(db, Members(order), now)
  {
    forall own, b | own in Members(order) && db.documents[own].standing == Posted && b in ReceivedBuckets(db.ledger, own)
      ensures GivesBackWith(db, Members(order), own, b, now)
    {
      var i :| 0 <= i < |order| && order[i] == own;
      assert FreeInTurn(db, order, i, now);
      TurnSpares(Quantity, db, order, i, now, b);
      TurnSpares(Pallets, db, order, i, now, b);
    }
  }

  lemma BatchIsTurns(db: Db, order: seq<Source>, i: nat, now: int)
    requires BatchOf(db, order) && i < |order| && BatchFree(db, Members(order), now)
    ensures FreeInTurn(db, order, i, now)
  {
    forall b | db.documents[order[i]].standing == Posted && b in ReceivedBuckets(db.ledger, order[i])
      ensures CanGiveBackWithout(db, Members(order[..i]), order[i], b, now)
    {
      assert order[i] in Members(order);
      assert GivesBackWith(db, Members(order), order[i], b, now);
      SparesInTurn(Quantity, db, order, i, now, b);
      SparesInTurn(Pallets, db, order, i, now, b);
    }
  }

  /** Every receipt can give its stock back in its turn if and only if the batch as a whole is free. */
  lemma FreeInAnyOrder(db: Db, order: seq<Source>, now: int)
    requires BatchOf(db, order)
    ensures (forall i :: 0 <= i < |order| ==> FreeInTurn(db, order, i, now)) <==> BatchFree(db, Members(order), now)
  {
    if forall i :: 0 <= i < |order| ==> FreeInTurn(db, order, i, now) {
      TurnsAreBatch(db, order, now);
    }
    if BatchFree(db, Members(order), now) {
      forall i | 0 <= i < |order| {
        BatchIsTurns(db, order, i, now);
      }
    }
  }
}
