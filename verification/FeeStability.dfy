/**
  The receipts that billing reads are as stable as the ledger: while a live invoice covers a
  period, no accepted change adds, removes or changes a confirmed receipt dated in it, so the
  inbound fees of the period come out the same.
 */
module FeeStability {
  import opened Wrappers
  import opened SourceFreeze
  import opened StockLedger
  import opened StockOperations
  import opened DeletionRollback
  import opened DeletionErase
  import opened InboundDeletion
  import opened ReceiptDeletion
  import opened BatchDeletion
  import opened Folds
  import opened StockRuns
  import opened SourceStability
  import opened Sums
  import Charges = ReceiptCharges
  import Fee = InboundFee

  predicate IsReceipt(db: Db, s: Source) {
    s in db.documents && s.kind == Inbound && db.documents[s].standing == Posted
  }

  /** A live invoice for all of the customer's stock that covers every day before the given one. */
  ghost predicate CoversCustomer(db: Db, customer: int, before: int) {
    exists i :: 0 <= i < |db.invoices| && CoversAll(db.invoices[i], customer) && before <= db.invoices[i].periodEnd + 1
  }

  /** A confirmed receipt has a row in the ledger, at its place and day. */
  ghost predicate HasRow(db: Db, s: Source) {
    exists i :: 0 <= i < |db.ledger| && db.ledger[i].source == s
  }

  ghost predicate ReceiptsHaveRows(db: Db) {
    forall s :: IsReceipt(db, s) ==> HasRow(db, s)
  }

  /** The receipt query of a customer for a period that ends before the given day. */
  predicate Shows(db: Db, s: Source, customer: int, before: int) {
    IsReceipt(db, s) && db.documents[s].key.customer == customer && db.documents[s].day < before
  }

  /** The same receipts, with the same data. */
  ghost predicate SameReceipts(db: Db, after: Db, customer: int, before: int) {
    forall s :: (Shows(db, s, customer, before) <==> Shows(after, s, customer, before))
             && (Shows(db, s, customer, before) ==> after.documents[s] == db.documents[s])
  }

  // ----- what confirming adds

  lemma ReceiveCounts(db: Db, receipt: Receipt, n: nat, now: int)
    requires n <= |receipt.lines|
    ensures var outcome := Fold(ReceiveStep(receipt, now), db, receipt.lines, n);
            outcome.Ok? ==> |outcome.value.ledger| == |db.ledger| + n
  {
    var step, inv := ReceiveStep(receipt, now), (k: nat, s: Db) => |s.ledger| == |db.ledger| + k;
    forall k: nat, s: Db | k < |receipt.lines| && inv(k, s) && step(s, receipt.lines[k]).Ok?
      ensures inv(k + 1, step(s, receipt.lines[k]).value)
    {
      ReceiveStepIs(s, receipt, receipt.lines[k], now);
    }
    FoldKeeps(step, db, receipt.lines, n, inv);
  }

  /** A confirmed receipt gets a row of its own, and is dated after every invoice that covers its customer. */
  lemma ConfirmedReceipt(db: Db, receipt: Receipt, now: int)
    requires Inv(db) && Confirmed(db, receipt, now).Ok?
    ensures var after := Confirmed(db, receipt, now).value;
            && HasRow(after, receipt.Own()) && |db.ledger| <= |after.ledger| && after.ledger[..|db.ledger|] == db.ledger
            && after.documents == db.documents[receipt.Own() := receipt.Filed(now)]
    ensures forall i :: 0 <= i < |db.invoices| && CoversAll(db.invoices[i], receipt.customer) ==>
              db.invoices[i].periodEnd < receipt.Day(now)
  {
    var after := Confirmed(db, receipt, now).value;
    ConfirmGrows(db, receipt, now);
    ConfirmKeeps(db, receipt, now);
    ReceiveCounts(LinkContainer(db, receipt), receipt, |receipt.lines|, now);
    var n := |db.ledger|;
    assert n < |after.ledger|;
    assert ThawedReceiptRow(db.invoices, receipt, now)(after.ledger[n]);
    assert RowSound(after.ledger[n], after.containers);
    var mutation := Mutation(receipt.customer, receipt.Day(now), {receipt.location}, receipt.container, receipt.containerType);
    assert receipt.location in Places(mutation);
    forall i | 0 <= i < |db.invoices| && CoversAll(db.invoices[i], receipt.customer)
      ensures db.invoices[i].periodEnd < receipt.Day(now)
    {
      CoversAllBlocksPast(db.invoices[i], mutation);
    }
  }

  // ----- what the other operations leave

  lemma RowsStay(db: Db, after: Db, s: Source)
    requires HasRow(db, s) && |db.ledger| <= |after.ledger| && after.ledger[..|db.ledger|] == db.ledger
    ensures HasRow(after, s)
  {
    var i :| 0 <= i < |db.ledger| && db.ledger[i].source == s;
    assert after.ledger[i] == db.ledger[i];
  }

  /** New rows and documents of other kinds change nothing about receipts. */
  lemma OtherDocuments(db: Db, after: Db, s: Source, document: Document, customer: int, before: int)
    requires ReceiptsHaveRows(db) && s.kind != Inbound && after.documents == db.documents[s := document]
    requires |db.ledger| <= |after.ledger| && after.ledger[..|db.ledger|] == db.ledger
    ensures ReceiptsHaveRows(after) && SameReceipts(db, after, customer, before)
  {
    forall r | IsReceipt(after, r)
      ensures HasRow(after, r)
    {
      RowsStay(db, after, r);
    }
  }

  lemma SameTables(db: Db, after: Db, customer: int, before: int)
    requires ReceiptsHaveRows(db) && after.ledger == db.ledger && after.documents == db.documents
    ensures ReceiptsHaveRows(after) && SameReceipts(db, after, customer, before)
  {
    forall s | IsReceipt(after, s)
      ensures HasRow(after, s)
    {
      assert IsReceipt(db, s);
      var i :| 0 <= i < |db.ledger| && db.ledger[i].source == s;
      assert after.ledger[i].source == s;
    }
  }

  lemma ErasedHaveRows(db: Db, after: Db, sources: set<Source>)
    requires ReceiptsHaveRows(db) && AsIfNever(db, after, sources)
    ensures ReceiptsHaveRows(after)
  {
    forall s | IsReceipt(after, s)
      ensures HasRow(after, s)
    {
      assert IsReceipt(db, s) && s !in sources;
      var i :| 0 <= i < |db.ledger| && db.ledger[i].source == s;
      WithoutMembers(db.ledger, sources, db.ledger[i]);
      var j :| 0 <= j < |after.ledger| && after.ledger[j] == db.ledger[i];
    }
  }

  /** Every receipt among the sources is dated after every invoice that covers the customer. */
  ghost predicate ReceiptsThawed(db: Db, sources: set<Source>, customer: int) {
    forall s, i :: s in sources && IsReceipt(db, s) && db.documents[s].key.customer == customer
                   && 0 <= i < |db.invoices| && CoversAll(db.invoices[i], customer) ==>
      db.invoices[i].periodEnd < db.documents[s].day
  }

  lemma ErasedReceiptsStay(db: Db, after: Db, sources: set<Source>, customer: int, before: int)
    requires AsIfNever(db, after, sources) && ReceiptsThawed(db, sources, customer) && CoversCustomer(db, customer, before)
    ensures SameReceipts(db, after, customer, before)
  {
    var i :| 0 <= i < |db.invoices| && CoversAll(db.invoices[i], customer) && before <= db.invoices[i].periodEnd + 1;
  }

  /** A receipt's row carries its customer, its place and its day. */
  lemma ReceiptDated(db: Db, s: Source, i: nat, m: Mutation)
    requires Inv(db) && IsReceipt(db, s) && HasRow(db, s) && i < |db.invoices|
    requires m.customer == db.documents[s].key.customer && m.day == db.documents[s].day && m.locations == {db.documents[s].location}
    requires CoversAll(db.invoices[i], m.customer) && !Frozen(db.invoices, m)
    ensures db.invoices[i].periodEnd < db.documents[s].day
  {
    var k :| 0 <= k < |db.ledger| && db.ledger[k].source == s;
    assert ReceiptRow(db.ledger[k], db.documents) && RowSound(db.ledger[k], db.containers);
    assert db.documents[s].location in Places(m);
    CoversAllBlocksPast(db.invoices[i], m);
  }

  lemma BatchReceiptsThawed(db: Db, batch: set<Source>, customer: int)
    requires Inv(db) && ReceiptsHaveRows(db) && BatchThawed(db, batch)
    ensures ReceiptsThawed(db, batch, customer)
  {
    forall s, i | s in batch && IsReceipt(db, s) && db.documents[s].key.customer == customer
                  && 0 <= i < |db.invoices| && CoversAll(db.invoices[i], customer)
      ensures db.invoices[i].periodEnd < db.documents[s].day
    {
      ReceiptDated(db, s, i, ReceiptMutation(db.documents[s]));
    }
  }

  lemma CoveredReceiptsThawed(db: Db, sources: set<Source>, customer: int)
    requires Inv(db) && ReceiptsHaveRows(db) && NothingFrozen(db, sources)
    ensures ReceiptsThawed(db, sources, customer)
  {
    forall s, i | s in sources && IsReceipt(db, s) && db.documents[s].key.customer == customer
                  && 0 <= i < |db.invoices| && CoversAll(db.invoices[i], customer)
      ensures db.invoices[i].periodEnd < db.documents[s].day
    {
      var k :| 0 <= k < |db.ledger| && db.ledger[k].source == s;
      assert ReceiptRow(db.ledger[k], db.documents);
      ReceiptDated(db, s, i, RowMutation(db, db.ledger[k]));
    }
  }

  // ----- every step, and whole runs

  lemma ConfirmStays(db: Db, receipt: Receipt, now: int, customer: int, before: int)
    requires Inv(db) && ReceiptsHaveRows(db) && Confirmed(db, receipt, now).Ok? && CoversCustomer(db, customer, before)
    ensures ReceiptsHaveRows(Confirmed(db, receipt, now).value)
    ensures SameReceipts(db, Confirmed(db, receipt, now).value, customer, before)
  {
    var after, own := Confirmed(db, receipt, now).value, receipt.Own();
    ConfirmedReceipt(db, receipt, now);
    forall r | IsReceipt(after, r)
      ensures HasRow(after, r)
    {
      if r != own {
        RowsStay(db, after, r);
      }
    }
    var i :| 0 <= i < |db.invoices| && CoversAll(db.invoices[i], customer) && before <= db.invoices[i].periodEnd + 1;
    assert !Shows(db, own, customer, before) && !Shows(after, own, customer, before);
  }

  lemma StepShowsTheSame(db: Db, op: Op, after: Db, customer: int, before: int)
    requires Inv(db) && ReceiptsHaveRows(db) && Step(db, op, after) && CoversCustomer(db, customer, before)
    ensures ReceiptsHaveRows(after) && SameReceipts(db, after, customer, before)
  {
    if after != db {
      match op {
        case Confirm(receipt, now) => ConfirmStays(db, receipt, now, customer, before);
        case Adjust(id, lines, occurred, now) =>
          AdjustmentKeeps(db, id, lines, occurred, now);
          AdjustGrows(db, id, KeptLines(lines), |KeptLines(lines)|, occurred, now);
          OtherDocuments(db, after, Source(Adjustment, id), ACTIVITY, customer, before);
        case TakeCount(id, lines, now) =>
          CycleCountKeeps(db, id, lines, now);
          CountGrows(db, id, DistinctLines(lines), |DistinctLines(lines)|, now);
          OtherDocuments(db, after, Source(CycleCount, id), ACTIVITY, customer, before);
        case ReserveStock(b, quantity, pallets) => SameTables(db, after, customer, before);
        case PostMovement(e, now) =>
          PostingKeeps(db, e, now);
          AppendEffect(db, e, now);
          OtherDocuments(db, after, e.source, ACTIVITY, customer, before);
        case Cancel(id, now) =>
          BatchReceiptsThawed(db, {Source(Inbound, id)}, customer);
          ErasedHaveRows(db, after, {Source(Inbound, id)});
          ErasedReceiptsStay(db, after, {Source(Inbound, id)}, customer, before);
        case CancelBatch(ids, now) =>
          BatchReceiptsThawed(db, BatchDeletion.ReceiptsOf(ids), customer);
          ErasedHaveRows(db, after, BatchDeletion.ReceiptsOf(ids));
          ErasedReceiptsStay(db, after, BatchDeletion.ReceiptsOf(ids), customer, before);
        case CancelWithDependencies(id, links, selected, now) =>
          CoveredReceiptsThawed(db, Coverage(db, Source(Inbound, id), links), customer);
          ErasedHaveRows(db, after, Coverage(db, Source(Inbound, id), links));
          ErasedReceiptsStay(db, after, Coverage(db, Source(Inbound, id), links), customer, before);
        case ReplaceInvoices(invoices) => SameTables(db, after, customer, before);
      }
    }
  }

  lemma StillTheSame(a: Db, b: Db, c: Db, customer: int, before: int)
    requires SameReceipts(a, b, customer, before) && SameReceipts(b, c, customer, before)
    ensures SameReceipts(a, c, customer, before)
  {
    forall s
      ensures Shows(a, s, customer, before) <==> Shows(c, s, customer, before)
      ensures Shows(a, s, customer, before) ==> c.documents[s] == a.documents[s]
    {
      assert Shows(a, s, customer, before) <==> Shows(b, s, customer, before);
    }
  }

  lemma OneMoreStep(states: seq<Db>, ops: seq<Op>, customer: int, before: int, i: nat)
    requires IsRun(states, ops) && Inv(states[0]) && i + 1 < |states|
    requires ReceiptsHaveRows(states[i]) && CoversCustomer(states[i], customer, before)
    ensures ReceiptsHaveRows(states[i + 1]) && SameReceipts(states[i], states[i + 1], customer, before)
  {
    EveryStateIsSound(states, ops, i);
    StepShowsTheSame(states[i], ops[i], states[i + 1], customer, before);
  }

  /** As long as a live invoice covers the days, in every later state the receipt query shows the same receipts. */
  lemma {:induction false} ReceiptsAreStable(states: seq<Db>, ops: seq<Op>, customer: int, before: int, i: nat)
    requires IsRun(states, ops) && Inv(states[0]) && ReceiptsHaveRows(states[0]) && i < |states|
    requires forall k :: 0 <= k < i ==> CoversCustomer(states[k], customer, before)
    ensures ReceiptsHaveRows(states[i]) && SameReceipts(states[0], states[i], customer, before)
  {
    if i > 0 {
      ReceiptsAreStable(states, ops, customer, before, i - 1);
      OneMoreStep(states, ops, customer, before, i - 1);
      StillTheSame(states[0], states[i - 1], states[i], customer, before);
    }
  }

  // ----- and so the inbound fees are stable

  /** What the query returns, read into the receipts that fees are charged on, in any order. */
  ghost predicate Lists(receipts: seq<Fee.Receipt>, db: Db, read: (Source, Document) -> Fee.Receipt, customer: int, before: int) {
    && (forall r :: r in receipts ==> exists s :: Shows(db, s, customer, before) && r == read(s, db.documents[s]))
    && (forall s :: Shows(db, s, customer, before) ==> read(s, db.documents[s]) in receipts)
  }

  lemma SameFees(first: seq<Fee.Receipt>, later: seq<Fee.Receipt>, container: int, lo: int, hi: int)
    requires forall r :: r in first <==> r in later
    ensures Fee.FeeDue(first, container, lo, hi) == Fee.FeeDue(later, container, lo, hi)
  {
    if r :| Fee.IsInitial(first, container, r) && lo <= r.day < hi {
      assert Fee.IsInitial(later, container, r);
    }
    if r :| Fee.IsInitial(later, container, r) && lo <= r.day < hi {
      assert Fee.IsInitial(first, container, r);
    }
  }

  /** The fee of every container for a covered period is the same in every later state. */
  lemma FeesAreStable(states: seq<Db>, ops: seq<Op>, i: nat, read: (Source, Document) -> Fee.Receipt,
                      first: seq<Fee.Receipt>, later: seq<Fee.Receipt>, customer: int, container: int, lo: int, hi: int)
    requires IsRun(states, ops) && Inv(states[0]) && ReceiptsHaveRows(states[0]) && i < |states|
    requires forall k :: 0 <= k < i ==> CoversCustomer(states[k], customer, hi)
    requires Lists(first, states[0], read, customer, hi) && Lists(later, states[i], read, customer, hi)
    ensures Fee.FeeDue(later, container, lo, hi) == Fee.FeeDue(first, container, lo, hi)
  {
    ReceiptsAreStable(states, ops, customer, hi, i);
    SameFees(first, later, container, lo, hi);
  }

  // ----- and so is everything that a receipt owes

  function Listed(receipts: seq<Fee.Receipt>): set<Fee.Receipt> {
    set r | r in receipts
  }

  /** Each receipt is listed once, so the order in which they are listed does not matter. */
  lemma {:induction false} DueIsSum(t: Charges.ReceiptTerms, known: seq<Fee.Receipt>, lines: seq<Charges.ReceiptLine>, receipts: seq<Fee.Receipt>,
                                    kind: string, lo: int, hi: int)
    requires Fee.DistinctIds(receipts)
    ensures Charges.DueOf(t, known, lines, receipts, kind, lo, hi) == SumOver(Listed(receipts), r => Charges.Due(t, known, lines, r, kind, lo, hi))
  {
    if receipts != [] {
      var n := |receipts| - 1;
      DueIsSum(t, known, lines, receipts[..n], kind, lo, hi);
      assert receipts == receipts[..n] + [receipts[n]];
      SumOverAdd(Listed(receipts[..n]), r => Charges.Due(t, known, lines, r, kind, lo, hi), receipts[n]);
      assert Listed(receipts) == Listed(receipts[..n]) + {receipts[n]};
    }
  }

  lemma SameDues(t: Charges.ReceiptTerms, lines: seq<Charges.ReceiptLine>, first: seq<Fee.Receipt>, later: seq<Fee.Receipt>, kind: string, lo: int, hi: int)
    requires Fee.DistinctIds(first) && Fee.DistinctIds(later) && forall r :: r in first <==> r in later
    ensures Charges.DueOf(t, later, lines, later, kind, lo, hi) == Charges.DueOf(t, first, lines, first, kind, lo, hi)
  {
    DueIsSum(t, first, lines, first, kind, lo, hi);
    DueIsSum(t, later, lines, later, kind, lo, hi);
    assert Listed(first) == Listed(later);
    SumOverEqual(Listed(first), r => Charges.Due(t, first, lines, r, kind, lo, hi), r => Charges.Due(t, later, lines, r, kind, lo, hi));
  }

  /**
    The inbound and wrapping totals of a covered period, fees by pallet included, are the same in
    every later state. A confirmed receipt keeps its lines as long as it is there.
   */
  lemma DuesAreStable(states: seq<Db>, ops: seq<Op>, i: nat, read: (Source, Document) -> Fee.Receipt, first: seq<Fee.Receipt>,
                      later: seq<Fee.Receipt>, t: Charges.ReceiptTerms, lines: seq<Charges.ReceiptLine>, customer: int, kind: string, lo: int, hi: int)
    requires IsRun(states, ops) && Inv(states[0]) && ReceiptsHaveRows(states[0]) && i < |states|
    requires forall k :: 0 <= k < i ==> CoversCustomer(states[k], customer, hi)
    requires Lists(first, states[0], read, customer, hi) && Lists(later, states[i], read, customer, hi)
    requires Fee.DistinctIds(first) && Fee.DistinctIds(later)
    ensures Charges.DueOf(t, later, lines, later, kind, lo, hi) == Charges.DueOf(t, first, lines, first, kind, lo, hi)
  {
    ReceiptsAreStable(states, ops, customer, hi, i);
    SameDues(t, lines, first, later, kind, lo, hi);
  }
}
