/**
  What a closed batch tells about the receipts that were created for it. Closing replaces the
  records by those of the worker that closes, so it can lose what other workers did.
 */
module BulkImportClosing {
  import opened Wrappers
  import opened BulkImport
  import opened BulkImportRuns

  /** Every receipt of the batch has the record of a created document. */
  ghost predicate RecordsAll(db: Db, batch: int) {
    forall r :: r in db.receipts && r.slot.batch == batch ==> r.slot in db.records && db.records[r.slot].success
  }

  predicate Succeeded(entries: seq<Entry>, key: string) {
    exists i :: 0 <= i < |entries| && entries[i].key == key && entries[i].record.success
  }

  /** Every receipt of the batch is among the results. */
  ghost predicate Covered(db: Db, batch: int, entries: seq<Entry>) {
    forall r :: r in db.receipts && r.slot.batch == batch ==> Succeeded(entries, r.slot.key)
  }

  lemma FiledSucceeds(batch: int, entries: seq<Entry>, key: string)
    requires DistinctKeys(entries)
    ensures Slot(batch, key) in Filed(batch, entries) && Filed(batch, entries)[Slot(batch, key)].success <==>
              Succeeded(entries, key)
  {
    FiledSlots(batch, entries, Slot(batch, key));
    if Succeeded(entries, key) {
      var i :| 0 <= i < |entries| && entries[i].key == key && entries[i].record.success;
      var j :| 0 <= j < |entries| && entries[j].key == key && entries[j].record == Filed(batch, entries)[Slot(batch, key)];
      assert i == j;
    }
  }

  /** Closing leaves a record of every created receipt if and only if each is among the results that are filed. */
  lemma ClosingRecordsAllExactlyWhen(db: Db, batch: int, created: nat, failed: nat, entries: seq<Entry>, now: int)
    requires Complete(db, batch, created, failed, entries, now).Ok?
    ensures RecordsAll(Complete(db, batch, created, failed, entries, now).value, batch) <==> Covered(db, batch, entries)
  {
    var after := Complete(db, batch, created, failed, entries, now).value;
    CompleteEffect(db, batch, created, failed, entries, now, after);
    FiledBatch(batch, entries);
    ReplacedRecords(db.records, batch, Filed(batch, entries));
    forall r | r in db.receipts && r.slot.batch == batch
      ensures (r.slot in after.records && after.records[r.slot].success) <==> Succeeded(entries, r.slot.key)
    {
      FiledSucceeds(batch, entries, r.slot.key);
    }
  }

  // ----- runs in which every attempt has the same documents

  /** The worker has found no receipt after its insertion failed, or one with other data. */
  predicate GivesUp(m: Machine, move: Move, batch: int) {
    && move.Advance? && move.worker in m.workers
    && var w := m.workers[move.worker];
       && w.batch == batch && w.phase.LookingAgain? && |w.entries| < |w.docs|
       && var doc := w.docs[|w.entries|];
          var again := Found(m.db.receipts, Slot(batch, doc.key));
          again.None? || again.value.payload != doc.payload
  }

  predicate StartsOther(move: Move, batch: int, docs: seq<Doc>) {
    move.Start? && move.batch == batch && move.docs != docs
  }

  predicate IsOf(r: Receipt, docs: seq<Doc>) {
    exists i :: 0 <= i < |docs| && docs[i].valid && docs[i].key == r.slot.key && docs[i].payload == r.payload
  }

  ghost predicate AllOf(receipts: seq<Receipt>, batch: int, docs: seq<Doc>) {
    forall r :: r in receipts && r.slot.batch == batch ==> IsOf(r, docs)
  }

  /** Only documents that are not valid were refused. */
  ghost predicate OnlyInvalidRefused(w: Worker) {
    && |w.entries| <= |w.docs|
    && forall i :: 0 <= i < |w.entries| ==> w.entries[i].record.success || !w.docs[i].valid
  }

  ghost predicate Uniform(m: Machine, batch: int, docs: seq<Doc>) {
    && AllOf(m.db.receipts, batch, docs)
    && (forall k :: k in m.workers && m.workers[k].batch == batch ==>
          m.workers[k].docs == docs && OnlyInvalidRefused(m.workers[k]))
    && (IsClosed(m.db, batch) ==> RecordsAll(m.db, batch))
  }

  lemma OwnPayload(db: Db, batch: int, docs: seq<Doc>, i: nat)
    requires AllOf(db.receipts, batch, docs) && DistinctDocs(docs) && i < |docs|
    ensures var found := Found(db.receipts, Slot(batch, docs[i].key)); found.Some? ==> found.value.payload == docs[i].payload
  {
    FoundIsThere(db.receipts, Slot(batch, docs[i].key));
    var found := Found(db.receipts, Slot(batch, docs[i].key));
    if found.Some? {
      var j :| 0 <= j < |docs| && docs[j].key == found.value.slot.key && docs[j].payload == found.value.payload;
      assert i == j;
    }
  }

  lemma AnsweredOne(w: Worker, entry: Entry)
    requires OnlyInvalidRefused(w) && |w.entries| < |w.docs| && (entry.record.success || !w.docs[|w.entries|].valid)
    ensures OnlyInvalidRefused(Answered(w, entry))
  {
  }

  lemma WorkIsUniform(m: Machine, worker: int, broken: bool, now: int, docs: seq<Doc>)
    requires Inv(m) && worker in m.workers && m.workers[worker].docs == docs && OnlyInvalidRefused(m.workers[worker])
    requires |m.workers[worker].entries| < |docs| && AllOf(m.db.receipts, m.workers[worker].batch, docs)
    requires !GivesUp(m, Advance(worker, broken, now), m.workers[worker].batch)
    ensures var (after, next) := Work(m.db, m.workers[worker], broken, now);
            AllOf(after.receipts, m.workers[worker].batch, docs) && OnlyInvalidRefused(next) && next.docs == docs
  {
    var w := m.workers[worker];
    var i := |w.entries|;
    if w.phase != Broken {
      OwnPayload(m.db, w.batch, docs, i);
      if w.phase.Inserting? {
        var r := Receipt(m.db.nextId, Slot(w.batch, docs[i].key), docs[i].payload);
        assert IsOf(r, docs);
      }
      AnsweredOne(w, if docs[i].valid then Told(docs[i], Receipt(0, Slot(w.batch, ""), 0)) else Refused(docs[i]));
    }
  }

  lemma WorkElsewhereIsUniform(db: Db, w: Worker, broken: bool, now: int, batch: int, docs: seq<Doc>)
    requires |w.entries| < |w.docs| && w.batch != batch && AllOf(db.receipts, batch, docs)
    ensures AllOf(Work(db, w, broken, now).0.receipts, batch, docs)
  {
  }

  /** A worker with all results finds every receipt of the batch among them. */
  lemma FinishedIsCovered(db: Db, w: Worker)
    requires WorkerTrue(w, db) && AllOf(db.receipts, w.batch, w.docs) && OnlyInvalidRefused(w) && |w.entries| == |w.docs|
    ensures Covered(db, w.batch, w.entries)
  {
    forall r | r in db.receipts && r.slot.batch == w.batch
      ensures Succeeded(w.entries, r.slot.key)
    {
      var i :| 0 <= i < |w.docs| && w.docs[i].valid && w.docs[i].key == r.slot.key && w.docs[i].payload == r.payload;
      assert Answers(w.entries[i], w.docs[i], w.batch, db.receipts);
    }
  }

  lemma SameBatchRecordsAll(db: Db, after: Db, batch: int)
    requires SameBatch(db, after, batch) && RecordsAll(db, batch)
    ensures RecordsAll(after, batch)
  {
    forall r | r in after.receipts && r.slot.batch == batch
      ensures r.slot in after.records && after.records[r.slot].success
    {
      var i :| 0 <= i < |after.receipts| && after.receipts[i] == r;
      assert r in ReceiptsOf(after.receipts, batch);
      var j :| 0 <= j < |db.receipts| && db.receipts[j] == r;
    }
  }

  /** A batch that this move closes is closed by a worker of its own that has all its results. */
  lemma ClosedByMove(m: Machine, move: Move, batch: int)
    requires !IsClosed(m.db, batch) && IsClosed(Next(m, move).db, batch)
    ensures move.Advance? && move.worker in m.workers
    ensures var w := m.workers[move.worker];
            && w.batch == batch && !w.phase.Broken? && |w.entries| >= |w.docs|
            && var created := Successes(w.entries);
               Complete(m.db, batch, created, |w.entries| - created, w.entries, move.now) == Ok(Next(m, move).db)
  {
  }

  /** The move that closes a batch hides no receipt if and only if its worker has all of them among its results. */
  lemma ClosingMoveExactlyWhen(m: Machine, move: Move, batch: int)
    requires !IsClosed(m.db, batch) && IsClosed(Next(m, move).db, batch)
    ensures move.Advance? && move.worker in m.workers
    ensures RecordsAll(Next(m, move).db, batch) <==> Covered(m.db, batch, m.workers[move.worker].entries)
  {
    ClosedByMove(m, move, batch);
    var entries := m.workers[move.worker].entries;
    ClosingRecordsAllExactlyWhen(m.db, batch, Successes(entries), |entries| - Successes(entries), entries, move.now);
  }

  lemma ClosingIsUniform(m: Machine, move: Move, batch: int, docs: seq<Doc>)
    requires Inv(m) && Uniform(m, batch, docs) && IsClosed(Next(m, move).db, batch)
    ensures RecordsAll(Next(m, move).db, batch)
  {
    if IsClosed(m.db, batch) {
      MoveElsewhere(m, move, batch);
      SameBatchRecordsAll(m.db, Next(m, move).db, batch);
    } else {
      ClosedByMove(m, move, batch);
      FinishedIsCovered(m.db, m.workers[move.worker]);
      ClosingMoveExactlyWhen(m, move, batch);
    }
  }

  lemma AdvanceIsUniform(m: Machine, worker: int, broken: bool, now: int, batch: int, docs: seq<Doc>)
    requires Inv(m) && Uniform(m, batch, docs) && worker in m.workers && !GivesUp(m, Advance(worker, broken, now), batch)
    ensures var after := Next(m, Advance(worker, broken, now));
            && AllOf(after.db.receipts, batch, docs)
            && (worker in after.workers && after.workers[worker].batch == batch ==>
                  after.workers[worker].docs == docs && OnlyInvalidRefused(after.workers[worker]))
  {
    var w := m.workers[worker];
    if w.phase != Broken && |w.entries| < |w.docs| {
      if w.batch == batch {
        WorkIsUniform(m, worker, broken, now, docs);
      } else {
        WorkElsewhereIsUniform(m.db, w, broken, now, batch, docs);
      }
    }
  }

  lemma MoveIsUniform(m: Machine, move: Move, batch: int, docs: seq<Doc>)
    requires Inv(m) && Uniform(m, batch, docs) && !StartsOther(move, batch, docs) && !GivesUp(m, move, batch)
    ensures Uniform(Next(m, move), batch, docs)
  {
    var after := Next(m, move);
    if IsClosed(after.db, batch) {
      ClosingIsUniform(m, move, batch, docs);
    }
    if move.Advance? && move.worker in m.workers {
      AdvanceIsUniform(m, move.worker, move.broken, move.now, batch, docs);
    }
    forall k | k in after.workers && after.workers[k].batch == batch
      ensures after.workers[k].docs == docs && OnlyInvalidRefused(after.workers[k])
    {
      assert !(move.Advance? && move.worker == k) && k in m.workers ==> after.workers[k] == m.workers[k];
    }
  }

  /**
    When all attempts at a batch have the same documents, and none gives up on one whose insertion
    failed, then in every state in which the batch is closed it records every receipt.
   */
  lemma {:induction false} UniformRunsHideNothing(states: seq<Machine>, moves: seq<Move>, batch: int, docs: seq<Doc>, i: nat)
    requires IsPlay(states, moves) && Inv(states[0]) && Uniform(states[0], batch, docs) && i < |states|
    requires forall k :: 0 <= k < |moves| ==> !StartsOther(moves[k], batch, docs) && !GivesUp(states[k], moves[k], batch)
    ensures Uniform(states[i], batch, docs)
    ensures IsClosed(states[i].db, batch) ==> RecordsAll(states[i].db, batch)
  {
    if i > 0 {
      UniformRunsHideNothing(states, moves, batch, docs, i - 1);
      EveryStateIsTrue(states, moves, i - 1);
      MoveIsUniform(states[i - 1], moves[i - 1], batch, docs);
    }
  }

  // ----- a worker that gives up too early

  const BOTH := [DOC_A, DOC_B]
  const REFUSED_A := Refused(DOC_A)
  const CREATED_B := Entry("B", RECORD_B)

  function GoneOn(updated: int, records: map<Slot, Record>, receipts: seq<Receipt>, workers: map<int, Worker>): Machine {
    Machine(Going(updated, records, receipts), workers)
  }

  const START := Machine(Db(map[], map[], [], 1), map[])
  const ONE := GoneOn(0, map[], [], map[1 := Worker(1, BOTH, [], Looking)])
  const GAVE_UP := GoneOn(0, map[], [], map[1 := Worker(1, BOTH, [REFUSED_A], Looking)])
  const ALL_DONE := GoneOn(0, map[Slot(1, "B") := RECORD_B], [RECEIPT_B],
                           map[1 := Worker(1, BOTH, [REFUSED_A, CREATED_B], Looking)])

  lemma Beginning() returns (s1: Machine, s2: Machine)
    ensures s1 == Next(START, UploadFile(1, 0)) && s2 == Next(s1, PreviewFile(1, true, 0))
    ensures Next(s2, Start(1, 1, BOTH, 0)) == ONE
  {
    s1 := Next(START, UploadFile(1, 0));
    s2 := Next(s1, PreviewFile(1, true, 0));
    assert s2.db.records == map[] && s2.db.batches == map[1 := Batch(Previewed, 0, 0, 0)];
    var s3 := Next(s2, Start(1, 1, BOTH, 0));
    assert Acceptable(BOTH);
    assert s3.db.batches == map[1 := Batch(Committing, 0, 0, 0)];
    assert s3.workers == ONE.workers;
  }

  /** The insertion of A fails, and A is not there. */
  lemma GivingUp() returns (s1: Machine, s2: Machine)
    ensures s1 == Next(ONE, Advance(1, false, 0)) && s2 == Next(s1, Advance(1, true, 0))
    ensures Next(s2, Advance(1, false, 0)) == GAVE_UP
  {
    assert Found([], Slot(1, "A")).None?;
    s1 := Next(ONE, Advance(1, false, 0));
    assert s1.workers == map[1 := Worker(1, BOTH, [], Inserting)];
    s2 := Next(s1, Advance(1, true, 0));
    assert s2.workers == map[1 := Worker(1, BOTH, [], LookingAgain)];
    var s3 := Next(s2, Advance(1, false, 0));
    assert s3.workers[1] == Worker(1, BOTH, [REFUSED_A], Looking);
    assert s3.workers == GAVE_UP.workers;
  }

  lemma GoingOn() returns (s1: Machine)
    ensures s1 == Next(GAVE_UP, Advance(1, false, 0)) && Next(s1, Advance(1, false, 0)) == ALL_DONE
  {
    assert Found([], Slot(1, "B")).None?;
    s1 := Next(GAVE_UP, Advance(1, false, 0));
    assert s1.workers == map[1 := Worker(1, BOTH, [REFUSED_A], Inserting)];
    var s2 := Next(s1, Advance(1, false, 0));
    assert s2.db.batches == ALL_DONE.db.batches && s2.db.records == ALL_DONE.db.records;
    assert s2.workers[1] == ALL_DONE.workers[1];
    assert s2.workers == ALL_DONE.workers;
  }

  const RECEIPT_A := Receipt(2, Slot(1, "A"), 1)

  /** Another worker with the same documents takes over, and its insertion of A succeeds. */
  lemma TakingOver() returns (s1: Machine, s2: Machine, s3: Machine)
    ensures s1 == Next(ALL_DONE, Start(2, 1, BOTH, 30)) && s2 == Next(s1, Advance(2, false, 30))
    ensures s3 == Next(s2, Advance(2, false, 30))
    ensures InStatus(s3.db, 1, Committing) && RECEIPT_A in s3.db.receipts
    ensures 1 in s3.workers && s3.workers[1] == ALL_DONE.workers[1]
  {
    assert Acceptable(BOTH);
    s1 := Next(ALL_DONE, Start(2, 1, BOTH, 30));
    assert s1.db == Going(30, ALL_DONE.db.records, [RECEIPT_B]) by {
      assert s1.db.batches == map[1 := Batch(Committing, 30, 0, 0)];
    }
    assert s1.workers[2] == Worker(1, BOTH, [], Looking);
    assert Found([RECEIPT_B][..0], Slot(1, "A")).None?;
    assert Found([RECEIPT_B], Slot(1, "A")).None?;
    s2 := Next(s1, Advance(2, false, 30));
    assert s2.db == s1.db && s2.workers[2] == Worker(1, BOTH, [], Inserting);
    s3 := Next(s2, Advance(2, false, 30));
    assert s3.db.receipts == [RECEIPT_B, RECEIPT_A];
    assert s3.db.receipts[1] == RECEIPT_A;
  }

  /** The first worker closes the batch, with A refused although it has been received. */
  lemma ClosingHidesA(m: Machine)
    requires InStatus(m.db, 1, Committing) && RECEIPT_A in m.db.receipts
    requires 1 in m.workers && m.workers[1] == ALL_DONE.workers[1]
    ensures var end := Next(m, Advance(1, false, 30)).db;
            IsClosed(end, 1) && RECEIPT_A in end.receipts && Slot(1, "A") in end.records && !end.records[Slot(1, "A")].success
  {
    var entries := [REFUSED_A, CREATED_B];
    assert entries[..1] == [REFUSED_A] && [REFUSED_A][..0] == [];
    assert Successes(entries) == 1;
    FiledSucceeds(1, entries, "A");
    FiledSlots(1, entries, Slot(1, "A"));
    assert entries[0].key == "A";
  }

  lemma Failing() returns (states: seq<Machine>, moves: seq<Move>)
    ensures SamePlay(states, moves) && states[|moves|] == ALL_DONE
  {
    var s1, s2 := Beginning();
    var s4, s5 := GivingUp();
    var s7 := GoingOn();
    moves := [UploadFile(1, 0), PreviewFile(1, true, 0), Start(1, 1, BOTH, 0),
              Advance(1, false, 0), Advance(1, true, 0), Advance(1, false, 0), Advance(1, false, 0), Advance(1, false, 0)];
    states := [START, s1, s2, ONE, s4, s5, GAVE_UP, s7, ALL_DONE];
  }

  /** A run from the start in which every attempt has both documents. */
  ghost predicate SamePlay(states: seq<Machine>, moves: seq<Move>) {
    && IsPlay(states, moves) && states[0] == START
    && forall k :: 0 <= k < |moves| ==> !StartsOther(moves[k], 1, BOTH)
  }

  lemma Longer(states: seq<Machine>, moves: seq<Move>, move: Move, next: Machine)
    requires SamePlay(states, moves) && !StartsOther(move, 1, BOTH) && next == Next(states[|moves|], move)
    ensures SamePlay(states + [next], moves + [move])
  {
    PlayGoesOn(states, moves, move, next);
  }

  lemma Overtaken() returns (states: seq<Machine>, moves: seq<Move>)
    ensures SamePlay(states, moves)
    ensures var end := states[|moves|];
            && InStatus(end.db, 1, Committing) && RECEIPT_A in end.db.receipts
            && 1 in end.workers && end.workers[1] == ALL_DONE.workers[1]
  {
    states, moves := Failing();
    var s1, s2, s3 := TakingOver();
    Longer(states, moves, Start(2, 1, BOTH, 30), s1);
    states, moves := states + [s1], moves + [Start(2, 1, BOTH, 30)];
    Longer(states, moves, Advance(2, false, 30), s2);
    states, moves := states + [s2], moves + [Advance(2, false, 30)];
    Longer(states, moves, Advance(2, false, 30), s3);
    states, moves := states + [s3], moves + [Advance(2, false, 30)];
  }

  /**
    The same documents alone are not enough: a worker whose insertion failed once and that closes
    the batch after another one has taken over reports a created receipt as failed.
   */
  lemma StaleFailureHidesReceipt() returns (states: seq<Machine>, moves: seq<Move>)
    ensures SamePlay(states, moves)
    ensures IsClosed(states[|moves|].db, 1) && !RecordsAll(states[|moves|].db, 1)
  {
    states, moves := Overtaken();
    var end := Next(states[|moves|], Advance(1, false, 30));
    ClosingHidesA(states[|moves|]);
    Longer(states, moves, Advance(1, false, 30), end);
    states, moves := states + [end], moves + [Advance(1, false, 30)];
    assert RECEIPT_A.slot == Slot(1, "A");
  }
}
