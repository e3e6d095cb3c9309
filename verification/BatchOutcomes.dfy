/**
  What the status of a closed batch says about its documents, told by their records alone.
 */
module BatchOutcomes {
  import opened Wrappers
  import opened BulkImport
  import opened BulkImportRuns

  predicate Succeeded(db: Db, batch: int, key: string) {
    Slot(batch, key) in db.records && db.records[Slot(batch, key)].success
  }

  predicate FailedTo(db: Db, batch: int, key: string) {
    Slot(batch, key) in db.records && !db.records[Slot(batch, key)].success
  }

  /** The records of a batch are those of these documents, and each is the result that was reported. */
  ghost predicate RecordsAre(db: Db, batch: int, docs: seq<Doc>, entries: seq<Entry>)
    requires |entries| == |docs|
  {
    && (forall i :: 0 <= i < |docs| ==>
          Slot(batch, docs[i].key) in db.records && db.records[Slot(batch, docs[i].key)] == entries[i].record)
    && (forall s :: s in db.records && s.batch == batch ==> exists i :: 0 <= i < |docs| && docs[i].key == s.key)
  }

  /** The worker is through with its documents. */
  predicate Done(m: Machine, k: int) {
    k in m.workers && !m.workers[k].phase.Broken? && |m.workers[k].entries| == |m.workers[k].docs|
  }

  predicate Closes(m: Machine, k: int, broken: bool, now: int) {
    Done(m, k) && k !in Next(m, Advance(k, broken, now)).workers
  }

  lemma {:induction false} SuccessesTell(entries: seq<Entry>)
    ensures 0 < Successes(entries) <==> exists i :: 0 <= i < |entries| && entries[i].record.success
    ensures Successes(entries) < |entries| <==> exists i :: 0 <= i < |entries| && !entries[i].record.success
  {
    if entries != [] {
      var n := |entries| - 1;
      SuccessesTell(entries[..n]);
      if i :| 0 <= i < n && entries[..n][i].record.success {
        assert entries[i].record.success;
      }
      if i :| 0 <= i < n && !entries[..n][i].record.success {
        assert !entries[i].record.success;
      }
    }
  }

  lemma FiledRecord(batch: int, entries: seq<Entry>, i: nat)
    requires DistinctKeys(entries) && i < |entries|
    ensures var slot := Slot(batch, entries[i].key);
            slot in Filed(batch, entries) && Filed(batch, entries)[slot] == entries[i].record
  {
    FiledSlots(batch, entries, Slot(batch, entries[i].key));
  }

  lemma ClosingRecords(m: Machine, k: int, broken: bool, now: int)
    requires Inv(m) && Closes(m, k, broken, now)
    ensures var w, db := m.workers[k], Next(m, Advance(k, broken, now)).db;
            && w.docs != [] && RecordsAre(db, w.batch, w.docs, w.entries)
            && InStatus(db, w.batch, OutcomeStatus(Successes(w.entries), |w.entries| - Successes(w.entries)))
  {
    var w, db := m.workers[k], Next(m, Advance(k, broken, now)).db;
    var created := Successes(w.entries);
    assert WorkerTrue(w, m.db);
    CompleteEffect(m.db, w.batch, created, |w.entries| - created, w.entries, now, db);
    FiledBatch(w.batch, w.entries);
    ReplacedRecords(m.db.records, w.batch, Filed(w.batch, w.entries));
    forall i | 0 <= i < |w.docs|
      ensures Slot(w.batch, w.docs[i].key) in db.records && db.records[Slot(w.batch, w.docs[i].key)] == w.entries[i].record
    {
      assert Answers(w.entries[i], w.docs[i], w.batch, m.db.receipts);
      FiledRecord(w.batch, w.entries, i);
    }
    forall s | s in db.records && s.batch == w.batch
      ensures exists i :: 0 <= i < |w.docs| && w.docs[i].key == s.key
    {
      FiledSlots(w.batch, w.entries, s);
      var i :| 0 <= i < |w.entries| && w.entries[i].key == s.key;
      assert Answers(w.entries[i], w.docs[i], w.batch, m.db.receipts);
    }
  }

  ghost predicate AllSucceeded(db: Db, batch: int, docs: seq<Doc>) {
    forall i :: 0 <= i < |docs| ==> Succeeded(db, batch, docs[i].key)
  }

  ghost predicate SomeSucceeded(db: Db, batch: int, docs: seq<Doc>) {
    exists i :: 0 <= i < |docs| && Succeeded(db, batch, docs[i].key)
  }

  ghost predicate AllFailed(db: Db, batch: int, docs: seq<Doc>) {
    forall i :: 0 <= i < |docs| ==> FailedTo(db, batch, docs[i].key)
  }

  ghost predicate SomeFailed(db: Db, batch: int, docs: seq<Doc>) {
    exists i :: 0 <= i < |docs| && FailedTo(db, batch, docs[i].key)
  }

  /** Completed when all documents succeeded, partial when some did and some failed, failed when all did. */
  ghost predicate StatusTells(db: Db, batch: int, docs: seq<Doc>) {
    && (InStatus(db, batch, Completed) <==> AllSucceeded(db, batch, docs))
    && (InStatus(db, batch, Partial) <==> SomeSucceeded(db, batch, docs) && SomeFailed(db, batch, docs))
    && (InStatus(db, batch, Failed) <==> AllFailed(db, batch, docs))
  }

  lemma SuccessesCount(db: Db, batch: int, docs: seq<Doc>, entries: seq<Entry>)
    requires |entries| == |docs| && RecordsAre(db, batch, docs, entries)
    ensures SomeSucceeded(db, batch, docs) <==> 0 < Successes(entries)
    ensures AllFailed(db, batch, docs) <==> !SomeSucceeded(db, batch, docs)
  {
    SuccessesTell(entries);
    forall i | 0 <= i < |docs|
      ensures Succeeded(db, batch, docs[i].key) <==> entries[i].record.success
      ensures FailedTo(db, batch, docs[i].key) <==> !entries[i].record.success
    {
    }
  }

  lemma FailuresCount(db: Db, batch: int, docs: seq<Doc>, entries: seq<Entry>)
    requires |entries| == |docs| && RecordsAre(db, batch, docs, entries)
    ensures SomeFailed(db, batch, docs) <==> Successes(entries) < |entries|
    ensures AllSucceeded(db, batch, docs) <==> !SomeFailed(db, batch, docs)
  {
    SuccessesTell(entries);
    forall i | 0 <= i < |docs|
      ensures Succeeded(db, batch, docs[i].key) <==> entries[i].record.success
      ensures FailedTo(db, batch, docs[i].key) <==> !entries[i].record.success
    {
    }
  }

  lemma {:induction false} CountsTell(db: Db, batch: int, docs: seq<Doc>, entries: seq<Entry>)
    requires |entries| == |docs| && docs != [] && RecordsAre(db, batch, docs, entries)
    requires InStatus(db, batch, OutcomeStatus(Successes(entries), |entries| - Successes(entries)))
    ensures StatusTells(db, batch, docs)
  {
    SuccessesCount(db, batch, docs, entries);
    FailuresCount(db, batch, docs, entries);
  }

  /**
    A worker that closes its batch leaves exactly one record a document, the result it reported, and
    the status that these records deserve.
   */
  lemma ClosingTells(m: Machine, k: int, broken: bool, now: int)
    requires Inv(m) && Closes(m, k, broken, now)
    ensures var w, db := m.workers[k], Next(m, Advance(k, broken, now)).db;
            w.docs != [] && RecordsAre(db, w.batch, w.docs, w.entries) && StatusTells(db, w.batch, w.docs)
  {
    ClosingRecords(m, k, broken, now);
    CountsTell(Next(m, Advance(k, broken, now)).db, m.workers[k].batch, m.workers[k].docs, m.workers[k].entries);
  }

  ghost function Keys(docs: seq<Doc>): set<string> {
    set i | 0 <= i < |docs| && docs[i].key != "" :: docs[i].key
  }

  lemma KeysGrow(docs: seq<Doc>)
    requires docs != []
    ensures var n := |docs| - 1;
            Keys(docs) == if docs[n].key == "" then Keys(docs[..n]) else Keys(docs[..n]) + {docs[n].key}
  {
    var n := |docs| - 1;
    forall key | key in Keys(docs[..n])
      ensures key in Keys(docs)
    {
      var i :| 0 <= i < n && docs[..n][i].key == key;
      assert docs[i].key == key;
    }
    forall key | key in Keys(docs) && key != docs[n].key
      ensures key in Keys(docs[..n])
    {
      var i :| 0 <= i < |docs| && docs[i].key == key;
      assert docs[..n][i].key == key;
    }
  }

  predicate Proper(docs: seq<Doc>) {
    DistinctDocs(docs) && forall i :: 0 <= i < |docs| ==> docs[i].key != ""
  }

  lemma ProperGrows(docs: seq<Doc>)
    requires docs != []
    ensures var n := |docs| - 1;
            Proper(docs) <==> Proper(docs[..n]) && docs[n].key != "" && docs[n].key !in Keys(docs[..n])
  {
    var n := |docs| - 1;
    var rest, key := docs[..n], docs[n].key;
    assert forall i :: 0 <= i < n ==> rest[i] == docs[i];
    if Proper(rest) && key != "" && key !in Keys(rest) {
      forall i | 0 <= i < n
        ensures docs[i].key != key
      {
        assert rest[i].key in Keys(rest);
      }
    }
  }

  lemma {:induction false} KeysExactlyWhen(docs: seq<Doc>)
    ensures |Keys(docs)| <= |docs|
    ensures |Keys(docs)| == |docs| <==> Proper(docs)
  {
    if docs != [] {
      KeysExactlyWhen(docs[..|docs| - 1]);
      KeysGrow(docs);
      ProperGrows(docs);
    }
  }

  /** A request is taken up exactly when it has documents, all of them with keys and no key twice. */
  lemma TakenUpExactlyWhen(m: Machine, k: int, batch: int, docs: seq<Doc>, now: int)
    requires k !in m.workers
    ensures var next := Next(m, Start(k, batch, docs, now));
            k in next.workers && !next.workers[k].phase.Broken? <==>
              && Commit(m.db, batch, now).Ok? && docs != []
              && |set i | 0 <= i < |docs| && docs[i].key != "" :: docs[i].key| == |docs|
  {
    KeysExactlyWhen(docs);
  }

  // ----- in every state of every run

  /** A completed batch has records, all of them successes; a partial one has successes and failures. */
  ghost predicate OutcomeTrue(db: Db, batch: int) {
    && (InStatus(db, batch, Completed) ==>
          && (exists key :: Succeeded(db, batch, key))
          && (forall s :: s in db.records && s.batch == batch ==> db.records[s].success))
    && (InStatus(db, batch, Partial) ==> (exists key :: Succeeded(db, batch, key)) && exists key :: FailedTo(db, batch, key))
  }

  lemma OnlyWorkersClose(m: Machine, move: Move, batch: int)
    requires Inv(m) && !IsClosed(m.db, batch) && IsClosed(Next(m, move).db, batch)
    ensures move.Advance? && Closes(m, move.worker, move.broken, move.now) && m.workers[move.worker].batch == batch
  {
    if move.Advance? && move.worker in m.workers {
      var w := m.workers[move.worker];
      assert WorkerTrue(w, m.db);
    }
  }

  lemma ClosedIsTrue(db: Db, batch: int, docs: seq<Doc>, entries: seq<Entry>)
    requires |entries| == |docs| && docs != [] && RecordsAre(db, batch, docs, entries) && StatusTells(db, batch, docs)
    ensures OutcomeTrue(db, batch)
  {
    if InStatus(db, batch, Completed) {
      assert Succeeded(db, batch, docs[0].key);
      forall s | s in db.records && s.batch == batch
        ensures db.records[s].success
      {
        var i :| 0 <= i < |docs| && docs[i].key == s.key;
        assert Succeeded(db, batch, docs[i].key) && s == Slot(batch, docs[i].key);
      }
    }
  }

  lemma SameOutcome(db: Db, after: Db, batch: int)
    requires SameBatch(db, after, batch) && OutcomeTrue(db, batch)
    ensures OutcomeTrue(after, batch)
  {
    forall key
      ensures Succeeded(after, batch, key) <==> Succeeded(db, batch, key)
      ensures FailedTo(after, batch, key) <==> FailedTo(db, batch, key)
    {
      assert Slot(batch, key).batch == batch;
    }
    if InStatus(db, batch, Completed) {
      var key :| Succeeded(db, batch, key);
      assert Succeeded(after, batch, key);
    }
    if InStatus(db, batch, Partial) {
      var good :| Succeeded(db, batch, good);
      var bad :| FailedTo(db, batch, bad);
      assert Succeeded(after, batch, good) && FailedTo(after, batch, bad);
    }
  }

  /** However workers interleave, in every state the status of every closed batch is what its records say. */
  lemma {:induction false} EveryOutcomeIsTrue(states: seq<Machine>, moves: seq<Move>, i: nat, batch: int)
    requires IsPlay(states, moves) && Inv(states[0]) && OutcomeTrue(states[0].db, batch) && i < |states|
    ensures OutcomeTrue(states[i].db, batch)
  {
    if i > 0 {
      var m, move := states[i - 1], moves[i - 1];
      EveryOutcomeIsTrue(states, moves, i - 1, batch);
      EveryStateIsTrue(states, moves, i - 1);
      if IsClosed(m.db, batch) {
        MoveElsewhere(m, move, batch);
        SameOutcome(m.db, states[i].db, batch);
      } else if IsClosed(states[i].db, batch) {
        OnlyWorkersClose(m, move, batch);
        ClosingTells(m, move.worker, move.broken, move.now);
        ClosedIsTrue(states[i].db, batch, m.workers[move.worker].docs, m.workers[move.worker].entries);
      }
    }
  }
}
