/**
  Workers that commit bulk imports at the same time. Each works through its documents one
  transaction at a time and can be lost between any two; a batch whose lease has run out can be
  taken over while its first worker is still going.
 */
module BulkImportRuns {
  import opened Wrappers
  import opened BulkImport

  datatype Phase = Looking | Retaining(receipt: Receipt) | Inserting | LookingAgain | Broken

  /** The worker is at document |entries|. */
  datatype Worker = Worker(batch: int, docs: seq<Doc>, entries: seq<Entry>, phase: Phase)

  datatype Machine = Machine(db: Db, workers: map<int, Worker>)

  datatype Move =
    | UploadFile(batch: int, now: int)
    | PreviewFile(batch: int, sound: bool, now: int)
    | Start(worker: int, batch: int, docs: seq<Doc>, now: int)
    | Advance(worker: int, broken: bool, now: int)
    | Lose(worker: int)

  function OrElse(outcome: Result<Db>, db: Db): Db {
    if outcome.Ok? then outcome.value else db
  }

  predicate DistinctDocs(docs: seq<Doc>) {
    forall i, j :: 0 <= i < j < |docs| ==> docs[i].key != docs[j].key
  }

  /** A request is refused as a whole when it is empty or repeats a document. */
  predicate Acceptable(docs: seq<Doc>) {
    docs != [] && DistinctDocs(docs) && forall i :: 0 <= i < |docs| ==> docs[i].key != ""
  }

  function Answered(w: Worker, entry: Entry): Worker {
    w.(entries := w.entries + [entry], phase := Looking)
  }

  /** What the worker makes of an existing receipt for its document. */
  function Judge(w: Worker, doc: Doc, existing: Option<Receipt>, otherwise: Worker): Worker {
    if existing.None? then otherwise
    else if existing.value.payload != doc.payload then Answered(w, Refused(doc))
    else w.(phase := Retaining(existing.value))
  }

  /** One transaction of a worker at a document; broken stands for an error of the database. */
  function Work(db: Db, w: Worker, broken: bool, now: int): (Db, Worker)
    requires |w.entries| < |w.docs|
  {
    var doc := w.docs[|w.entries|];
    var slot := Slot(w.batch, doc.key);
    match w.phase
    case Looking =>
      if !doc.valid then (db, Answered(w, Refused(doc)))
      else (db, Judge(w, doc, Found(db.receipts, slot), w.(phase := Inserting)))
    case Inserting =>
      var outcome := CreateReceipt(db, slot, doc, now);
      if broken || outcome.Err? then (db, w.(phase := LookingAgain))
      else (outcome.value, Answered(w, Entry(doc.key, Record(db.nextId, true, doc.note))))
    case LookingAgain =>
      var again := Found(db.receipts, slot);
      if again.Some? && again.value.payload == doc.payload then (db, w.(phase := Retaining(again.value)))
      else (db, Answered(w, Refused(doc)))
    case Retaining(receipt) =>
      var outcome := RecordDocument(db, slot, Told(doc, receipt).record, now);
      if broken || outcome.Err? then (db, w.(phase := Broken)) else (outcome.value, Answered(w, Told(doc, receipt)))
    case Broken => (db, w)
  }

  function Next(m: Machine, move: Move): Machine {
    match move
    case UploadFile(batch, now) => m.(db := OrElse(Upload(m.db, batch, now), m.db))
    case PreviewFile(batch, sound, now) => m.(db := OrElse(Preview(m.db, batch, sound, now), m.db))
    case Start(worker, batch, docs, now) =>
      var outcome := Commit(m.db, batch, now);
      if worker in m.workers || outcome.Err? then m
      else Machine(outcome.value, m.workers[worker := Worker(batch, docs, [], if Acceptable(docs) then Looking else Broken)])
    case Advance(worker, broken, now) =>
      if worker !in m.workers then m
      else
        var w := m.workers[worker];
        if w.phase.Broken? then Machine(OrElse(MarkFailed(m.db, w.batch, now), m.db), m.workers - {worker})
        else if |w.entries| < |w.docs| then
          var (db, next) := Work(m.db, w, broken, now);
          Machine(db, m.workers[worker := next])
        else
          var created := Successes(w.entries);
          var outcome := Complete(m.db, w.batch, created, |w.entries| - created, w.entries, now);
          if broken || outcome.Err? then m.(workers := m.workers[worker := w.(phase := Broken)])
          else Machine(outcome.value, m.workers - {worker})
    case Lose(worker) => m.(workers := m.workers - {worker})
  }

  ghost predicate IsPlay(states: seq<Machine>, moves: seq<Move>) {
    && |states| == |moves| + 1
    && forall i :: 0 <= i < |moves| ==> states[i + 1] == Next(states[i], moves[i])
  }

  // ----- the invariant

  /** One receipt an import key at most. */
  ghost predicate OneReceiptEach(receipts: seq<Receipt>) {
    forall i, j :: 0 <= i < j < |receipts| ==> receipts[i].slot != receipts[j].slot
  }

  /** A record of a created document points to the receipt of that very import key. */
  ghost predicate RecordsTrue(db: Db) {
    forall s :: s in db.records && db.records[s].success ==>
      Found(db.receipts, s).Some? && Found(db.receipts, s).value.id == db.records[s].document
  }

  predicate IsOpen(db: Db, batch: int) {
    InStatus(db, batch, Previewed) || InStatus(db, batch, Committing)
  }

  /** Before a batch is closed, only created documents have records. */
  ghost predicate OnlyCreatedWhileOpen(db: Db) {
    forall s :: s in db.records && IsOpen(db, s.batch) ==> db.records[s].success
  }

  /** A closed batch counts exactly its records. */
  ghost predicate Tallied(db: Db, batch: int)
    requires batch in db.batches
  {
    var b := db.batches[batch];
    && b.created == |CreatedOf(db.records, batch)|
    && b.created + b.failed == |RecordsOf(db.records, batch)|
    && b.status == OutcomeStatus(b.created, b.failed)
  }

  function CreatedOf(records: map<Slot, Record>, batch: int): set<Slot> {
    set s | s in records && s.batch == batch && records[s].success
  }

  predicate IsClosed(db: Db, batch: int) {
    InStatus(db, batch, Completed) || InStatus(db, batch, Partial)
  }

  ghost predicate WorkerTrue(w: Worker, db: Db) {
    && w.batch in db.batches && |w.entries| <= |w.docs| && (w.phase != Broken ==> Acceptable(w.docs))
    && (forall i :: 0 <= i < |w.entries| ==> Answers(w.entries[i], w.docs[i], w.batch, db.receipts))
    && (w.phase.Retaining? ==>
          && |w.entries| < |w.docs| && w.docs[|w.entries|].valid
          && Found(db.receipts, Slot(w.batch, w.docs[|w.entries|].key)) == Some(w.phase.receipt)
          && w.phase.receipt.payload == w.docs[|w.entries|].payload
          && w.phase.receipt.slot == Slot(w.batch, w.docs[|w.entries|].key))
    && (w.phase.Inserting? ==> |w.entries| < |w.docs| && w.docs[|w.entries|].valid)
    && (w.phase.LookingAgain? ==> |w.entries| < |w.docs| && w.docs[|w.entries|].valid)
  }

  ghost predicate DbInv(db: Db) {
    && OneReceiptEach(db.receipts) && RecordsTrue(db) && OnlyCreatedWhileOpen(db)
    && (forall s :: s in db.records ==> s.batch in db.batches)
    && (forall b :: b in db.batches && IsClosed(db, b) ==> Tallied(db, b))
  }

  ghost predicate Inv(m: Machine) {
    DbInv(m.db) && forall k :: k in m.workers ==> WorkerTrue(m.workers[k], m.db)
  }

  // ----- what a transaction does to what is already there

  /** Receipts and batches are only ever added. */
  ghost predicate Grows(db: Db, after: Db) {
    && db.batches.Keys <= after.batches.Keys
    && forall s :: Found(db.receipts, s).Some? ==> Found(after.receipts, s) == Found(db.receipts, s)
  }

  lemma OthersStayTrue(w: Worker, db: Db, after: Db)
    requires WorkerTrue(w, db) && Grows(db, after)
    ensures WorkerTrue(w, after)
  {
    forall i | 0 <= i < |w.entries|
      ensures Answers(w.entries[i], w.docs[i], w.batch, after.receipts)
    {
      assert Answers(w.entries[i], w.docs[i], w.batch, db.receipts);
    }
  }

  lemma OneMoreReceipt(receipts: seq<Receipt>, r: Receipt)
    requires OneReceiptEach(receipts) && Found(receipts, r.slot).None?
    ensures OneReceiptEach(receipts + [r])
    ensures forall s :: Found(receipts + [r], s) == if s == r.slot then Some(r) else Found(receipts, s)
  {
    FoundIsThere(receipts, r.slot);
    assert (receipts + [r])[..|receipts|] == receipts;
    forall i | 0 <= i < |receipts|
      ensures receipts[i].slot != r.slot
    {
      assert receipts[i] in receipts;
    }
  }

  lemma SameTally(db: Db, after: Db, batch: int)
    requires batch in db.batches && batch in after.batches && Tallied(db, batch) && after.batches[batch] == db.batches[batch]
    requires forall s: Slot :: s.batch == batch ==>
               (s in after.records <==> s in db.records) && (s in db.records ==> after.records[s] == db.records[s])
    ensures Tallied(after, batch)
  {
    assert RecordsOf(after.records, batch) == RecordsOf(db.records, batch);
    assert CreatedOf(after.records, batch) == CreatedOf(db.records, batch);
  }

  lemma PreviewKeeps(db: Db, batch: int, sound: bool, now: int)
    requires DbInv(db) && Preview(db, batch, sound, now).Ok?
    ensures DbInv(Preview(db, batch, sound, now).value) && Grows(db, Preview(db, batch, sound, now).value)
  {
    var after := Preview(db, batch, sound, now).value;
    forall b | b in after.batches && IsClosed(after, b)
      ensures Tallied(after, b)
    {
      SameTally(db, after, b);
    }
  }

  /** A change of one batch's status to one that is not closed. */
  lemma StatusKeeps(db: Db, after: Db, batch: int)
    requires DbInv(db) && after == db.(batches := after.batches) && batch in after.batches && !IsClosed(after, batch)
    requires after.batches == db.batches[batch := after.batches[batch]]
    requires IsOpen(after, batch) ==> IsOpen(db, batch)
    ensures DbInv(after) && Grows(db, after)
  {
    forall b | b in after.batches && IsClosed(after, b)
      ensures Tallied(after, b)
    {
      SameTally(db, after, b);
    }
    forall s | s in after.records && IsOpen(after, s.batch)
      ensures after.records[s].success
    {
      assert IsOpen(db, s.batch);
    }
  }

  lemma RecordKeeps(db: Db, slot: Slot, record: Record, now: int)
    requires DbInv(db) && RecordDocument(db, slot, record, now).Ok?
    requires record.success && Found(db.receipts, slot).Some? && Found(db.receipts, slot).value.id == record.document
    ensures DbInv(RecordDocument(db, slot, record, now).value) && Grows(db, RecordDocument(db, slot, record, now).value)
  {
    var after := RecordDocument(db, slot, record, now).value;
    forall b | b in after.batches && IsClosed(after, b)
      ensures Tallied(after, b)
    {
      SameTally(db, after, b);
    }
  }

  lemma CreateKeeps(db: Db, slot: Slot, doc: Doc, now: int)
    requires DbInv(db) && CreateReceipt(db, slot, doc, now).Ok?
    ensures var after := CreateReceipt(db, slot, doc, now).value;
            && DbInv(after) && Grows(db, after) && InStatus(db, slot.batch, Committing)
            && Found(after.receipts, slot) == Some(Receipt(db.nextId, slot, doc.payload))
  {
    var r := Receipt(db.nextId, slot, doc.payload);
    var with := db.(receipts := db.receipts + [r], nextId := db.nextId + 1);
    OneMoreReceipt(db.receipts, r);
    assert DbInv(with) by {
      forall b | b in with.batches && IsClosed(with, b)
        ensures Tallied(with, b)
      {
        SameTally(db, with, b);
      }
    }
    RecordKeeps(with, slot, Record(db.nextId, true, doc.note), now);
  }

  // ----- closing a batch

  lemma FiledStep(batch: int, entries: seq<Entry>)
    requires DistinctKeys(entries) && entries != []
    ensures var last := entries[|entries| - 1];
            var slot, before := Slot(batch, last.key), Filed(batch, entries[..|entries| - 1]);
            && slot !in before && Filed(batch, entries) == before[slot := last.record]
            && DistinctKeys(entries[..|entries| - 1])
  {
    NotYetFiled(batch, entries, |entries| - 1);
  }

  lemma {:induction false} FiledCount(batch: int, entries: seq<Entry>)
    requires DistinctKeys(entries)
    ensures |RecordsOf(Filed(batch, entries), batch)| == |entries|
  {
    if entries == [] {
      assert RecordsOf(Filed(batch, entries), batch) == {};
    } else {
      var last, before := entries[|entries| - 1], Filed(batch, entries[..|entries| - 1]);
      FiledStep(batch, entries);
      FiledCount(batch, entries[..|entries| - 1]);
      assert RecordsOf(before[Slot(batch, last.key) := last.record], batch) == RecordsOf(before, batch) + {Slot(batch, last.key)};
    }
  }

  lemma {:induction false} CreatedCount(batch: int, entries: seq<Entry>)
    requires DistinctKeys(entries)
    ensures |CreatedOf(Filed(batch, entries), batch)| == Successes(entries)
  {
    if entries == [] {
      assert CreatedOf(Filed(batch, entries), batch) == {};
    } else {
      var last, before := entries[|entries| - 1], Filed(batch, entries[..|entries| - 1]);
      var slot := Slot(batch, last.key);
      FiledStep(batch, entries);
      CreatedCount(batch, entries[..|entries| - 1]);
      assert CreatedOf(before[slot := last.record], batch)
          == CreatedOf(before, batch) + if last.record.success then {slot} else {};
    }
  }

  predicate PointsTo(receipts: seq<Receipt>, slot: Slot, document: int) {
    Found(receipts, slot).Some? && Found(receipts, slot).value.id == document
  }

  ghost predicate SuccessesTrue(receipts: seq<Receipt>, batch: int, entries: seq<Entry>) {
    forall i :: 0 <= i < |entries| && entries[i].record.success ==>
      PointsTo(receipts, Slot(batch, entries[i].key), entries[i].record.document)
  }

  ghost predicate FiledIsTrue(receipts: seq<Receipt>, batch: int, filed: map<Slot, Record>) {
    forall s :: s in filed ==> s.batch == batch && (filed[s].success ==> PointsTo(receipts, s, filed[s].document))
  }

  function Replaced(records: map<Slot, Record>, batch: int, filed: map<Slot, Record>): map<Slot, Record> {
    (records - RecordsOf(records, batch)) + filed
  }

  /** Other batches keep their records; this one has exactly the filed ones. */
  lemma ReplacedRecords(records: map<Slot, Record>, batch: int, filed: map<Slot, Record>)
    requires forall s :: s in filed ==> s.batch == batch
    ensures RecordsOf(Replaced(records, batch, filed), batch) == RecordsOf(filed, batch)
    ensures CreatedOf(Replaced(records, batch, filed), batch) == CreatedOf(filed, batch)
    ensures forall s: Slot :: s.batch != batch ==>
              && (s in Replaced(records, batch, filed) <==> s in records)
              && (s in records ==> Replaced(records, batch, filed)[s] == records[s])
    ensures forall s: Slot :: s.batch == batch ==>
              && (s in Replaced(records, batch, filed) <==> s in filed)
              && (s in filed ==> Replaced(records, batch, filed)[s] == filed[s])
  {
  }

  lemma FiledTrue(receipts: seq<Receipt>, batch: int, entries: seq<Entry>)
    requires SuccessesTrue(receipts, batch, entries)
    ensures FiledIsTrue(receipts, batch, Filed(batch, entries))
  {
    var filed := Filed(batch, entries);
    forall s
      ensures s in filed ==> s.batch == batch
      ensures s in filed && filed[s].success ==> PointsTo(receipts, s, filed[s].document)
    {
      FiledSlots(batch, entries, s);
    }
  }

  lemma FiledBatch(batch: int, entries: seq<Entry>)
    ensures forall s :: s in Filed(batch, entries) ==> s.batch == batch
  {
    forall s {
      FiledSlots(batch, entries, s);
    }
  }

  /** The closed batch with its records replaced, every other batch as it was. */
  lemma ReplacingKeeps(db: Db, after: Db, batch: int, filed: map<Slot, Record>)
    requires DbInv(db) && batch in db.batches && after == db.(records := after.records, batches := after.batches)
    requires after.records == Replaced(db.records, batch, filed)
    requires batch in after.batches && after.batches == db.batches[batch := after.batches[batch]]
    requires FiledIsTrue(db.receipts, batch, filed)
    requires !IsOpen(after, batch) && (IsClosed(after, batch) ==> Tallied(after, batch))
    ensures DbInv(after) && Grows(db, after)
  {
    ReplacedRecords(db.records, batch, filed);
    forall s | s in after.records && IsOpen(after, s.batch)
      ensures after.records[s].success
    {
      assert IsOpen(db, s.batch);
    }
    forall b | b in after.batches && IsClosed(after, b) && b != batch
      ensures Tallied(after, b)
    {
      SameTally(db, after, b);
    }
  }

  lemma CompleteEffect(db: Db, batch: int, created: nat, failed: nat, entries: seq<Entry>, now: int, after: Db)
    requires Complete(db, batch, created, failed, entries, now) == Ok(after)
    ensures InStatus(db, batch, Committing) && DistinctKeys(entries)
    ensures after == db.(records := Replaced(db.records, batch, Filed(batch, entries)),
                         batches := db.batches[batch := Batch(OutcomeStatus(created, failed), now, created, failed)])
  {
  }

  lemma ReplacedTally(db: Db, after: Db, batch: int, entries: seq<Entry>)
    requires DistinctKeys(entries) && after.records == Replaced(db.records, batch, Filed(batch, entries))
    requires batch in after.batches && after.batches[batch].created == Successes(entries)
    requires after.batches[batch].failed == |entries| - Successes(entries)
    requires after.batches[batch].status == OutcomeStatus(after.batches[batch].created, after.batches[batch].failed)
    ensures Tallied(after, batch)
  {
    FiledBatch(batch, entries);
    FiledCount(batch, entries);
    CreatedCount(batch, entries);
    ReplacedRecords(db.records, batch, Filed(batch, entries));
  }

  lemma CompleteKeeps(db: Db, after: Db, batch: int, entries: seq<Entry>, closing: Batch)
    requires DbInv(db) && batch in db.batches && DistinctKeys(entries) && SuccessesTrue(db.receipts, batch, entries)
    requires closing.created == Successes(entries) && closing.failed == |entries| - closing.created
    requires closing.status == OutcomeStatus(closing.created, closing.failed)
    requires after == db.(records := Replaced(db.records, batch, Filed(batch, entries)),
                          batches := db.batches[batch := closing])
    ensures DbInv(after) && Grows(db, after)
  {
    FiledTrue(db.receipts, batch, entries);
    ReplacedTally(db, after, batch, entries);
    ReplacingKeeps(db, after, batch, Filed(batch, entries));
  }

  // ----- every move

  lemma AnswersGrow(w: Worker, entry: Entry, db: Db)
    requires WorkerTrue(w, db) && |w.entries| < |w.docs| && w.phase != Broken
    requires Answers(entry, w.docs[|w.entries|], w.batch, db.receipts)
    ensures WorkerTrue(Answered(w, entry), db)
  {
  }

  lemma WorkKeeps(db: Db, w: Worker, broken: bool, now: int)
    requires DbInv(db) && WorkerTrue(w, db) && |w.entries| < |w.docs|
    ensures var (after, next) := Work(db, w, broken, now);
            DbInv(after) && Grows(db, after) && WorkerTrue(next, after)
  {
    var doc := w.docs[|w.entries|];
    var slot := Slot(w.batch, doc.key);
    FoundIsThere(db.receipts, slot);
    match w.phase {
      case Looking =>
      case Inserting =>
        var outcome := CreateReceipt(db, slot, doc, now);
        if outcome.Ok? {
          CreateKeeps(db, slot, doc, now);
          OthersStayTrue(w, db, outcome.value);
          AnswersGrow(w, Entry(doc.key, Record(db.nextId, true, doc.note)), outcome.value);
        }
      case LookingAgain =>
      case Retaining(receipt) =>
        var outcome := RecordDocument(db, slot, Told(doc, receipt).record, now);
        if outcome.Ok? {
          RecordKeeps(db, slot, Told(doc, receipt).record, now);
          OthersStayTrue(w, db, outcome.value);
          AnswersGrow(w, Told(doc, receipt), outcome.value);
        }
      case Broken =>
    }
  }

  lemma FinishedEntries(w: Worker, db: Db)
    requires WorkerTrue(w, db)
    ensures SuccessesTrue(db.receipts, w.batch, w.entries)
  {
    forall i | 0 <= i < |w.entries| && w.entries[i].record.success
      ensures PointsTo(db.receipts, Slot(w.batch, w.entries[i].key), w.entries[i].record.document)
    {
      assert Answers(w.entries[i], w.docs[i], w.batch, db.receipts);
    }
  }

  lemma ClosingKeeps(db: Db, batch: int, entries: seq<Entry>, created: nat, failed: nat, now: int)
    requires DbInv(db) && SuccessesTrue(db.receipts, batch, entries)
    requires created == Successes(entries) && created + failed == |entries|
    ensures var outcome := Complete(db, batch, created, failed, entries, now);
            outcome.Ok? ==> DbInv(outcome.value) && Grows(db, outcome.value)
  {
    var outcome := Complete(db, batch, created, failed, entries, now);
    if outcome.Ok? {
      CompleteEffect(db, batch, created, failed, entries, now, outcome.value);
      CompleteKeeps(db, outcome.value, batch, entries, Batch(OutcomeStatus(created, failed), now, created, failed));
    }
  }

  lemma FinishKeeps(db: Db, w: Worker, now: int)
    requires DbInv(db) && WorkerTrue(w, db)
    ensures var created := Successes(w.entries);
            var outcome := Complete(db, w.batch, created, |w.entries| - created, w.entries, now);
            outcome.Ok? ==> DbInv(outcome.value) && Grows(db, outcome.value)
  {
    FinishedEntries(w, db);
    ClosingKeeps(db, w.batch, w.entries, Successes(w.entries), |w.entries| - Successes(w.entries), now);
  }

  lemma OneWorkerMoves(m: Machine, after: Machine, worker: int)
    requires Inv(m) && DbInv(after.db) && Grows(m.db, after.db)
    requires forall k :: k in after.workers && k != worker ==> k in m.workers && after.workers[k] == m.workers[k]
    requires worker in after.workers ==> WorkerTrue(after.workers[worker], after.db)
    ensures Inv(after)
  {
    forall k | k in after.workers && k != worker
      ensures WorkerTrue(after.workers[k], after.db)
    {
      OthersStayTrue(m.workers[k], m.db, after.db);
    }
  }

  lemma BrokenKeeps(m: Machine, worker: int, broken: bool, now: int)
    requires Inv(m) && worker in m.workers && m.workers[worker].phase.Broken?
    ensures Inv(Next(m, Advance(worker, broken, now))) && Grows(m.db, Next(m, Advance(worker, broken, now)).db)
  {
    var w, after := m.workers[worker], Next(m, Advance(worker, broken, now));
    if MarkFailed(m.db, w.batch, now).Ok? {
      StatusKeeps(m.db, after.db, w.batch);
    }
    OneWorkerMoves(m, after, worker);
  }

  lemma AdvanceKeeps(m: Machine, worker: int, broken: bool, now: int)
    requires Inv(m) && worker in m.workers
    ensures Inv(Next(m, Advance(worker, broken, now))) && Grows(m.db, Next(m, Advance(worker, broken, now)).db)
  {
    var w := m.workers[worker];
    if w.phase.Broken? {
      BrokenKeeps(m, worker, broken, now);
    } else {
      if |w.entries| < |w.docs| {
        WorkKeeps(m.db, w, broken, now);
      } else {
        FinishKeeps(m.db, w, now);
      }
      OneWorkerMoves(m, Next(m, Advance(worker, broken, now)), worker);
    }
  }

  lemma MoveKeeps(m: Machine, move: Move)
    requires Inv(m)
    ensures Inv(Next(m, move)) && Grows(m.db, Next(m, move).db)
  {
    var after := Next(m, move);
    match move {
      case UploadFile(batch, now) =>
        if Upload(m.db, batch, now).Ok? {
          StatusKeeps(m.db, after.db, batch);
        }
      case PreviewFile(batch, sound, now) =>
        if Preview(m.db, batch, sound, now).Ok? {
          PreviewKeeps(m.db, batch, sound, now);
        }
      case Start(worker, batch, docs, now) =>
        if Commit(m.db, batch, now).Ok? {
          StatusKeeps(m.db, Commit(m.db, batch, now).value, batch);
        }
      case Advance(worker, broken, now) =>
        if worker in m.workers {
          AdvanceKeeps(m, worker, broken, now);
        }
      case Lose(worker) =>
    }
    if !move.Advance? {
      forall k | k in after.workers && k in m.workers
        ensures WorkerTrue(m.workers[k], after.db)
      {
        OthersStayTrue(m.workers[k], m.db, after.db);
      }
    }
  }

  // ----- whole runs

  /** In every state of every run an import key has one receipt at most, and records and counts are true. */
  lemma {:induction false} EveryStateIsTrue(states: seq<Machine>, moves: seq<Move>, i: nat)
    requires IsPlay(states, moves) && Inv(states[0]) && i < |states|
    ensures Inv(states[i])
  {
    if i > 0 {
      EveryStateIsTrue(states, moves, i - 1);
      MoveKeeps(states[i - 1], moves[i - 1]);
    }
  }

  /** A document counts as created only with a receipt of its own data: other data under its key excludes it. */
  lemma CountedMeansOwnData(m: Machine, k: int, i: nat, r: Receipt)
    requires Inv(m) && k in m.workers && i < |m.workers[k].entries| && m.workers[k].entries[i].record.success
    requires r in m.db.receipts && r.slot == Slot(m.workers[k].batch, m.workers[k].docs[i].key)
    ensures r.payload == m.workers[k].docs[i].payload && r.id == m.workers[k].entries[i].record.document
  {
    var w := m.workers[k];
    assert Answers(w.entries[i], w.docs[i], w.batch, m.db.receipts);
    FoundIsThere(m.db.receipts, r.slot);
    var a :| 0 <= a < |m.db.receipts| && m.db.receipts[a] == r;
    var b :| 0 <= b < |m.db.receipts| && m.db.receipts[b] == Found(m.db.receipts, r.slot).value;
    assert a == b;
  }

  /** A move adds at most one receipt, and only for a batch that is being committed. */
  lemma ReceiptsOnlyWhileCommitting(m: Machine, move: Move)
    ensures var before, after := m.db.receipts, Next(m, move).db.receipts;
            || after == before
            || (&& |after| == |before| + 1 && after[..|before|] == before
                && InStatus(m.db, after[|before|].slot.batch, Committing))
  {
    if move.Advance? && move.worker in m.workers {
      var w := m.workers[move.worker];
      if |w.entries| < |w.docs| && w.phase.Inserting? {
        var slot := Slot(w.batch, w.docs[|w.entries|].key);
        assert (m.db.receipts + [Receipt(m.db.nextId, slot, w.docs[|w.entries|].payload)])[..|m.db.receipts|] == m.db.receipts;
      }
    }
  }

  function ReceiptsOf(receipts: seq<Receipt>, batch: int): set<Receipt> {
    set i | 0 <= i < |receipts| && receipts[i].slot.batch == batch :: receipts[i]
  }

  /** The batch has the same status, counts, records and receipts. */
  ghost predicate SameBatch(db: Db, after: Db, batch: int) {
    && batch in db.batches && batch in after.batches && after.batches[batch] == db.batches[batch]
    && (forall s: Slot :: s.batch == batch ==>
          (s in after.records <==> s in db.records) && (s in db.records ==> after.records[s] == db.records[s]))
    && ReceiptsOf(after.receipts, batch) == ReceiptsOf(db.receipts, batch)
  }

  lemma ReceiptsElsewhere(receipts: seq<Receipt>, r: Receipt, batch: int)
    requires r.slot.batch != batch
    ensures ReceiptsOf(receipts + [r], batch) == ReceiptsOf(receipts, batch)
  {
    forall x | x in ReceiptsOf(receipts, batch)
      ensures x in ReceiptsOf(receipts + [r], batch)
    {
      var i :| 0 <= i < |receipts| && receipts[i] == x;
      assert (receipts + [r])[i] == x;
    }
  }

  lemma WorkElsewhere(db: Db, w: Worker, broken: bool, now: int, batch: int)
    requires |w.entries| < |w.docs| && IsClosed(db, batch)
    ensures SameBatch(db, Work(db, w, broken, now).0, batch)
  {
    if w.phase.Inserting? && w.batch != batch {
      ReceiptsElsewhere(db.receipts, Receipt(db.nextId, Slot(w.batch, w.docs[|w.entries|].key), w.docs[|w.entries|].payload), batch);
    }
  }

  lemma CompleteElsewhere(db: Db, b: int, created: nat, failed: nat, entries: seq<Entry>, now: int, after: Db, batch: int)
    requires IsClosed(db, batch) && Complete(db, b, created, failed, entries, now) == Ok(after)
    ensures SameBatch(db, after, batch)
  {
    CompleteEffect(db, b, created, failed, entries, now, after);
    FiledBatch(b, entries);
    ReplacedRecords(db.records, b, Filed(b, entries));
  }

  lemma MoveElsewhere(m: Machine, move: Move, batch: int)
    requires IsClosed(m.db, batch)
    ensures SameBatch(m.db, Next(m, move).db, batch)
  {
    if move.Advance? && move.worker in m.workers {
      var w := m.workers[move.worker];
      if w.phase.Broken? {
      } else if |w.entries| < |w.docs| {
        WorkElsewhere(m.db, w, move.broken, move.now, batch);
      } else {
        var created := Successes(w.entries);
        var outcome := Complete(m.db, w.batch, created, |w.entries| - created, w.entries, move.now);
        if outcome.Ok? {
          CompleteElsewhere(m.db, w.batch, created, |w.entries| - created, w.entries, move.now, outcome.value, batch);
        }
      }
    }
  }

  /** A completed or partial batch is never left, and nothing of it ever changes again. */
  lemma {:induction false} ClosedForGood(states: seq<Machine>, moves: seq<Move>, i: nat, j: nat, batch: int)
    requires IsPlay(states, moves) && i <= j < |states| && IsClosed(states[i].db, batch)
    ensures SameBatch(states[i].db, states[j].db, batch)
    decreases j
  {
    if i < j {
      ClosedForGood(states, moves, i, j - 1, batch);
      MoveElsewhere(states[j - 1], moves[j - 1], batch);
    }
  }

  // ----- what a takeover can leave behind

  const DOC_A := Doc("A", 1, true, "")
  const DOC_B := Doc("B", 2, true, "")
  const RECEIPT_B := Receipt(1, Slot(1, "B"), 2)
  const RECORD_B := Record(1, true, "")
  const ENTRY_A := Entry("A", Record(2, true, ""))

  function Going(updated: int, records: map<Slot, Record>, receipts: seq<Receipt>): Db {
    Db(map[1 := Batch(Committing, updated, 0, 0)], records, receipts, |receipts| + 1)
  }

  const TAKEN_OVER := Machine(Going(30, map[], []),
                              map[1 := Worker(1, [DOC_A], [], Looking), 2 := Worker(1, [DOC_B], [], Looking)])
  const B_CREATED := Machine(Going(30, map[Slot(1, "B") := RECORD_B], [RECEIPT_B]),
                             map[1 := Worker(1, [DOC_A], [], Looking), 2 := Worker(1, [DOC_B], [Entry("B", RECORD_B)], Looking)])

  lemma Overtaking() returns (states: seq<Machine>, moves: seq<Move>)
    ensures IsPlay(states, moves) && |moves| == 4
    ensures states[0] == Machine(Db(map[], map[], [], 1), map[]) && states[4] == TAKEN_OVER
  {
    moves := [UploadFile(1, 0), PreviewFile(1, true, 0), Start(1, 1, [DOC_A], 0), Start(2, 1, [DOC_B], 30)];
    var s0 := Machine(Db(map[], map[], [], 1), map[]);
    var s1 := Next(s0, moves[0]);
    var s2 := Next(s1, moves[1]);
    var s3 := Next(s2, moves[2]);
    var s4 := Next(s3, moves[3]);
    states := [s0, s1, s2, s3, s4];
    assert s2.db.records == map[] && s2.db.batches == map[1 := Batch(Previewed, 0, 0, 0)];
    assert s3.db.batches == map[1 := Batch(Committing, 0, 0, 0)];
    assert s4.db.batches == map[1 := Batch(Committing, 30, 0, 0)];
    assert s4.workers == TAKEN_OVER.workers;
  }

  lemma SecondCreates() returns (middle: Machine)
    ensures middle == Next(TAKEN_OVER, Advance(2, false, 30)) && Next(middle, Advance(2, false, 30)) == B_CREATED
  {
    middle := Next(TAKEN_OVER, Advance(2, false, 30));
    assert Found([], Slot(1, "B")).None?;
    assert middle.workers[2] == Worker(1, [DOC_B], [], Inserting);
    var end := Next(middle, Advance(2, false, 30));
    assert end.db.batches == B_CREATED.db.batches && end.db.records == B_CREATED.db.records;
    assert end.workers[2] == B_CREATED.workers[2] && end.workers[1] == B_CREATED.workers[1];
    assert end.workers == B_CREATED.workers;
  }

  const BOTH_CREATED := Going(30, map[Slot(1, "B") := RECORD_B, Slot(1, "A") := ENTRY_A.record],
                              [RECEIPT_B, Receipt(2, Slot(1, "A"), 1)])

  lemma FirstCreates() returns (looked: Machine, inserted: Machine)
    ensures looked == Next(B_CREATED, Advance(1, false, 30)) && inserted == Next(looked, Advance(1, false, 30))
    ensures inserted.db == BOTH_CREATED && 1 in inserted.workers
    ensures inserted.workers[1] == Worker(1, [DOC_A], [ENTRY_A], Looking)
  {
    looked := Next(B_CREATED, Advance(1, false, 30));
    assert Found([RECEIPT_B][..0], Slot(1, "A")).None?;
    assert Found([RECEIPT_B], Slot(1, "A")).None?;
    assert looked.workers[1] == Worker(1, [DOC_A], [], Inserting);
    inserted := Next(looked, Advance(1, false, 30));
    assert inserted.db.receipts == BOTH_CREATED.receipts && inserted.db.batches == BOTH_CREATED.batches;
    assert inserted.db.records == BOTH_CREATED.records;
  }

  lemma ClosingDropsB(m: Machine) returns (closed: Machine)
    requires m.db == BOTH_CREATED && 1 in m.workers && m.workers[1] == Worker(1, [DOC_A], [ENTRY_A], Looking)
    ensures closed == Next(m, Advance(1, false, 30))
    ensures IsClosed(closed.db, 1) && RECEIPT_B in closed.db.receipts && Slot(1, "B") !in closed.db.records
  {
    assert Successes([ENTRY_A][..0]) == 0 && Successes([ENTRY_A]) == 1;
    closed := Next(m, Advance(1, false, 30));
    assert RECEIPT_B == BOTH_CREATED.receipts[0];
    FiledSlots(1, [ENTRY_A], Slot(1, "B"));
    assert [ENTRY_A][0].key != "B";
    assert Slot(1, "B") in RecordsOf(BOTH_CREATED.records, 1);
  }

  lemma PlayGoesOn(states: seq<Machine>, moves: seq<Move>, move: Move, next: Machine)
    requires IsPlay(states, moves) && next == Next(states[|moves|], move)
    ensures IsPlay(states + [next], moves + [move])
  {
  }

  /**
    A batch taken over with other documents can be completed without a record of a receipt that
    the second worker created: the final records are those of the worker that closes the batch.
   */
  lemma TakeoverHidesReceipt() returns (states: seq<Machine>, moves: seq<Move>)
    ensures IsPlay(states, moves) && states[0] == Machine(Db(map[], map[], [], 1), map[])
    ensures var end := states[|moves|].db;
            IsClosed(end, 1) && RECEIPT_B in end.receipts && RECEIPT_B.slot !in end.records
  {
    states, moves := Overtaking();
    var middle := SecondCreates();
    var looked, inserted := FirstCreates();
    var closed := ClosingDropsB(inserted);
    var second, first := Advance(2, false, 30), Advance(1, false, 30);
    PlayGoesOn(states, moves, second, middle);
    states, moves := states + [middle], moves + [second];
    PlayGoesOn(states, moves, second, B_CREATED);
    states, moves := states + [B_CREATED], moves + [second];
    PlayGoesOn(states, moves, first, looked);
    states, moves := states + [looked], moves + [first];
    PlayGoesOn(states, moves, first, inserted);
    states, moves := states + [inserted], moves + [first];
    PlayGoesOn(states, moves, first, closed);
    states, moves := states + [closed], moves + [first];
  }
}
