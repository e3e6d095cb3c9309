/**
  The stored side of a bulk import: a batch with a status and a lease, one record a document, and
  the receipts that the import created. Every function is one transaction.

  Document keys are normalized texts; a payload stands for the hash of a receipt's data, and the
  import key of a receipt is its slot (both are injective).
 */
module BulkImport {
  import opened Wrappers
  import opened Folds

  const LEASE_MINUTES := 30

  datatype BatchStatus = Uploaded | Previewed | PreviewFailed | Committing | Completed | Partial | Failed

  /** updated is a minute of the database clock. */
  datatype Batch = Batch(status: BatchStatus, updated: int, created: nat, failed: nat)

  datatype Slot = Slot(batch: int, key: string)

  datatype Receipt = Receipt(id: int, slot: Slot, payload: int)

  /** What a record keeps of a document; note stands for its reference and its error text. */
  datatype Record = Record(document: int, success: bool, note: string)

  datatype Db = Db(batches: map<int, Batch>, records: map<Slot, Record>, receipts: seq<Receipt>, nextId: int)

  datatype Doc = Doc(key: string, payload: int, valid: bool, note: string)

  datatype Entry = Entry(key: string, record: Record)

  predicate InStatus(db: Db, batch: int, status: BatchStatus) {
    batch in db.batches && db.batches[batch].status == status
  }

  predicate CanPreview(status: BatchStatus) {
    status == Uploaded || status == Previewed || status == PreviewFailed || status == Failed
  }

  function RecordsOf(records: map<Slot, Record>, batch: int): set<Slot> {
    set s | s in records && s.batch == batch
  }

  function Found(receipts: seq<Receipt>, slot: Slot): Option<Receipt> {
    if receipts == [] then None
    else if receipts[|receipts| - 1].slot == slot then Some(receipts[|receipts| - 1])
    else Found(receipts[..|receipts| - 1], slot)
  }

  function Upload(db: Db, batch: int, now: int): Result<Db> {
    if batch in db.batches then Err(ConstraintViolation)
    else Ok(db.(batches := db.batches[batch := Batch(Uploaded, now, 0, 0)]))
  }

  /** A new preview forgets the records of an earlier attempt. */
  function Preview(db: Db, batch: int, sound: bool, now: int): Result<Db> {
    if batch !in db.batches || !CanPreview(db.batches[batch].status) then Err(InvalidInput)
    else
      Ok(db.(batches := db.batches[batch := Batch(if sound then Previewed else PreviewFailed, now, 0, 0)],
             records := db.records - RecordsOf(db.records, batch)))
  }

  /** Takes the batch when it is previewed, or when the lease of whoever took it has run out. */
  function Commit(db: Db, batch: int, now: int): Result<Db> {
    if batch in db.batches
       && (db.batches[batch].status == Previewed
           || (db.batches[batch].status == Committing && db.batches[batch].updated <= now - LEASE_MINUTES))
    then Ok(db.(batches := db.batches[batch := db.batches[batch].(status := Committing, updated := now)]))
    else Err(InvalidInput)
  }

  function MarkFailed(db: Db, batch: int, now: int): Result<Db> {
    if !InStatus(db, batch, Committing) then Err(InvalidInput)
    else Ok(db.(batches := db.batches[batch := db.batches[batch].(status := Failed, updated := now)]))
  }

  /** Keeps the first record of a document, refuses a different one, and renews the lease. */
  function RecordDocument(db: Db, slot: Slot, record: Record, now: int): Result<Db> {
    if slot.key == "" || !InStatus(db, slot.batch, Committing) then Err(InvalidInput)
    else if slot in db.records && db.records[slot] != record then Err(InvalidInput)
    else
      Ok(db.(records := db.records[slot := record],
             batches := db.batches[slot.batch := db.batches[slot.batch].(updated := now)]))
  }

  /** The receipt and its record, or neither; the import key is unique. */
  function CreateReceipt(db: Db, slot: Slot, doc: Doc, now: int): Result<Db> {
    if Found(db.receipts, slot).Some? then Err(ConstraintViolation)
    else
      RecordDocument(db.(receipts := db.receipts + [Receipt(db.nextId, slot, doc.payload)], nextId := db.nextId + 1),
                     slot, Record(db.nextId, true, doc.note), now)
  }

  predicate DistinctKeys(entries: seq<Entry>) {
    && (forall i :: 0 <= i < |entries| ==> entries[i].key != "")
    && (forall i, j :: 0 <= i < j < |entries| ==> entries[i].key != entries[j].key)
  }

  function Filed(batch: int, entries: seq<Entry>): map<Slot, Record> {
    if entries == [] then map[]
    else Filed(batch, entries[..|entries| - 1])[Slot(batch, entries[|entries| - 1].key) := entries[|entries| - 1].record]
  }

  function OutcomeStatus(created: nat, failed: nat): BatchStatus {
    if failed > 0 && created > 0 then Partial else if failed > 0 then Failed else Completed
  }

  /** Replaces the records by the final ones and closes the batch. */
  function Complete(db: Db, batch: int, created: nat, failed: nat, entries: seq<Entry>, now: int): Result<Db> {
    if !DistinctKeys(entries) || !InStatus(db, batch, Committing) then Err(InvalidInput)
    else
      Ok(db.(records := (db.records - RecordsOf(db.records, batch)) + Filed(batch, entries),
             batches := db.batches[batch := Batch(OutcomeStatus(created, failed), now, created, failed)]))
  }

  // ----- one worker on its own

  function Refused(doc: Doc): Entry {
    Entry(doc.key, Record(0, false, doc.note))
  }

  function Told(doc: Doc, receipt: Receipt): Entry {
    Entry(doc.key, Record(receipt.id, true, doc.note))
  }

  /** One document: refused, found from an earlier attempt, or created; an error ends the commit. */
  function Import(db: Db, batch: int, doc: Doc, now: int): Result<(Db, Entry)> {
    var slot := Slot(batch, doc.key);
    var existing := Found(db.receipts, slot);
    if !doc.valid || (existing.Some? && existing.value.payload != doc.payload) then Ok((db, Refused(doc)))
    else if existing.Some? then
      var outcome := RecordDocument(db, slot, Told(doc, existing.value).record, now);
      if outcome.Ok? then Ok((outcome.value, Told(doc, existing.value))) else Err(outcome.error)
    else
      var outcome := CreateReceipt(db, slot, doc, now);
      if outcome.Ok? then Ok((outcome.value, Told(doc, Receipt(db.nextId, slot, doc.payload))))
      else Ok((db, Refused(doc)))
  }

  /** How far a commit has come; nothing happens after an error. */
  datatype Progress = Progress(db: Db, entries: seq<Entry>, error: Option<Error>)

  function ImportNext(p: Progress, batch: int, doc: Doc, now: int): Progress {
    if p.error.Some? then p
    else
      var outcome := Import(p.db, batch, doc, now);
      if outcome.Err? then p.(error := Some(outcome.error))
      else Progress(outcome.value.0, p.entries + [outcome.value.1], None)
  }

  /** The first n documents. */
  function Imports(db: Db, batch: int, docs: seq<Doc>, n: nat, now: int): Progress
    requires n <= |docs|
  {
    if n == 0 then Progress(db, [], None) else ImportNext(Imports(db, batch, docs, n - 1, now), batch, docs[n - 1], now)
  }

  lemma {:induction false} ErrorSticks(db: Db, batch: int, docs: seq<Doc>, i: nat, now: int)
    requires i <= |docs| && Imports(db, batch, docs, i, now).error.Some?
    ensures Imports(db, batch, docs, |docs|, now) == Imports(db, batch, docs, i, now)
    decreases |docs| - i
  {
    if i < |docs| {
      ErrorSticks(db, batch, docs, i + 1, now);
    }
  }

  // ----- the store

  class Store {
    var batches: map<int, Batch>
    var records: map<Slot, Record>
    var receipts: seq<Receipt>
    var nextId: int

    constructor ()
      ensures State() == Db(map[], map[], [], 1)
    {
      batches, records, receipts, nextId := map[], map[], [], 1;
    }

    function State(): Db
      reads this
    {
      Db(batches, records, receipts, nextId)
    }

    method Rollback(saved: Db)
      modifies this
      ensures State() == saved
    {
      batches, records, receipts, nextId := saved.batches, saved.records, saved.receipts, saved.nextId;
    }

    method MarkPreview(batch: int, sound: bool, now: int) returns (error: Option<Error>)
      modifies this
      ensures Reports(error, Preview(old(State()), batch, sound, now), State(), old(State()))
    {
      if batch !in batches || !CanPreview(batches[batch].status) {
        return Some(InvalidInput);
      }
      batches := batches[batch := Batch(if sound then Previewed else PreviewFailed, now, 0, 0)];
      records := records - RecordsOf(records, batch);
      error := None;
    }

    method MarkCommitting(batch: int, now: int) returns (error: Option<Error>)
      modifies this
      ensures Reports(error, Commit(old(State()), batch, now), State(), old(State()))
    {
      if batch !in batches || (batches[batch].status != Previewed && batches[batch].status != Committing) {
        return Some(InvalidInput);
      }
      if batches[batch].status == Committing && now - LEASE_MINUTES < batches[batch].updated {
        return Some(InvalidInput);
      }
      batches := batches[batch := batches[batch].(status := Committing, updated := now)];
      error := None;
    }

    method MarkBatchFailed(batch: int, now: int) returns (error: Option<Error>)
      modifies this
      ensures Reports(error, MarkFailed(old(State()), batch, now), State(), old(State()))
    {
      if batch !in batches || batches[batch].status != Committing {
        return Some(InvalidInput);
      }
      batches := batches[batch := batches[batch].(status := Failed, updated := now)];
      error := None;
    }

    /** Inserts unless there is a record, and then compares with the one that is there. */
    method RecordBatchDocument(slot: Slot, record: Record, now: int) returns (error: Option<Error>)
      modifies this
      ensures Reports(error, RecordDocument(old(State()), slot, record, now), State(), old(State()))
    {
      if slot.key == "" || slot.batch !in batches || batches[slot.batch].status != Committing {
        return Some(InvalidInput);
      }
      var retained := if slot in records then records[slot] else record;
      if retained != record {
        return Some(InvalidInput);
      }
      records := records[slot := retained];
      batches := batches[slot.batch := batches[slot.batch].(updated := now)];
      error := None;
    }

    method CreateInboundDocument(slot: Slot, doc: Doc, now: int) returns (error: Option<Error>)
      modifies this
      ensures Reports(error, CreateReceipt(old(State()), slot, doc, now), State(), old(State()))
    {
      var saved := State();
      if Found(receipts, slot).Some? {
        return Some(ConstraintViolation);
      }
      var id := nextId;
      receipts, nextId := receipts + [Receipt(id, slot, doc.payload)], id + 1;
      error := RecordBatchDocument(slot, Record(id, true, doc.note), now);
      if error.Some? {
        Rollback(saved);
      }
    }

    /** The commit loop of one worker on its own; every document before an error ends up as a result, counted once. */
    method CreateDocuments(batch: int, docs: seq<Doc>, now: int)
      returns (error: Option<Error>, entries: seq<Entry>, created: nat, failed: nat)
      modifies this
      ensures Progress(State(), entries, error) == Imports(old(State()), batch, docs, |docs|, now)
      ensures created == Successes(entries) && created + failed == |entries|
    {
      entries, created, failed := [], 0, 0;
      ghost var was := State();
      for i := 0 to |docs|
        invariant Progress(State(), entries, None) == Imports(was, batch, docs, i, now)
        invariant created == Successes(entries) && created + failed == |entries|
      {
        var entry;
        error, entry := CreateDocument(batch, docs[i], now);
        if error.Some? {
          ErrorSticks(was, batch, docs, i + 1, now);
          return;
        }
        SuccessesAppend(entries, entry);
        entries := entries + [entry];
        if entry.record.success {
          created := created + 1;
        } else {
          failed := failed + 1;
        }
      }
      error := None;
    }

    /** One document: refused, found from an earlier attempt, or created. */
    method CreateDocument(batch: int, doc: Doc, now: int) returns (error: Option<Error>, entry: Entry)
      modifies this
      ensures var outcome := Import(old(State()), batch, doc, now);
              if outcome.Ok? then error.None? && (State(), entry) == outcome.value
              else error == Some(outcome.error) && State() == old(State())
    {
      var slot := Slot(batch, doc.key);
      var refused := Entry(doc.key, Record(0, false, doc.note));
      if !doc.valid {
        return None, refused;
      }
      var existing := Found(receipts, slot);
      if existing.Some? {
        if existing.value.payload != doc.payload {
          return None, refused;
        }
        entry := Entry(doc.key, Record(existing.value.id, true, doc.note));
        error := RecordBatchDocument(slot, entry.record, now);
        return;
      }
      var id := nextId;
      error := CreateInboundDocument(slot, doc, now);
      if error.Some? {
        return None, refused;
      }
      entry := Entry(doc.key, Record(id, true, doc.note));
    }

    /** Files one record after another; the caller abandons the transaction after an error. */
    method FileRecords(batch: int, entries: seq<Entry>, now: int) returns (error: Option<Error>)
      modifies this
      ensures ReportsWithin(error, Fold(FileStep(batch, now), old(State()), entries, |entries|), State())
    {
      ghost var step, start := FileStep(batch, now), State();
      for i := 0 to |entries|
        invariant Fold(step, start, entries, i) == Ok(State())
      {
        ghost var before := State();
        error := RecordBatchDocument(Slot(batch, entries[i].key), entries[i].record, now);
        FoldStep(step, start, entries, i, before);
        if error.Some? {
          FoldFails(step, start, entries, i + 1);
          return;
        }
      }
      error := None;
    }

    /** Deletes the old records and files the final ones one by one. */
    method CompleteBatch(batch: int, created: nat, failed: nat, entries: seq<Entry>, now: int) returns (error: Option<Error>)
      modifies this
      ensures Reports(error, Complete(old(State()), batch, created, failed, entries, now), State(), old(State()))
    {
      var distinct := CheckDistinct(entries);
      if !distinct {
        return Some(InvalidInput);
      }
      var saved := State();
      records := records - RecordsOf(records, batch);
      FilingAddsUp(State(), batch, entries, |entries|, now);
      assert entries[..|entries|] == entries;
      error := FileRecords(batch, entries, now);
      if error.None? && (batch !in batches || batches[batch].status != Committing) {
        error := Some(InvalidInput);
      }
      if error.Some? {
        Rollback(saved);
        return;
      }
      batches := batches[batch := Batch(OutcomeStatus(created, failed), now, created, failed)];
    }
  }

  function Successes(entries: seq<Entry>): (n: nat)
    ensures n <= |entries|
  {
    if entries == [] then 0
    else Successes(entries[..|entries| - 1]) + if entries[|entries| - 1].record.success then 1 else 0
  }

  /** The entry is about the document, and a success names the receipt of exactly this data. */
  predicate Answers(entry: Entry, doc: Doc, batch: int, receipts: seq<Receipt>) {
    && entry.key == doc.key
    && (entry.record.success ==>
          && doc.valid
          && Found(receipts, Slot(batch, doc.key)) == Some(Receipt(entry.record.document, Slot(batch, doc.key), doc.payload)))
  }

  lemma SuccessesAppend(entries: seq<Entry>, entry: Entry)
    ensures Successes(entries + [entry]) == Successes(entries) + if entry.record.success then 1 else 0
  {
    assert (entries + [entry])[..|entries|] == entries;
  }

  /** Receipts are only added, for this batch, and only while it is being committed. */
  ghost predicate Extends(db: Db, after: Db, batch: int) {
    && db.receipts <= after.receipts
    && (forall j :: |db.receipts| <= j < |after.receipts| ==> after.receipts[j].slot.batch == batch)
    && (forall s :: Found(db.receipts, s).Some? ==> Found(after.receipts, s) == Found(db.receipts, s))
    && (InStatus(after, batch, Committing) <==> InStatus(db, batch, Committing))
    && (|db.receipts| < |after.receipts| ==> InStatus(db, batch, Committing))
  }

  lemma FoundAfter(receipts: seq<Receipt>, r: Receipt, slot: Slot)
    ensures Found(receipts + [r], slot) == if slot == r.slot then Some(r) else Found(receipts, slot)
  {
    assert (receipts + [r])[..|receipts|] == receipts;
  }

  lemma ImportAnswers(db: Db, batch: int, doc: Doc, now: int)
    requires Import(db, batch, doc, now).Ok?
    ensures var (after, entry) := Import(db, batch, doc, now).value;
            Extends(db, after, batch) && Answers(entry, doc, batch, after.receipts)
  {
    var slot := Slot(batch, doc.key);
    FoundIsThere(db.receipts, slot);
    forall s {
      FoundAfter(db.receipts, Receipt(db.nextId, slot, doc.payload), s);
    }
  }

  /**
    Every document that was passed has its result, and a success names a receipt with the very data
    of its document, found or newly created.
   */
  lemma {:induction false} ImportsAnswer(db: Db, batch: int, docs: seq<Doc>, n: nat, now: int)
    requires n <= |docs|
    ensures var p := Imports(db, batch, docs, n, now);
            && Extends(db, p.db, batch)
            && |p.entries| <= n && (p.error.None? ==> |p.entries| == n)
            && forall i :: 0 <= i < |p.entries| ==> Answers(p.entries[i], docs[i], batch, p.db.receipts)
  {
    if n > 0 {
      ImportsAnswer(db, batch, docs, n - 1, now);
      var before, after := Imports(db, batch, docs, n - 1, now), Imports(db, batch, docs, n, now);
      if after.error.None? {
        ImportAnswers(before.db, batch, docs[n - 1], now);
        AnswersStay(before, after, batch, docs);
      }
    }
  }

  lemma AnswersStay(before: Progress, after: Progress, batch: int, docs: seq<Doc>)
    requires |before.entries| <= |docs| && Extends(before.db, after.db, batch)
    requires forall i :: 0 <= i < |before.entries| ==> Answers(before.entries[i], docs[i], batch, before.db.receipts)
    ensures forall i :: 0 <= i < |before.entries| ==> Answers(before.entries[i], docs[i], batch, after.db.receipts)
  {
    forall i | 0 <= i < |before.entries|
      ensures Answers(before.entries[i], docs[i], batch, after.db.receipts)
    {
      assert Answers(before.entries[i], docs[i], batch, before.db.receipts);
    }
  }

  function FileStep(batch: int, now: int): (Db, Entry) -> Result<Db> {
    (db: Db, entry: Entry) => RecordDocument(db, Slot(batch, entry.key), entry.record, now)
  }

  /** The first n records are filed, and the lease has been renewed if there were any. */
  ghost predicate FiledSoFar(db: Db, after: Db, batch: int, entries: seq<Entry>, n: nat, now: int)
    requires n <= |entries|
  {
    && after == db.(records := db.records + Filed(batch, entries[..n]), batches := after.batches)
    && (n > 0 ==> InStatus(db, batch, Committing))
    && after.batches == if n > 0 then db.batches[batch := db.batches[batch].(updated := now)] else db.batches
  }

  lemma FileOne(db: Db, after: Db, batch: int, entries: seq<Entry>, n: nat, now: int)
    requires n < |entries| && DistinctKeys(entries) && RecordsOf(db.records, batch) == {}
    requires FiledSoFar(db, after, batch, entries, n, now)
    ensures var outcome := RecordDocument(after, Slot(batch, entries[n].key), entries[n].record, now);
            && (outcome.Err? ==> outcome == Err(InvalidInput) && !InStatus(db, batch, Committing))
            && (outcome.Ok? ==> FiledSoFar(db, outcome.value, batch, entries, n + 1, now))
  {
    assert entries[..n + 1][..n] == entries[..n];
    var slot, filed, record := Slot(batch, entries[n].key), Filed(batch, entries[..n]), entries[n].record;
    NotYetFiled(batch, entries, n);
    assert slot in db.records ==> slot in RecordsOf(db.records, batch);
    assert (db.records + filed)[slot := record] == db.records + filed[slot := record];
  }

  /** Filing distinct records one by one files all of them, as long as the batch is being committed. */
  lemma {:induction false} FilingAddsUp(db: Db, batch: int, entries: seq<Entry>, n: nat, now: int)
    requires n <= |entries| && DistinctKeys(entries) && RecordsOf(db.records, batch) == {}
    ensures var outcome := Fold(FileStep(batch, now), db, entries, n);
            && (outcome.Err? ==> outcome == Err(InvalidInput) && !InStatus(db, batch, Committing))
            && (outcome.Ok? ==> FiledSoFar(db, outcome.value, batch, entries, n, now))
  {
    if n == 0 {
      assert db.records + Filed(batch, entries[..0]) == db.records;
    } else {
      FilingAddsUp(db, batch, entries, n - 1, now);
      var before := Fold(FileStep(batch, now), db, entries, n - 1);
      if before.Ok? {
        FileOne(db, before.value, batch, entries, n - 1, now);
      }
    }
  }

  method CheckDistinct(entries: seq<Entry>) returns (distinct: bool)
    ensures distinct <==> DistinctKeys(entries)
  {
    var seen: set<string> := {};
    for i := 0 to |entries|
      invariant DistinctKeys(entries[..i]) && seen == set j | 0 <= j < i :: entries[j].key
    {
      if entries[i].key == "" || entries[i].key in seen {
        return false;
      }
      seen := seen + {entries[i].key};
    }
    assert entries[..|entries|] == entries;
    distinct := true;
  }

  lemma {:induction false} FiledSlots(batch: int, entries: seq<Entry>, slot: Slot)
    ensures slot in Filed(batch, entries) <==> slot.batch == batch && exists i :: 0 <= i < |entries| && entries[i].key == slot.key
    ensures slot in Filed(batch, entries) ==>
              exists i :: 0 <= i < |entries| && entries[i].key == slot.key && entries[i].record == Filed(batch, entries)[slot]
  {
    if entries != [] {
      var n := |entries| - 1;
      FiledSlots(batch, entries[..n], slot);
      if i :| 0 <= i < n && entries[..n][i].key == slot.key {
        assert entries[i].key == slot.key;
      }
      if slot in Filed(batch, entries[..n]) && entries[n].key != slot.key {
        var i :| 0 <= i < n && entries[..n][i].key == slot.key && entries[..n][i].record == Filed(batch, entries[..n])[slot];
        assert entries[i] == entries[..n][i];
      }
    }
  }

  lemma NotYetFiled(batch: int, entries: seq<Entry>, i: nat)
    requires DistinctKeys(entries) && i < |entries|
    ensures Slot(batch, entries[i].key) !in Filed(batch, entries[..i])
  {
    FiledSlots(batch, entries[..i], Slot(batch, entries[i].key));
    forall j | 0 <= j < i
      ensures entries[..i][j].key != entries[i].key
    {
      assert entries[..i][j] == entries[j];
    }
  }

  // ----- receipts and their slots

  lemma {:induction false} FoundIsThere(receipts: seq<Receipt>, slot: Slot)
    ensures Found(receipts, slot).Some? ==> Found(receipts, slot).value in receipts && Found(receipts, slot).value.slot == slot
    ensures Found(receipts, slot).None? ==> forall r :: r in receipts ==> r.slot != slot
  {
    if receipts != [] {
      var n := |receipts| - 1;
      FoundIsThere(receipts[..n], slot);
      assert receipts == receipts[..n] + [receipts[n]];
    }
  }

  // ----- how the states of a batch follow each other

  /** Who takes a batch, or records a document of it, holds it for a lease: the next can take it only after that. */
  lemma LeaseIsExclusive(db: Db, batch: int, slot: Slot, record: Record, now: int, later: int)
    ensures Commit(db, batch, now).Ok? ==>
              (Commit(Commit(db, batch, now).value, batch, later).Ok? <==> now + LEASE_MINUTES <= later)
    ensures RecordDocument(db, slot, record, now).Ok? ==>
              (Commit(RecordDocument(db, slot, record, now).value, slot.batch, later).Ok? <==> now + LEASE_MINUTES <= later)
  {
  }

  /** A batch that is being committed or closed is not previewed; a sound preview, without records, is what can be committed next. */
  lemma PreviewOpensBatch(db: Db, batch: int, sound: bool, now: int, later: int)
    ensures Preview(db, batch, sound, now).Err? <==>
              batch !in db.batches || InStatus(db, batch, Committing) || InStatus(db, batch, Completed) || InStatus(db, batch, Partial)
    ensures Preview(db, batch, sound, now).Ok? ==>
              var after := Preview(db, batch, sound, now).value;
              && (Commit(after, batch, later).Ok? <==> sound)
              && RecordsOf(after.records, batch) == {} && after.receipts == db.receipts
              && (forall s :: s in db.records && s.batch != batch ==> s in after.records && after.records[s] == db.records[s])
              && (forall b :: b in db.batches && b != batch ==> b in after.batches && after.batches[b] == db.batches[b])
  {
  }

  /** A failed batch stops everybody who works on it, until it is previewed again. */
  lemma FailingStopsWork(db: Db, batch: int, now: int, later: int)
    requires MarkFailed(db, batch, now).Ok?
    ensures var after := MarkFailed(db, batch, now).value;
            && (forall slot: Slot, record :: slot.batch == batch ==> RecordDocument(after, slot, record, later).Err?)
            && (forall slot: Slot, doc :: slot.batch == batch ==> CreateReceipt(after, slot, doc, later).Err?)
            && (forall created, failed, entries :: Complete(after, batch, created, failed, entries, later).Err?)
            && Commit(after, batch, later).Err? && Preview(after, batch, true, later).Ok?
            && after.records == db.records && after.receipts == db.receipts
  {
  }
}
