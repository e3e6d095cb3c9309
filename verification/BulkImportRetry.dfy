/**
  A commit that was interrupted after any number of documents and is run again from the start
  gives the same results, the same receipts and the same records as one that was not.
 */
module BulkImportRetry {
  import opened Wrappers
  import opened BulkImport
  import opened BulkImportRuns

  ghost predicate Within(small: map<Slot, Record>, large: map<Slot, Record>) {
    forall s :: s in small ==> s in large && large[s] == small[s]
  }

  /** While a batch is being committed, each of its records is of a receipt. */
  ghost predicate Backed(db: Db, batch: int) {
    forall s :: s in db.records && s.batch == batch ==> Found(db.receipts, s).Some?
  }

  ghost predicate Committable(db: Db, batch: int) {
    InStatus(db, batch, Committing) && Backed(db, batch)
  }

  ghost predicate HasKeys(docs: seq<Doc>) {
    forall i :: 0 <= i < |docs| ==> docs[i].key != ""
  }

  /** A result that another attempt will find again. */
  ghost predicate Settled(db: Db, batch: int, doc: Doc, entry: Entry) {
    var slot := Slot(batch, doc.key);
    var existing := Found(db.receipts, slot);
    if doc.valid && existing.Some? && existing.value.payload == doc.payload
    then entry == Told(doc, existing.value) && slot in db.records && db.records[slot] == entry.record
    else entry == Refused(doc) && (!doc.valid || existing.Some?)
  }

  /** Receipts stay, and so do records. */
  ghost predicate Keeps(db: Db, after: Db) {
    Within(db.records, after.records)
    && forall s :: Found(db.receipts, s).Some? ==> Found(after.receipts, s) == Found(db.receipts, s)
  }

  lemma SettledStays(db: Db, after: Db, batch: int, doc: Doc, entry: Entry)
    requires Settled(db, batch, doc, entry) && Keeps(db, after)
    ensures Settled(after, batch, doc, entry)
  {
  }

  /** The records after a document: its own, if it was imported, and those from before. */
  function RecordsWith(records: map<Slot, Record>, batch: int, entry: Entry): map<Slot, Record> {
    if entry.record.success then records[Slot(batch, entry.key) := entry.record] else records
  }

  lemma CreatedIsSettled(db: Db, batch: int, doc: Doc, now: int)
    requires Committable(db, batch) && doc.key != "" && doc.valid && Found(db.receipts, Slot(batch, doc.key)).None?
    ensures var outcome := Import(db, batch, doc, now);
            && outcome.Ok?
            && var (after, entry) := outcome.value;
               && Committable(after, batch) && Keeps(db, after) && Settled(after, batch, doc, entry)
               && after.records == RecordsWith(db.records, batch, entry)
  {
    var slot := Slot(batch, doc.key);
    var r := Receipt(db.nextId, slot, doc.payload);
    assert slot !in db.records;
    forall s {
      FoundAfter(db.receipts, r, s);
    }
  }

  /** What one document leaves behind. */
  lemma ImportSettles(db: Db, batch: int, doc: Doc, now: int)
    requires Committable(db, batch) && doc.key != "" && Import(db, batch, doc, now).Ok?
    ensures var (after, entry) := Import(db, batch, doc, now).value;
            && Committable(after, batch) && Keeps(db, after) && Settled(after, batch, doc, entry)
            && after.records == RecordsWith(db.records, batch, entry)
  {
    if doc.valid && Found(db.receipts, Slot(batch, doc.key)).None? {
      CreatedIsSettled(db, batch, doc, now);
    }
  }

  lemma ErrorFree(db: Db, batch: int, docs: seq<Doc>, i: nat, n: nat, now: int)
    requires i <= n <= |docs| && Imports(db, batch, docs, n, now).error.None?
    ensures Imports(db, batch, docs, i, now).error.None?
    decreases n
  {
    if i < n {
      ErrorFree(db, batch, docs, i, n - 1, now);
    }
  }

  /** After n documents all n results are settled. */
  ghost predicate AllSettled(p: Progress, batch: int, docs: seq<Doc>, n: nat)
    requires n <= |docs|
  {
    && p.error.None? && |p.entries| == n && Committable(p.db, batch)
    && forall i :: 0 <= i < n ==> Settled(p.db, batch, docs[i], p.entries[i])
  }

  lemma SettleOneMore(p: Progress, batch: int, docs: seq<Doc>, n: nat, now: int)
    requires n < |docs| && HasKeys(docs) && AllSettled(p, batch, docs, n) && ImportNext(p, batch, docs[n], now).error.None?
    ensures AllSettled(ImportNext(p, batch, docs[n], now), batch, docs, n + 1)
    ensures Keeps(p.db, ImportNext(p, batch, docs[n], now).db)
  {
    var after := ImportNext(p, batch, docs[n], now);
    ImportSettles(p.db, batch, docs[n], now);
    forall i | 0 <= i < n
      ensures Settled(after.db, batch, docs[i], after.entries[i])
    {
      SettledStays(p.db, after.db, batch, docs[i], p.entries[i]);
    }
  }

  lemma {:induction false} AttemptSettles(db: Db, batch: int, docs: seq<Doc>, n: nat, now: int)
    requires n <= |docs| && HasKeys(docs) && Committable(db, batch) && Imports(db, batch, docs, n, now).error.None?
    ensures AllSettled(Imports(db, batch, docs, n, now), batch, docs, n)
  {
    if n > 0 {
      AttemptSettles(db, batch, docs, n - 1, now);
      SettleOneMore(Imports(db, batch, docs, n - 1, now), batch, docs, n - 1, now);
    }
  }

  // ----- running it again

  /**
    Where another attempt may start: the receipts of the interrupted one are there, its records
    all or in part, and the batch is being committed.
   */
  ghost predicate Resumes(again: Db, start: Db, stopped: Db, batch: int) {
    && InStatus(again, batch, Committing)
    && again.receipts == stopped.receipts && again.nextId == stopped.nextId
    && Within(start.records, again.records) && Within(again.records, stopped.records)
  }

  /** A settled document is found again. */
  lemma FoundAgain(again: Db, stopped: Db, batch: int, doc: Doc, entry: Entry, now: int)
    requires doc.key != "" && Settled(stopped, batch, doc, entry)
    requires InStatus(again, batch, Committing) && again.receipts == stopped.receipts && Within(again.records, stopped.records)
    ensures var outcome := Import(again, batch, doc, now);
            && outcome.Ok? && outcome.value.1 == entry
            && var after := outcome.value.0;
               && InStatus(after, batch, Committing) && after.receipts == again.receipts && after.nextId == again.nextId
               && after.records == RecordsWith(again.records, batch, entry)
               && Within(after.records, stopped.records)
  {
  }

  /** The second attempt at its i-th document, which the first one had passed. */
  ghost predicate Catching(first: Progress, second: Progress, stopped: Db, batch: int) {
    && first.error.None? && second.error.None? && second.entries == first.entries
    && Resumes(second.db, first.db, stopped, batch)
  }

  lemma CatchUp(first: Progress, second: Progress, stopped: Db, batch: int, doc: Doc, now: int, later: int)
    requires Catching(first, second, stopped, batch) && doc.key != "" && Committable(first.db, batch)
    requires var next := ImportNext(first, batch, doc, now);
             next.error.None? && Settled(stopped, batch, doc, next.entries[|first.entries|])
    ensures Catching(ImportNext(first, batch, doc, now), ImportNext(second, batch, doc, later), stopped, batch)
  {
    var entry := ImportNext(first, batch, doc, now).entries[|first.entries|];
    ImportSettles(first.db, batch, doc, now);
    FoundAgain(second.db, stopped, batch, doc, entry, later);
  }

  lemma {:induction false} EntriesStay(db: Db, batch: int, docs: seq<Doc>, i: nat, n: nat, now: int)
    requires i <= n <= |docs|
    ensures Imports(db, batch, docs, i, now).entries <= Imports(db, batch, docs, n, now).entries
    decreases n
  {
    if i < n {
      EntriesStay(db, batch, docs, i, n - 1, now);
    }
  }

  /** The first attempt at its i-th document, which it passed. */
  lemma WasPassed(start: Db, batch: int, docs: seq<Doc>, i: nat, n: nat, now: int)
    requires i < n <= |docs| && HasKeys(docs) && Committable(start, batch)
    requires Imports(start, batch, docs, n, now).error.None?
    ensures var before, next := Imports(start, batch, docs, i, now), Imports(start, batch, docs, i + 1, now);
            && next == ImportNext(before, batch, docs[i], now) && next.error.None?
            && |before.entries| == i && |next.entries| == i + 1 && Committable(before.db, batch)
  {
    ErrorFree(start, batch, docs, i, n, now);
    ErrorFree(start, batch, docs, i + 1, n, now);
    AttemptSettles(start, batch, docs, i, now);
  }

  /** What it made of that document still stands when it stops. */
  lemma StandsAtStop(start: Db, batch: int, docs: seq<Doc>, i: nat, n: nat, now: int)
    requires i < n <= |docs| && HasKeys(docs) && Committable(start, batch)
    requires Imports(start, batch, docs, n, now).error.None?
    requires i < |Imports(start, batch, docs, i + 1, now).entries|
    ensures Settled(Imports(start, batch, docs, n, now).db, batch, docs[i], Imports(start, batch, docs, i + 1, now).entries[i])
  {
    AttemptSettles(start, batch, docs, n, now);
    EntriesStay(start, batch, docs, i + 1, n, now);
  }

  lemma CatchUpAt(start: Db, again: Db, batch: int, docs: seq<Doc>, i: nat, n: nat, now: int, later: int)
    requires i < n <= |docs| && HasKeys(docs) && Committable(start, batch)
    requires Imports(start, batch, docs, n, now).error.None?
    requires Catching(Imports(start, batch, docs, i, now), Imports(again, batch, docs, i, later),
                      Imports(start, batch, docs, n, now).db, batch)
    ensures Catching(Imports(start, batch, docs, i + 1, now), ImportNext(Imports(again, batch, docs, i, later), batch, docs[i], later),
                     Imports(start, batch, docs, n, now).db, batch)
  {
    WasPassed(start, batch, docs, i, n, now);
    StandsAtStop(start, batch, docs, i, n, now);
    CatchUp(Imports(start, batch, docs, i, now), Imports(again, batch, docs, i, later),
            Imports(start, batch, docs, n, now).db, batch, docs[i], now, later);
  }

  lemma {:induction false} CaughtUp(start: Db, again: Db, batch: int, docs: seq<Doc>, i: nat, n: nat, now: int, later: int)
    requires i <= n <= |docs| && HasKeys(docs) && Committable(start, batch)
    requires Imports(start, batch, docs, n, now).error.None?
    requires Resumes(again, start, Imports(start, batch, docs, n, now).db, batch)
    ensures Catching(Imports(start, batch, docs, i, now), Imports(again, batch, docs, i, later),
                     Imports(start, batch, docs, n, now).db, batch)
  {
    if i > 0 {
      CaughtUp(start, again, batch, docs, i - 1, n, now, later);
      CatchUpAt(start, again, batch, docs, i - 1, n, now, later);
    }
  }

  // ----- and beyond

  /** The same but for the time of the last change. */
  ghost predicate Alike(a: Db, b: Db, batch: int) {
    && InStatus(a, batch, Committing) && InStatus(b, batch, Committing)
    && a.receipts == b.receipts && a.nextId == b.nextId && a.records == b.records
  }

  ghost predicate AlikeProgress(a: Progress, b: Progress, batch: int) {
    Alike(a.db, b.db, batch) && a.entries == b.entries && a.error == b.error
  }

  lemma AlikeStep(a: Progress, b: Progress, batch: int, doc: Doc, now: int, later: int)
    requires AlikeProgress(a, b, batch)
    ensures AlikeProgress(ImportNext(a, batch, doc, now), ImportNext(b, batch, doc, later), batch)
  {
  }

  lemma {:induction false} AlikeToTheEnd(start: Db, again: Db, batch: int, docs: seq<Doc>, n: nat, k: nat, now: int, later: int)
    requires n <= k <= |docs|
    requires AlikeProgress(Imports(start, batch, docs, n, now), Imports(again, batch, docs, n, later), batch)
    ensures AlikeProgress(Imports(start, batch, docs, k, now), Imports(again, batch, docs, k, later), batch)
    decreases k
  {
    if n < k {
      AlikeToTheEnd(start, again, batch, docs, n, k - 1, now, later);
      AlikeStep(Imports(start, batch, docs, k - 1, now), Imports(again, batch, docs, k - 1, later), batch, docs[k - 1], now, later);
    }
  }

  /**
    A commit interrupted after n documents and run again ends exactly as the uninterrupted one
    would have ended: the same results in the same order, the same receipts and the same records.
   */
  lemma RetryIsInvisible(start: Db, again: Db, batch: int, docs: seq<Doc>, n: nat, now: int, later: int)
    requires n <= |docs| && HasKeys(docs) && Committable(start, batch)
    requires Imports(start, batch, docs, n, now).error.None?
    requires Resumes(again, start, Imports(start, batch, docs, n, now).db, batch)
    ensures AlikeProgress(Imports(start, batch, docs, |docs|, now), Imports(again, batch, docs, |docs|, later), batch)
  {
    CaughtUp(start, again, batch, docs, n, n, now, later);
    var stopped, resumed := Imports(start, batch, docs, n, now), Imports(again, batch, docs, n, later);
    assert stopped.db.records == resumed.db.records;
    AttemptSettles(start, batch, docs, n, now);
    AlikeToTheEnd(start, again, batch, docs, n, |docs|, now, later);
  }

  // ----- how a commit gets to run again

  /** In every reachable state a batch that is being committed can be resumed. */
  lemma CommittingIsCommittable(m: Machine, batch: int)
    requires Inv(m) && InStatus(m.db, batch, Committing)
    ensures Committable(m.db, batch)
  {
    forall s | s in m.db.records && s.batch == batch
      ensures Found(m.db.receipts, s).Some?
    {
      assert IsOpen(m.db, s.batch);
    }
  }

  lemma {:induction false} RecordsStay(start: Db, batch: int, docs: seq<Doc>, n: nat, now: int)
    requires n <= |docs| && HasKeys(docs) && Committable(start, batch) && Imports(start, batch, docs, n, now).error.None?
    ensures Within(start.records, Imports(start, batch, docs, n, now).db.records)
  {
    if n > 0 {
      RecordsStay(start, batch, docs, n - 1, now);
      AttemptSettles(start, batch, docs, n - 1, now);
      SettleOneMore(Imports(start, batch, docs, n - 1, now), batch, docs, n - 1, now);
    }
  }

  /** The worker is lost after n documents, and another takes the batch over when the lease has run out. */
  lemma TakeoverIsInvisible(start: Db, batch: int, docs: seq<Doc>, n: nat, now: int, later: int)
    requires n <= |docs| && HasKeys(docs) && Committable(start, batch)
    requires Imports(start, batch, docs, n, now).error.None?
    requires Commit(Imports(start, batch, docs, n, now).db, batch, later).Ok?
    ensures var again := Commit(Imports(start, batch, docs, n, now).db, batch, later).value;
            AlikeProgress(Imports(start, batch, docs, |docs|, now), Imports(again, batch, docs, |docs|, later), batch)
  {
    var stopped := Imports(start, batch, docs, n, now).db;
    RecordsStay(start, batch, docs, n, now);
    RetryIsInvisible(start, Commit(stopped, batch, later).value, batch, docs, n, now, later);
  }

  /** The batch is marked failed, previewed again, which forgets its records, and committed again. */
  function Restarted(stopped: Db, batch: int, failed: int, previewed: int, taken: int): Result<Db> {
    var one := MarkFailed(stopped, batch, failed);
    if one.Err? then one
    else
      var two := Preview(one.value, batch, true, previewed);
      if two.Err? then two else Commit(two.value, batch, taken)
  }

  /** After a failure the batch can always be started over, and a first commit then ends as if nothing had happened. */
  lemma RestartIsInvisible(start: Db, batch: int, docs: seq<Doc>, n: nat, now: int, failed: int, previewed: int, taken: int)
    requires n <= |docs| && HasKeys(docs) && Committable(start, batch) && RecordsOf(start.records, batch) == {}
    requires Imports(start, batch, docs, n, now).error.None?
    ensures var again := Restarted(Imports(start, batch, docs, n, now).db, batch, failed, previewed, taken);
            && again.Ok?
            && AlikeProgress(Imports(start, batch, docs, |docs|, now), Imports(again.value, batch, docs, |docs|, taken), batch)
  {
    var stopped := Imports(start, batch, docs, n, now).db;
    AttemptSettles(start, batch, docs, n, now);
    RecordsStay(start, batch, docs, n, now);
    var again := Restarted(stopped, batch, failed, previewed, taken).value;
    forall s | s in start.records
      ensures s in again.records && again.records[s] == start.records[s]
    {
      assert s !in RecordsOf(start.records, batch);
    }
    RetryIsInvisible(start, again, batch, docs, n, now, taken);
  }
}
