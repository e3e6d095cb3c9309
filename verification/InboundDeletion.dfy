/**
  Deleting a receipt together with everything that happened later in its container: the plan,
  the caller's confirmation of it, and the deletion itself.

  links gives, for a shipment, the transfers that its pick allocations were taken from.
 */
module InboundDeletion {
  import opened Wrappers
  import opened SortedSets
  import opened SourceFreeze
  import opened StockLedger
  import opened StockOperations
  import opened DeletionRollback
  import opened DeletionErase

  // ----- the plan

  datatype Dependency = Dependency(source: Source, lastId: int, reversible: bool)

  datatype Selection = Selection(source: Source, lastId: int)

  function Largest(x: nat, y: int): nat {
    if x < y then y else x
  }

  /** The receipt's newest RECEIVE row, or 0. */
  function Boundary(ledger: seq<Row>, own: Source): nat {
    if ledger == [] then 0
    else
      var r := ledger[|ledger| - 1];
      Largest(Boundary(ledger[..|ledger| - 1], own), if r.source == own && r.event == Receive then r.id else 0)
  }

  /** The version of a document: its newest ledger row, or 0. */
  function LastId(ledger: seq<Row>, s: Source): nat {
    if ledger == [] then 0
    else
      var r := ledger[|ledger| - 1];
      Largest(LastId(ledger[..|ledger| - 1], s), if r.source == s then r.id else 0)
  }

  predicate IsLater(r: Row, own: Source, key: ContainerKey, boundary: int) {
    boundary < r.id && InContainer(r.bucket, key) && r.source.kind != CascadeDelete && r.source != own
  }

  function LaterSources(ledger: seq<Row>, own: Source, key: ContainerKey, boundary: int): set<Source> {
    set i | 0 <= i < |ledger| && IsLater(ledger[i], own, key, boundary) :: ledger[i].source
  }

  function TransfersOf(s: Source, links: map<int, set<int>>): set<Source> {
    if s.kind == Outbound && 0 < s.id && s.id in links then set t | t in links[s.id] && 0 < t :: Source(Transfer, t) else {}
  }

  function Transfers(sources: set<Source>, links: map<int, set<int>>): set<Source> {
    set s, t | s in sources && t in TransfersOf(s, links) :: t
  }

  /** Transfers reached through a later shipment are deleted with it and not listed. */
  function Dependencies(later: set<Source>, links: map<int, set<int>>): set<Source> {
    later - Transfers(later, links)
  }

  function CoveredSources(own: Source, dependencies: set<Source>, links: map<int, set<int>>): set<Source> {
    {own} + dependencies + Transfers(dependencies, links)
  }

  /** Nothing to look for when the receipt is not confirmed, has no container or received nothing. */
  function Later(db: Db, own: Source): set<Source>
    requires own in db.documents
  {
    var document, boundary := db.documents[own], Boundary(db.ledger, own);
    if document.standing != Posted || document.key.container == "" || boundary <= 0 then {}
    else LaterSources(db.ledger, own, document.key, boundary)
  }

  function Planned(db: Db, own: Source, links: map<int, set<int>>): set<Source>
    requires own in db.documents
  {
    Dependencies(Later(db, own), links)
  }

  function Coverage(db: Db, own: Source, links: map<int, set<int>>): set<Source>
    requires own in db.documents
  {
    CoveredSources(own, Planned(db, own, links), links)
  }

  predicate Reversible(db: Db, s: Source) {
    && 0 < s.id
    && (s.kind == Outbound || s.kind == Transfer || s.kind == Adjustment || s.kind == CycleCount || s.kind == Inbound)
    && s in db.documents && db.documents[s].standing != Withdrawn
  }

  /** Leaving covered transfers out of the list loses none of the later activity. */
  lemma LaterIsCovered(own: Source, later: set<Source>, links: map<int, set<int>>)
    ensures later <= CoveredSources(own, Dependencies(later, links), links)
  {
    var dependencies := Dependencies(later, links);
    forall s, t | s in later && t in TransfersOf(s, links)
      ensures t in Transfers(dependencies, links)
    {
      assert s.kind == Outbound && s in dependencies;
    }
  }

  function SourcesOf(dependencies: seq<Dependency>): set<Source> {
    set i | 0 <= i < |dependencies| :: dependencies[i].source
  }

  ghost predicate Distinct(dependencies: seq<Dependency>) {
    forall i, j :: 0 <= i < j < |dependencies| ==> dependencies[i].source != dependencies[j].source
  }

  ghost predicate NewestOnTop(dependencies: seq<Dependency>) {
    forall i, j :: 0 <= i < j < |dependencies| ==> dependencies[i].lastId >= dependencies[j].lastId
  }

  predicate Describes(d: Dependency, db: Db) {
    d.lastId == LastId(db.ledger, d.source) && d.reversible == Reversible(db, d.source)
  }

  /** One entry a source, with its version and whether it can be reversed, newest first. */
  ghost predicate Lists(dependencies: seq<Dependency>, db: Db, sources: set<Source>) {
    && SourcesOf(dependencies) == sources
    && Distinct(dependencies) && NewestOnTop(dependencies)
    && forall i :: 0 <= i < |dependencies| ==> Describes(dependencies[i], db)
  }

  method FindBoundary(ledger: seq<Row>, own: Source) returns (boundary: int)
    ensures boundary == Boundary(ledger, own)
  {
    boundary := 0;
    for i := 0 to |ledger|
      invariant boundary == Boundary(ledger[..i], own)
    {
      assert ledger[..i + 1][..i] == ledger[..i];
      if ledger[i].source == own && ledger[i].event == Receive && boundary < ledger[i].id {
        boundary := ledger[i].id;
      }
    }
    assert ledger[..|ledger|] == ledger;
  }

  /** Reads all rows of the source, not only those in the receipt's container. */
  method ExpandDependency(ledger: seq<Row>, s: Source) returns (lastId: int)
    ensures lastId == LastId(ledger, s)
  {
    lastId := 0;
    for i := 0 to |ledger|
      invariant lastId == LastId(ledger[..i], s)
    {
      assert ledger[..i + 1][..i] == ledger[..i];
      if ledger[i].source == s && lastId < ledger[i].id {
        lastId := ledger[i].id;
      }
    }
    assert ledger[..|ledger|] == ledger;
  }

  method GroupLaterRows(ledger: seq<Row>, own: Source, key: ContainerKey, boundary: int) returns (groups: set<Source>)
    ensures groups == LaterSources(ledger, own, key, boundary)
  {
    groups := {};
    for i := 0 to |ledger|
      invariant groups == set j | 0 <= j < i && IsLater(ledger[j], own, key, boundary) :: ledger[j].source
    {
      if IsLater(ledger[i], own, key, boundary) {
        groups := groups + {ledger[i].source};
      }
    }
  }

  method CoveredTransfers(sources: set<Source>, links: map<int, set<int>>) returns (transfers: set<Source>)
    ensures transfers == Transfers(sources, links)
  {
    transfers := {};
    var rest := sources;
    while rest != {}
      invariant rest <= sources && transfers == Transfers(sources - rest, links)
      decreases rest
    {
      var s := PickOne(rest);
      assert sources - (rest - {s}) == (sources - rest) + {s};
      transfers, rest := transfers + TransfersOf(s, links), rest - {s};
    }
    assert sources - rest == sources;
  }

  function Inserted(dependencies: seq<Dependency>, d: Dependency, p: nat): seq<Dependency>
    requires p <= |dependencies|
  {
    dependencies[..p] + [d] + dependencies[p..]
  }

  lemma InsertedSources(dependencies: seq<Dependency>, d: Dependency, p: nat)
    requires p <= |dependencies|
    ensures SourcesOf(Inserted(dependencies, d, p)) == SourcesOf(dependencies) + {d.source}
  {
    var inserted := Inserted(dependencies, d, p);
    assert inserted[p] == d;
    forall i | 0 <= i < |dependencies|
      ensures dependencies[i].source in SourcesOf(inserted)
    {
      assert inserted[if i < p then i else i + 1] == dependencies[i];
    }
  }

  lemma InsertedDistinct(dependencies: seq<Dependency>, d: Dependency, p: nat)
    requires p <= |dependencies| && Distinct(dependencies) && d.source !in SourcesOf(dependencies)
    ensures Distinct(Inserted(dependencies, d, p))
  {
    forall i | 0 <= i < |dependencies|
      ensures dependencies[i].source != d.source
    {
      assert dependencies[i].source in SourcesOf(dependencies);
    }
  }

  method InsertByLastId(dependencies: seq<Dependency>, d: Dependency, ghost db: Db)
    returns (inserted: seq<Dependency>)
    requires Lists(dependencies, db, SourcesOf(dependencies)) && d.source !in SourcesOf(dependencies)
    requires Describes(d, db)
    ensures Lists(inserted, db, SourcesOf(dependencies) + {d.source})
  {
    var p := 0;
    while p < |dependencies| && d.lastId <= dependencies[p].lastId
      invariant p <= |dependencies| && forall i :: 0 <= i < p ==> d.lastId <= dependencies[i].lastId
    {
      p := p + 1;
    }
    inserted := dependencies[..p] + [d] + dependencies[p..];
    assert inserted == Inserted(dependencies, d, p);
    InsertedSources(dependencies, d, p);
    InsertedDistinct(dependencies, d, p);
  }

  /** The later activity of the receipt's container, and whether all of it can be rolled back. */
  method BuildImpact(db: Db, own: Source, links: map<int, set<int>>)
    returns (dependencies: seq<Dependency>, canExecute: bool)
    requires own in db.documents
    ensures Lists(dependencies, db, Planned(db, own, links))
    ensures canExecute <==> forall s :: s in Planned(db, own, links) ==> Reversible(db, s)
  {
    var document := db.documents[own];
    dependencies, canExecute := [], true;
    assert SourcesOf(dependencies) == {};
    if document.standing != Posted || document.key.container == "" {
      return;
    }
    var boundary := FindBoundary(db.ledger, own);
    if boundary <= 0 {
      return;
    }
    var groups := GroupLaterRows(db.ledger, own, document.key, boundary);
    var covered := CoveredTransfers(groups, links);
    var rest := groups;
    while rest != {}
      invariant rest <= groups && Lists(dependencies, db, (groups - rest) - covered)
      invariant canExecute <==> forall s :: s in (groups - rest) - covered ==> Reversible(db, s)
      decreases rest
    {
      var s := PickOne(rest);
      ghost var before := (groups - rest) - covered;
      rest := rest - {s};
      if s in covered {
        assert (groups - rest) - covered == before;
      } else {
        assert (groups - rest) - covered == before + {s};
        var lastId := ExpandDependency(db.ledger, s);
        dependencies := InsertByLastId(dependencies, Dependency(s, lastId, Reversible(db, s)), db);
        canExecute := canExecute && Reversible(db, s);
      }
    }
    assert groups - rest == groups;
  }

  // ----- the caller's confirmation of the plan

  /** The selection names every dependency once, at its current version, and nothing else. */
  ghost predicate IsCopy(selected: seq<Selection>, expected: seq<Dependency>) {
    && |selected| == |expected|
    && DistinctSelections(selected)
    && (forall i :: 0 <= i < |selected| ==> Names(selected[i], expected))
  }

  ghost predicate Names(selection: Selection, expected: seq<Dependency>) {
    exists j :: 0 <= j < |expected| && selection.source == expected[j].source && selection.lastId == expected[j].lastId
  }

  predicate Chosen(chosen: map<Source, Selection>, d: Dependency) {
    d.source in chosen && chosen[d.source].lastId == d.lastId
  }

  predicate Positive(selection: Selection) {
    0 < selection.source.id && 0 < selection.lastId
  }

  ghost predicate DistinctSelections(selected: seq<Selection>) {
    forall i, j :: 0 <= i < j < |selected| ==> selected[i].source != selected[j].source
  }

  /** Indexes the selection by source; refuses improper and repeated entries. */
  method IndexSelections(selected: seq<Selection>) returns (proper: bool, chosen: map<Source, Selection>)
    ensures proper <==> DistinctSelections(selected) && forall i :: 0 <= i < |selected| ==> Positive(selected[i])
    ensures proper ==>
              |chosen| == |selected|
              && forall j :: 0 <= j < |selected| ==> selected[j].source in chosen && chosen[selected[j].source] == selected[j]
  {
    chosen := map[];
    for i := 0 to |selected|
      invariant forall j :: 0 <= j < i ==> Positive(selected[j])
      invariant forall j :: 0 <= j < i ==> selected[j].source in chosen && chosen[selected[j].source] == selected[j]
      invariant forall s :: s in chosen ==> exists j :: 0 <= j < i && selected[j].source == s
      invariant forall j, k :: 0 <= j < k < i ==> selected[j].source != selected[k].source
      invariant |chosen| == i
    {
      if selected[i].source.id <= 0 || selected[i].lastId <= 0 || selected[i].source in chosen {
        return false, chosen;
      }
      chosen := chosen[selected[i].source := selected[i]];
    }
    proper := true;
  }

  method ValidateSelections(expected: seq<Dependency>, selected: seq<Selection>) returns (accepted: bool)
    requires Distinct(expected)
    requires forall i :: 0 <= i < |expected| ==> 0 < expected[i].source.id && 0 < expected[i].lastId
    ensures accepted <==> IsCopy(selected, expected)
  {
    if |expected| != |selected| {
      return false;
    }
    CopiesArePositive(expected, selected);
    var proper, chosen := IndexSelections(selected);
    if !proper {
      return false;
    }
    accepted := true;
    for k := 0 to |expected|
      invariant accepted <==> forall j :: 0 <= j < k ==> Chosen(chosen, expected[j])
    {
      accepted := accepted && expected[k].source in chosen && chosen[expected[k].source].lastId == expected[k].lastId;
    }
    SameSize(expected, selected, chosen);
  }

  lemma CopiesArePositive(expected: seq<Dependency>, selected: seq<Selection>)
    requires forall i :: 0 <= i < |expected| ==> 0 < expected[i].source.id && 0 < expected[i].lastId
    ensures IsCopy(selected, expected) ==>
              forall i :: 0 <= i < |selected| ==> Positive(selected[i])
  {
    if IsCopy(selected, expected) {
      forall i | 0 <= i < |selected|
        ensures Positive(selected[i])
      {
        assert Names(selected[i], expected);
      }
    }
  }

  lemma {:induction false} SourcesCounted(expected: seq<Dependency>)
    requires Distinct(expected)
    ensures |SourcesOf(expected)| == |expected|
  {
    if expected != [] {
      var rest, last := expected[..|expected| - 1], expected[|expected| - 1];
      SourcesCounted(rest);
      assert SourcesOf(expected) == SourcesOf(rest) + {last.source};
      assert last.source !in SourcesOf(rest);
    }
  }

  lemma SubsetOfSameSize<T>(a: set<T>, b: set<T>)
    requires a <= b && |a| == |b|
    ensures a == b
  {
    if a != b {
      ProperSubset(a, b);
    }
  }

  lemma ProperSubset<T>(a: set<T>, b: set<T>)
    requires a < b
    ensures |a| < |b|
  {
    assert !(b <= a);
    var x :| x in b && x !in a;
    SmallerSubset(a, b - {x});
    assert |b - {x}| == |b| - 1;
  }

  lemma {:induction false} SmallerSubset<T>(a: set<T>, b: set<T>)
    requires a <= b
    ensures |a| <= |b|
    decreases a
  {
    if a != {} {
      var x :| x in a;
      SmallerSubset(a - {x}, b - {x});
    }
  }

  /** As many selected as expected, and all expected selected: then nothing else is selected. */
  lemma SameSize(expected: seq<Dependency>, selected: seq<Selection>, chosen: map<Source, Selection>)
    requires |expected| == |selected| == |chosen|
    requires Distinct(expected)
    requires DistinctSelections(selected)
    requires forall j :: 0 <= j < |selected| ==> selected[j].source in chosen && chosen[selected[j].source] == selected[j]
    ensures (forall j :: 0 <= j < |expected| ==> Chosen(chosen, expected[j])) <==> IsCopy(selected, expected)
  {
    SourcesCounted(expected);
    assert |chosen.Keys| == |chosen|;
    if forall j :: 0 <= j < |expected| ==> Chosen(chosen, expected[j]) {
      assert SourcesOf(expected) <= chosen.Keys;
      SubsetOfSameSize(SourcesOf(expected), chosen.Keys);
      forall i | 0 <= i < |selected|
        ensures Names(selected[i], expected)
      {
        assert selected[i].source in SourcesOf(expected);
      }
    }
    if IsCopy(selected, expected) {
      CopyIsOnto(expected, selected);
      forall j | 0 <= j < |expected|
        ensures Chosen(chosen, expected[j])
      {
        assert expected[j].source in SourcesOf(expected);
        var i :| 0 <= i < |selected| && selected[i].source == expected[j].source;
        assert Names(selected[i], expected);
      }
    }
  }

  function SelectedSources(selected: seq<Selection>): set<Source> {
    set i | 0 <= i < |selected| :: selected[i].source
  }

  lemma {:induction false} SelectionsCounted(selected: seq<Selection>)
    requires DistinctSelections(selected)
    ensures |SelectedSources(selected)| == |selected|
  {
    if selected != [] {
      var rest, last := selected[..|selected| - 1], selected[|selected| - 1];
      SelectionsCounted(rest);
      assert SelectedSources(selected) == SelectedSources(rest) + {last.source};
      assert last.source !in SelectedSources(rest);
    }
  }

  lemma CopyIsOnto(expected: seq<Dependency>, selected: seq<Selection>)
    requires IsCopy(selected, expected)
    requires Distinct(expected)
    ensures SelectedSources(selected) == SourcesOf(expected)
  {
    SourcesCounted(expected);
    SelectionsCounted(selected);
    forall i | 0 <= i < |selected|
      ensures selected[i].source in SourcesOf(expected)
    {
      assert Names(selected[i], expected);
    }
    SubsetOfSameSize(SelectedSources(selected), SourcesOf(expected));
  }

  // ----- carrying it out

  function RowMutation(db: Db, r: Row): Mutation {
    MutationOf(db, r.bucket, if r.day.Some? then r.day.value else r.created)
  }

  /** No covered row lies in a period that a live invoice has frozen. */
  ghost predicate NothingFrozen(db: Db, sources: set<Source>) {
    forall i :: 0 <= i < |db.ledger| && db.ledger[i].source in sources ==> !Frozen(db.invoices, RowMutation(db, db.ledger[i]))
  }

  /** What the caller and the data must satisfy for the deletion to go through. */
  ghost predicate Deletable(db: Db, own: Source, links: map<int, set<int>>, selected: seq<Selection>, now: int) {
    && own in db.documents && db.documents[own].standing != Withdrawn
    && (forall s :: s in Planned(db, own, links) ==> Reversible(db, s))
    && Confirms(selected, db, Planned(db, own, links))
    && NothingFrozen(db, Coverage(db, own, links))
    && AllTakeable(db, Coverage(db, own, links), |db.ledger|, now)
  }

  /** The selection names every planned source once, at its current version, and nothing else. */
  ghost predicate Confirms(selected: seq<Selection>, db: Db, planned: set<Source>) {
    && SelectedSources(selected) == planned
    && DistinctSelections(selected)
    && (forall i :: 0 <= i < |selected| ==> selected[i].lastId == LastId(db.ledger, selected[i].source))
  }

  lemma CopyConfirms(selected: seq<Selection>, dependencies: seq<Dependency>, db: Db, planned: set<Source>)
    requires Lists(dependencies, db, planned)
    ensures IsCopy(selected, dependencies) <==> Confirms(selected, db, planned)
  {
    if IsCopy(selected, dependencies) {
      CopyIsOnto(dependencies, selected);
      forall i | 0 <= i < |selected|
        ensures selected[i].lastId == LastId(db.ledger, selected[i].source)
      {
        assert Names(selected[i], dependencies);
      }
    }
    if Confirms(selected, db, planned) {
      SourcesCounted(dependencies);
      SelectionsCounted(selected);
      forall i | 0 <= i < |selected|
        ensures Names(selected[i], dependencies)
      {
        assert selected[i].source in SelectedSources(selected);
        var j :| 0 <= j < |dependencies| && dependencies[j].source == selected[i].source;
      }
    }
  }

  /** A later source has a row with a positive id, so its version is positive. */
  lemma {:induction false} VersionsArePositive(ledger: seq<Row>, s: Source, i: nat)
    requires i < |ledger| && ledger[i].source == s
    ensures ledger[i].id <= LastId(ledger, s)
  {
    if i < |ledger| - 1 {
      VersionsArePositive(ledger[..|ledger| - 1], s, i);
    }
  }

  lemma PlannedVersions(db: Db, own: Source, links: map<int, set<int>>, s: Source)
    requires own in db.documents && s in Planned(db, own, links)
    ensures 0 < LastId(db.ledger, s)
  {
    var key, boundary := db.documents[own].key, Boundary(db.ledger, own);
    assert s in LaterSources(db.ledger, own, key, boundary);
    var i :| 0 <= i < |db.ledger| && IsLater(db.ledger[i], own, key, boundary) && db.ledger[i].source == s;
    VersionsArePositive(db.ledger, s, i);
  }

  method LoadRows(ledger: seq<Row>, sources: set<Source>) returns (rows: seq<Row>)
    ensures rows == NewestFirst(ledger, sources)
  {
    rows := [];
    for i := 0 to |ledger|
      invariant rows == NewestFirst(ledger[..i], sources)
    {
      NewestFirstStep(ledger, sources, i);
      if ledger[i].source in sources {
        rows := [ledger[i]] + rows;
      }
    }
    assert ledger[..|ledger|] == ledger;
  }

  method CheckRowsNotFrozen(db: Db, rows: seq<Row>, ghost sources: set<Source>) returns (allowed: bool)
    requires rows == NewestFirst(db.ledger, sources)
    ensures allowed <==> NothingFrozen(db, sources)
  {
    var mutations := seq(|rows|, i requires 0 <= i < |rows| => RowMutation(db, rows[i]));
    allowed := CheckMutationsAllowed(db.invoices, mutations);
    forall i | 0 <= i < |db.ledger| && db.ledger[i].source in sources
      ensures db.ledger[i] in rows
    {
      NewestFirstMembers(db.ledger, sources, db.ledger[i]);
    }
    forall k | 0 <= k < |rows|
      ensures rows[k] in db.ledger && rows[k].source in sources
    {
      NewestFirstMembers(db.ledger, sources, rows[k]);
    }
    if allowed {
      forall i | 0 <= i < |db.ledger| && db.ledger[i].source in sources
        ensures !Frozen(db.invoices, RowMutation(db, db.ledger[i]))
      {
        var k :| 0 <= k < |rows| && rows[k] == db.ledger[i];
        assert mutations[k] == RowMutation(db, rows[k]);
      }
    }
  }

  method ReverseRow(w: Warehouse, r: Row, receipt: int, now: int) returns (error: Option<Error>)
    modifies w
    ensures ReportsWithin(error, ReverseOne(old(w.State()), r, receipt, now), w.State())
  {
    if r.bucket.sku <= 0 {
      return if r.quantity == 0 && r.pallets == 0 then None else Some(InvalidInput);
    }
    if 0 < r.quantity || 0 < r.pallets {
      if r.bucket !in w.items {
        return Some(InsufficientStock);
      }
      var item := w.items[r.bucket];
      var finalQuantity, finalPallets := item.quantity - r.quantity, item.pallets - r.pallets;
      if finalQuantity < item.Reserved() || finalQuantity < 0 || finalPallets < item.allocatedPallets || finalPallets < 0 {
        return Some(InsufficientStock);
      }
    }
    error := w.CreateStockLedgerEntry(ReversalOf(r, receipt, now), now);
  }

  method ReverseRows(w: Warehouse, rows: seq<Row>, receipt: int, now: int) returns (error: Option<Error>)
    modifies w
    ensures ReportsWithin(error, ReverseAll(old(w.State()), rows, receipt, now), w.State())
  {
    for i := 0 to |rows|
      invariant ReverseAll(w.State(), rows[i..], receipt, now) == ReverseAll(old(w.State()), rows, receipt, now)
    {
      assert rows[i..][0] == rows[i] && rows[i..][1..] == rows[i + 1..];
      error := ReverseRow(w, rows[i], receipt, now);
      if error.Some? {
        return;
      }
    }
    error := None;
  }

  /** Deletes the ledger rows of one source. */
  method DeleteRows(w: Warehouse, s: Source)
    modifies w`ledger
    ensures w.ledger == Without(old(w.ledger), {s})
  {
    var was, kept := w.ledger, [];
    for i := 0 to |was|
      invariant kept == Without(was[..i], {s})
    {
      assert was[..i + 1][..i] == was[..i];
      if was[i].source != s {
        kept := kept + [was[i]];
      } else {
        assert kept + [] == kept;
      }
    }
    assert was[..|was|] == was;
    w.ledger := kept;
  }

  /** Deletes one document with its rows. */
  method EraseOne(w: Warehouse, ghost was: Db, ghost done: set<Source>, s: Source)
    requires w.ledger == Without(was.ledger, done) && w.documents == was.documents - done
    modifies w`ledger, w`documents
    ensures w.ledger == Without(was.ledger, done + {s}) && w.documents == was.documents - (done + {s})
  {
    DeleteRows(w, s);
    WithoutTwice(was.ledger, done, {s});
    w.documents := w.documents - {s};
    assert was.documents - done - {s} == was.documents - (done + {s});
  }

  /** Deletes the covered documents with their rows, and then the reversals. */
  method EraseCovered(w: Warehouse, sources: set<Source>, receipt: int)
    modifies w`ledger, w`documents
    ensures w.State() == Erased(old(w.State()), sources, receipt)
  {
    ghost var was := w.State();
    var rest := sources;
    WithoutNothing(was.ledger);
    assert sources - rest == {};
    while rest != {}
      invariant rest <= sources
      invariant w.ledger == Without(was.ledger, sources - rest)
      invariant w.documents == was.documents - (sources - rest)
      decreases rest
    {
      var s := PickOne(rest);
      ghost var done := sources - rest;
      EraseOne(w, was, done, s);
      rest := rest - {s};
      assert sources - rest == done + {s};
    }
    assert sources - rest == sources;
    DeleteRows(w, ReversalSource(receipt));
    WithoutTwice(was.ledger, sources, {ReversalSource(receipt)});
  }

  lemma {:induction false} WithoutNothing(ledger: seq<Row>)
    ensures Without(ledger, {}) == ledger
  {
    if ledger != [] {
      WithoutNothing(ledger[..|ledger| - 1]);
    }
  }

  method RecomputeTouched(w: Warehouse, rows: seq<Row>)
    requires forall k :: k in w.containers ==> k.container != ""
    modifies w`containers
    ensures Recomputed(old(w.State()), w.State(), TouchedKeys(rows))
  {
    ghost var was := w.State();
    var keys: set<ContainerKey> := {};
    for i := 0 to |rows|
      invariant keys == set j | 0 <= j < i && rows[j].bucket.container != "" :: KeyOf(rows[j].bucket)
    {
      if rows[i].bucket.container != "" {
        keys := keys + {KeyOf(rows[i].bucket)};
      }
    }
    assert keys == TouchedKeys(rows);
    var rest := keys;
    while rest != {}
      invariant rest <= keys && Recomputed(was, w.State(), keys - rest)
      decreases rest
    {
      var key := PickOne(rest);
      ghost var done := keys - rest;
      rest := rest - {key};
      assert keys - rest == done + {key};
      if key in w.containers {
        RecomputeOne(was, w.State(), done, key);
        w.RecomputeContainer(key);
      }
    }
    assert keys - rest == keys;
  }

  method PurgeContainer(w: Warehouse, key: ContainerKey)
    modifies w`items, w`containers
    ensures w.State() == Purge(old(w.State()), key)
  {
    if key.container == "" || ReceiptRemains(w.State(), key) {
      return;
    }
    var items := w.items;
    w.items := map b | b in items && !(InContainer(b, key) && Empty(items[b])) :: items[b];
    if (forall b :: b in w.items ==> !InContainer(b, key))
       && (forall i :: 0 <= i < |w.ledger| ==> !InContainer(w.ledger[i].bucket, key)) {
      w.containers := w.containers - {key};
    }
  }

  /**
    Deletes the receipt with its later activity. It succeeds exactly when the selection confirms
    the plan, everything is reversible, nothing is frozen and every row can be taken back; then
    the tables are as if the covered documents had never been posted. Otherwise nothing changes.
   */
  method DeleteInboundWithDependencies(w: Warehouse, id: int, links: map<int, set<int>>, selected: seq<Selection>, now: int)
    returns (error: Option<Error>)
    requires Valid(w.State()) && NoReversals(w.ledger)
    modifies w
    ensures error.None? <==> Deletable(old(w.State()), Source(Inbound, id), links, selected, now)
    ensures error.None? ==>
              AsIfNever(old(w.State()), w.State(), Coverage(old(w.State()), Source(Inbound, id), links))
    ensures error.Some? ==> w.State() == old(w.State())
  {
    var own, was := Source(Inbound, id), w.State();
    if own !in w.documents {
      return Some(NotFound);
    }
    if w.documents[own].standing == Withdrawn {
      return Some(InvalidInput);
    }
    var dependencies, canExecute := BuildImpact(was, own, links);
    if !canExecute {
      return Some(InvalidInput);
    }
    ghost var planned := Planned(was, own, links);
    PositiveEntries(was, own, links, dependencies);
    var accepted := ValidateSelections(dependencies, selected);
    CopyConfirms(selected, dependencies, was, planned);
    if !accepted {
      return Some(InvalidInput);
    }
    var listed := SourcesOf(dependencies);
    var transfers := CoveredTransfers(listed, links);
    var covered := {own} + listed + transfers;
    var rows := LoadRows(w.ledger, covered);
    var thawed := CheckRowsNotFrozen(was, rows, covered);
    if !thawed {
      return Some(InvalidInput);
    }
    error := TakeBack(w, rows, covered, own, now);
  }

  /** Reverses the rows and erases the documents, or changes nothing. */
  method TakeBack(w: Warehouse, rows: seq<Row>, sources: set<Source>, own: Source, now: int) returns (error: Option<Error>)
    requires Valid(w.State()) && NoReversals(w.ledger)
    requires rows == NewestFirst(w.ledger, sources) && own in sources && own in w.documents
    modifies w
    ensures error.None? <==> AllTakeable(old(w.State()), sources, |old(w.ledger)|, now)
    ensures error.None? ==> AsIfNever(old(w.State()), w.State(), sources)
    ensures error.Some? ==> w.State() == old(w.State())
  {
    var was := w.State();
    RollbackStart(was, sources, own.id);
    assert was.ledger[..|was.ledger|] == was.ledger;
    RollbackExactly(was, was, sources, |was.ledger|, own.id, now);
    error := ReverseRows(w, rows, own.id, now);
    if error.Some? {
      w.Rollback(was);
      return;
    }
    assert HasKey(was, own, was.documents[own].key);
    EraseRolledBack(w, was, rows, sources, own.id, was.documents[own].key);
  }

  /** Erases what was rolled back, and leaves the touched containers as computed from what remains. */
  method EraseRolledBack(w: Warehouse, ghost was: Db, rows: seq<Row>, sources: set<Source>, receipt: int, key: ContainerKey)
    requires RolledBackTo(was, w.State(), sources, 0, receipt) && NoReversals(was.ledger)
    requires rows == NewestFirst(was.ledger, sources) && OneHasKey(was, sources, key)
    modifies w
    ensures AsIfNever(was, w.State(), sources)
  {
    ghost var reversed := w.State();
    EraseCovered(w, sources, receipt);
    RecomputeTouched(w, rows);
    ErasureIsValid(was, reversed, sources, receipt, w.State());
    PurgeKeeps(was, w.State(), sources, key);
    PurgeContainer(w, key);
  }

  lemma PositiveEntries(db: Db, own: Source, links: map<int, set<int>>, dependencies: seq<Dependency>)
    requires own in db.documents && Lists(dependencies, db, Planned(db, own, links))
    requires forall s :: s in Planned(db, own, links) ==> Reversible(db, s)
    ensures forall i :: 0 <= i < |dependencies| ==> 0 < dependencies[i].source.id && 0 < dependencies[i].lastId
  {
    forall i | 0 <= i < |dependencies|
      ensures 0 < dependencies[i].source.id && 0 < dependencies[i].lastId
    {
      assert dependencies[i].source in SourcesOf(dependencies);
      PlannedVersions(db, own, links, dependencies[i].source);
    }
  }

  // ----- the plan is complete

  /** After the deletion no row of the receipt's container is newer than what the receipt received. */
  lemma NothingLaterRemains(was: Db, after: Db, own: Source, links: map<int, set<int>>)
    requires own in was.documents && was.documents[own].standing == Posted
    requires was.documents[own].key.container != "" && 0 < Boundary(was.ledger, own)
    requires NoReversals(was.ledger) && AsIfNever(was, after, Coverage(was, own, links))
    ensures forall r :: r in after.ledger && InContainer(r.bucket, was.documents[own].key) ==>
              r.id <= Boundary(was.ledger, own)
    ensures forall s: Source, t: int, r ::
              s in Later(was, own) && s.kind == Outbound && 0 < s.id && s.id in links && t in links[s.id] && 0 < t
              && r in was.ledger && r.source == Source(Transfer, t) ==>
                r !in after.ledger
  {
    var later, boundary, covered := Later(was, own), Boundary(was.ledger, own), Coverage(was, own, links);
    var key := was.documents[own].key;
    LaterIsCovered(own, later, links);
    forall r | r in after.ledger
      ensures r.source !in covered
      ensures InContainer(r.bucket, key) ==> r.id <= boundary
    {
      WithoutMembers(was.ledger, covered, r);
      var i :| 0 <= i < |was.ledger| && was.ledger[i] == r;
      assert IsLater(r, own, key, boundary) ==> r.source in later;
    }
    forall s: Source, t: int | s in later && s.kind == Outbound && 0 < s.id && s.id in links && t in links[s.id] && 0 < t
      ensures Source(Transfer, t) in covered
    {
      assert s in Dependencies(later, links) && Source(Transfer, t) in TransfersOf(s, links);
      assert Source(Transfer, t) in Transfers(Dependencies(later, links), links);
    }
  }
}
