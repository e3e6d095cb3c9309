/**
  The container type and handling mode that a container shares with all its receipts: through
  confirmation, reclassification, metadata updates, container creation, ledger rows and deletion.

  Texts are normalized; the empty container number is "none". refused tells that the billing
  freeze forbids a change of type, which it is asked only when the type does change.
 */
module ContainerMetadata {
  import opened Wrappers
  import SortedSets

  datatype Mode = Palletized | SealedTransit

  datatype Status = Draft | Confirmed | Deleted

  datatype Key = Key(customer: int, container: string)

  datatype Receipt = Receipt(key: Key, containerType: string, mode: Mode, status: Status)

  datatype Container = Container(containerType: string, mode: Mode)

  datatype Db = Db(receipts: map<int, Receipt>, containers: map<Key, Container>)

  const NORMAL := "NORMAL"

  predicate IsConfirmed(receipts: map<int, Receipt>, id: int, key: Key) {
    id in receipts && receipts[id].status == Confirmed && receipts[id].key == key
  }

  function ConfirmedOf(receipts: map<int, Receipt>, key: Key): set<int> {
    set id | id in receipts && IsConfirmed(receipts, id, key)
  }

  function Metadata(r: Receipt): Container {
    Container(r.containerType, r.mode)
  }

  /** Every confirmed receipt has the metadata of its container's record, which exists. */
  ghost predicate Consistent(db: Db) {
    forall id :: id in db.receipts && db.receipts[id].status == Confirmed && db.receipts[id].key.container != "" ==>
      db.receipts[id].key in db.containers && db.containers[db.receipts[id].key] == Metadata(db.receipts[id])
  }

  // ----- operations

  predicate Agree(receipts: map<int, Receipt>, ids: set<int>, wanted: Container) {
    forall id :: id in ids && id in receipts ==> Metadata(receipts[id]) == wanted
  }

  /** A draft is confirmed when it agrees with every other confirmed receipt of the container. */
  function Confirming(db: Db, id: int): Result<Db> {
    if id !in db.receipts then Err(NotFound)
    else
      var r := db.receipts[id];
      if r.status != Draft || r.mode == SealedTransit then Err(InvalidInput)
      else if r.key.container == "" then Ok(db.(receipts := db.receipts[id := r.(status := Confirmed)]))
      else if !Agree(db.receipts, ConfirmedOf(db.receipts, r.key) - {id}, Metadata(r)) then Err(InvalidInput)
      else Ok(Db(db.receipts[id := r.(status := Confirmed)], db.containers[r.key := Metadata(r)]))
  }

  /** All receipts of the container that are not deleted, and its record if there is one, change type. */
  function Retyped(db: Db, key: Key, containerType: string): Db {
    Db(map id | id in db.receipts ::
         if db.receipts[id].key == key && db.receipts[id].status != Deleted
         then db.receipts[id].(containerType := containerType) else db.receipts[id],
       if key in db.containers then db.containers[key := db.containers[key].(containerType := containerType)] else db.containers)
  }

  function Remoded(db: Db, key: Key, mode: Mode): Db {
    Db(map id | id in db.receipts ::
         if db.receipts[id].key == key && db.receipts[id].status != Deleted
         then db.receipts[id].(mode := mode) else db.receipts[id],
       if key in db.containers then db.containers[key := db.containers[key].(mode := mode)] else db.containers)
  }

  predicate ModesAgree(receipts: map<int, Receipt>, key: Key, mode: Mode) {
    forall id :: id in receipts && IsConfirmed(receipts, id, key) ==> receipts[id].mode == mode
  }

  function Updating(db: Db, key: Key, containerType: string, mode: Mode, refused: bool): Result<Db> {
    if key.customer <= 0 || key.container == "" then Err(InvalidInput)
    else if key !in db.containers then Err(NotFound)
    else if refused && db.containers[key].containerType != containerType then Err(InvalidInput)
    else
      var retyped := Retyped(db, key, containerType);
      if !ModesAgree(retyped.receipts, key, mode) then Err(InvalidInput) else Ok(Remoded(retyped, key, mode))
  }

  function Reclassifying(db: Db, id: int, containerType: string, refused: bool): Result<Db> {
    if id !in db.receipts then Err(NotFound)
    else
      var r := db.receipts[id];
      if r.status == Deleted then Err(InvalidInput)
      else if r.key.container == "" then Ok(db.(receipts := db.receipts[id := r.(containerType := containerType)]))
      else if refused && r.containerType != containerType then Err(InvalidInput)
      else Ok(Retyped(db, r.key, containerType))
  }

  /** An existing record is kept as it is; history is the type of the container's earliest receipt, if any. */
  function Creating(db: Db, key: Key, wanted: Option<string>, mode: Mode, history: Option<string>, refused: bool): Result<Db> {
    if key.customer <= 0 || key.container == "" then Err(InvalidInput)
    else if key in db.containers then Ok(db)
    else
      var inferred := if history.Some? then history.value else NORMAL;
      var chosen := if wanted.Some? then wanted.value else inferred;
      if refused && inferred != chosen then Err(InvalidInput)
      else Ok(db.(containers := db.containers[key := Container(chosen, mode)]))
  }

  /** A ledger row for a container that has no record yet. */
  function Touching(db: Db, key: Key): Db {
    if key.container == "" || key in db.containers then db
    else db.(containers := db.containers[key := Container(NORMAL, Palletized)])
  }

  function Drafting(db: Db, id: int, receipt: Receipt): Result<Db> {
    if id in db.receipts && db.receipts[id].status != Draft then Err(InvalidInput)
    else Ok(db.(receipts := db.receipts[id := receipt.(status := Draft)]))
  }

  /** The receipt goes, and the record with it once no receipt at all is left and nothing else refers to it. */
  function Removing(db: Db, id: int, unused: bool): Result<Db> {
    if id !in db.receipts then Err(NotFound)
    else
      var key, receipts := db.receipts[id].key, db.receipts - {id};
      if unused && key.container != "" && (forall k :: k in receipts ==> receipts[k].key != key)
      then Ok(Db(receipts, db.containers - {key})) else Ok(db.(receipts := receipts))
  }

  // ----- the registry

  class Registry {
    var receipts: map<int, Receipt>
    var containers: map<Key, Container>

    constructor ()
      ensures Consistent(State())
    {
      receipts, containers := map[], map[];
    }

    function State(): Db
      reads this
    {
      Db(receipts, containers)
    }

    /** Looks at the other confirmed receipts one by one. */
    method CheckConsistency(id: int, r: Receipt) returns (agree: bool)
      ensures agree <==> Agree(receipts, ConfirmedOf(receipts, r.key) - {id}, Metadata(r))
    {
      var others := ConfirmedOf(receipts, r.key) - {id};
      var rest := others;
      while rest != {}
        invariant rest <= others && Agree(receipts, others - rest, Metadata(r))
        decreases rest
      {
        var other := SortedSets.PickOne(rest);
        rest := rest - {other};
        if receipts[other].containerType != r.containerType || receipts[other].mode != r.mode {
          return false;
        }
      }
      assert others - rest == others;
      agree := true;
    }

    method ConfirmReceipt(id: int) returns (error: Option<Error>)
      modifies this
      ensures Reports(error, Confirming(old(State()), id), State(), old(State()))
    {
      if id !in receipts {
        return Some(NotFound);
      }
      var r := receipts[id];
      if r.status != Draft || r.mode == SealedTransit {
        return Some(InvalidInput);
      }
      if r.key.container != "" {
        var agree := CheckConsistency(id, r);
        if !agree {
          return Some(InvalidInput);
        }
        containers := containers[r.key := Container(r.containerType, r.mode)];
      }
      receipts := receipts[id := r.(status := Confirmed)];
      error := None;
    }

    method UpdateType(key: Key, containerType: string)
      modifies this
      ensures State() == Retyped(old(State()), key, containerType)
    {
      var was := receipts;
      receipts := map id | id in was ::
        if was[id].key == key && was[id].status != Deleted then was[id].(containerType := containerType) else was[id];
      if key in containers {
        containers := containers[key := containers[key].(containerType := containerType)];
      }
    }

    /** Refuses when a confirmed receipt establishes the other mode. */
    method UpdateMode(key: Key, mode: Mode) returns (error: Option<Error>)
      modifies this
      ensures if ModesAgree(old(receipts), key, mode) then error.None? && State() == Remoded(old(State()), key, mode)
              else error == Some(InvalidInput) && State() == old(State())
    {
      var confirmed := ConfirmedOf(receipts, key);
      var rest := confirmed;
      while rest != {}
        invariant State() == old(State()) && rest <= confirmed
        invariant forall id :: id in confirmed - rest ==> receipts[id].mode == mode
        decreases rest
      {
        var id := SortedSets.PickOne(rest);
        rest := rest - {id};
        if receipts[id].mode != mode {
          return Some(InvalidInput);
        }
      }
      assert forall id :: id in receipts && IsConfirmed(receipts, id, key) ==> id in confirmed - rest;
      var was := receipts;
      receipts := map id | id in was ::
        if was[id].key == key && was[id].status != Deleted then was[id].(mode := mode) else was[id];
      if key in containers {
        containers := containers[key := containers[key].(mode := mode)];
      }
      error := None;
    }

    method UpdateMetadata(key: Key, containerType: string, mode: Mode, refused: bool) returns (error: Option<Error>)
      modifies this
      ensures Reports(error, Updating(old(State()), key, containerType, mode, refused), State(), old(State()))
    {
      if key.customer <= 0 || key.container == "" {
        return Some(InvalidInput);
      }
      if key !in containers {
        return Some(NotFound);
      }
      if refused && containers[key].containerType != containerType {
        return Some(InvalidInput);
      }
      var saved := State();
      UpdateType(key, containerType);
      error := UpdateMode(key, mode);
      if error.Some? {
        receipts, containers := saved.receipts, saved.containers;
      }
    }

    method ReclassifyReceipt(id: int, containerType: string, refused: bool) returns (error: Option<Error>)
      modifies this
      ensures Reports(error, Reclassifying(old(State()), id, containerType, refused), State(), old(State()))
    {
      if id !in receipts {
        return Some(NotFound);
      }
      var r := receipts[id];
      if r.status == Deleted {
        return Some(InvalidInput);
      }
      if r.key.container == "" {
        receipts := receipts[id := r.(containerType := containerType)];
        return None;
      }
      if refused && r.containerType != containerType {
        return Some(InvalidInput);
      }
      UpdateType(r.key, containerType);
      error := None;
    }

    method CreateContainer(key: Key, wanted: Option<string>, mode: Mode, history: Option<string>, refused: bool)
      returns (error: Option<Error>)
      modifies this
      ensures Reports(error, Creating(old(State()), key, wanted, mode, history, refused), State(), old(State()))
    {
      if key.customer <= 0 || key.container == "" {
        return Some(InvalidInput);
      }
      if key !in containers {
        var inferred := if history.Some? then history.value else NORMAL;
        var chosen := if wanted.Some? then wanted.value else inferred;
        if refused && inferred != chosen {
          return Some(InvalidInput);
        }
        containers := containers[key := Container(chosen, mode)];
      }
      error := None;
    }

    method RemoveReceipt(id: int, unused: bool) returns (error: Option<Error>)
      modifies this
      ensures Reports(error, Removing(old(State()), id, unused), State(), old(State()))
    {
      if id !in receipts {
        return Some(NotFound);
      }
      var key := receipts[id].key;
      receipts := receipts - {id};
      if unused && key.container != "" && forall k :: k in receipts ==> receipts[k].key != key {
        containers := containers - {key};
      }
      error := None;
    }
  }

  // ----- what every operation keeps

  datatype Op =
    | Draw(id: int, receipt: Receipt)
    | Confirm(id: int)
    | Reclassify(id: int, containerType: string, refused: bool)
    | Update(key: Key, containerType: string, mode: Mode, refused: bool)
    | CreateRecord(key: Key, wanted: Option<string>, mode: Mode, history: Option<string>, refused: bool)
    | Touch(key: Key)
    | Remove(id: int, unused: bool)

  function Apply(db: Db, op: Op): Result<Db> {
    match op
    case Draw(id, receipt) => Drafting(db, id, receipt)
    case Confirm(id) => Confirming(db, id)
    case Reclassify(id, containerType, refused) => Reclassifying(db, id, containerType, refused)
    case Update(key, containerType, mode, refused) => Updating(db, key, containerType, mode, refused)
    case CreateRecord(key, wanted, mode, history, refused) => Creating(db, key, wanted, mode, history, refused)
    case Touch(key) => Ok(Touching(db, key))
    case Remove(id, unused) => Removing(db, id, unused)
  }

  lemma ConfirmingKeeps(db: Db, id: int)
    requires Consistent(db) && Confirming(db, id).Ok?
    ensures Consistent(Confirming(db, id).value)
  {
    var after, key := Confirming(db, id).value, db.receipts[id].key;
    forall k | k in after.receipts && after.receipts[k].status == Confirmed && after.receipts[k].key.container != ""
      ensures after.receipts[k].key in after.containers && after.containers[after.receipts[k].key] == Metadata(after.receipts[k])
    {
      if k != id && after.receipts[k].key == key {
        assert k in ConfirmedOf(db.receipts, key) - {id};
      }
    }
  }

  lemma RetypedKeeps(db: Db, key: Key, containerType: string)
    requires Consistent(db)
    ensures Consistent(Retyped(db, key, containerType))
  {
  }

  lemma UpdatingKeeps(db: Db, key: Key, containerType: string, mode: Mode, refused: bool)
    requires Consistent(db) && Updating(db, key, containerType, mode, refused).Ok?
    ensures Consistent(Updating(db, key, containerType, mode, refused).value)
  {
    RetypedKeeps(db, key, containerType);
  }

  lemma ApplyKeeps(db: Db, op: Op)
    requires Consistent(db) && Apply(db, op).Ok?
    ensures Consistent(Apply(db, op).value)
  {
    match op {
      case Confirm(id) => ConfirmingKeeps(db, id);
      case Reclassify(id, containerType, refused) => RetypedKeeps(db, db.receipts[id].key, containerType);
      case Update(key, containerType, mode, refused) => UpdatingKeeps(db, key, containerType, mode, refused);
      case _ =>
    }
  }

  ghost predicate IsRun(states: seq<Db>, ops: seq<Op>) {
    && |states| == |ops| + 1
    && forall i :: 0 <= i < |ops| ==>
         states[i + 1] == if Apply(states[i], ops[i]).Ok? then Apply(states[i], ops[i]).value else states[i]
  }

  /**
    In every reachable state the confirmed receipts of a container agree on its type and its
    handling mode, with each other and with the container's record.
   */
  lemma {:induction false} EveryStateIsConsistent(states: seq<Db>, ops: seq<Op>, i: nat)
    requires IsRun(states, ops) && Consistent(states[0]) && i < |states|
    ensures Consistent(states[i])
    ensures forall a, b :: a in states[i].receipts && b in states[i].receipts
                           && states[i].receipts[a].status == Confirmed == states[i].receipts[b].status
                           && states[i].receipts[a].key == states[i].receipts[b].key
                           && states[i].receipts[a].key.container != "" ==>
              Metadata(states[i].receipts[a]) == Metadata(states[i].receipts[b])
  {
    if i > 0 {
      EveryStateIsConsistent(states, ops, i - 1);
      if Apply(states[i - 1], ops[i - 1]).Ok? {
        ApplyKeeps(states[i - 1], ops[i - 1]);
      }
    }
  }

  // ----- what consistency decides

  /** A draft is confirmed exactly when it is not sealed and agrees with the record of a container already received. */
  lemma ConfirmingExactlyWhen(db: Db, id: int)
    requires Consistent(db) && id in db.receipts && db.receipts[id].status == Draft
    ensures var r := db.receipts[id];
            Confirming(db, id).Ok? <==>
              && r.mode == Palletized
              && (r.key.container != "" && ConfirmedOf(db.receipts, r.key) != {} ==>
                    r.key in db.containers && db.containers[r.key] == Metadata(r))
  {
    var r := db.receipts[id];
    var others := ConfirmedOf(db.receipts, r.key);
    assert others - {id} == others;
    if r.key.container != "" {
      forall k | k in others
        ensures r.key in db.containers && db.containers[r.key] == Metadata(db.receipts[k])
      {
      }
      if others != {} {
        var k :| k in others;
        assert Metadata(db.receipts[k]) == db.containers[r.key];
      }
    }
  }

  /** The mode of a container with a confirmed receipt cannot be changed; its type can, unless billed. */
  lemma UpdatingExactlyWhen(db: Db, key: Key, containerType: string, mode: Mode, refused: bool)
    requires Consistent(db) && 0 < key.customer && key.container != ""
    ensures Updating(db, key, containerType, mode, refused).Ok? <==>
              && key in db.containers
              && (refused ==> db.containers[key].containerType == containerType)
              && (ConfirmedOf(db.receipts, key) != {} ==> db.containers[key].mode == mode)
  {
    var retyped := Retyped(db, key, containerType).receipts;
    if key in db.containers {
      forall id | id in db.receipts
        ensures IsConfirmed(retyped, id, key) <==> id in ConfirmedOf(db.receipts, key)
        ensures IsConfirmed(retyped, id, key) ==> retyped[id].mode == db.containers[key].mode
      {
      }
      if ConfirmedOf(db.receipts, key) != {} {
        var id :| id in ConfirmedOf(db.receipts, key);
        assert IsConfirmed(retyped, id, key);
      }
    }
  }

  /** A record is never missing while a confirmed receipt remains, so a type is never inferred from history. */
  lemma NothingToInfer(db: Db, key: Key)
    requires Consistent(db) && key.container != "" && key !in db.containers
    ensures ConfirmedOf(db.receipts, key) == {}
  {
  }

  /** Confirming changes an existing record exactly when it brings other metadata as the first confirmed receipt. */
  lemma OnlyFirstReceiptRetypes(db: Db, id: int)
    requires Consistent(db) && id in db.receipts && db.receipts[id].key in db.containers
    requires db.receipts[id].key.container != ""
    ensures var r := db.receipts[id];
            (Confirming(db, id).Ok? && Confirming(db, id).value.containers[r.key] != db.containers[r.key]) <==>
              && r.status == Draft && r.mode == Palletized
              && ConfirmedOf(db.receipts, r.key) == {} && db.containers[r.key] != Metadata(r)
  {
    if db.receipts[id].status == Draft {
      ConfirmingExactlyWhen(db, id);
    }
  }

  const WEST_COAST := "WEST_COAST_TRANSFER"

  /** A record made by hand, and a first receipt of another type: confirming it changes the type. */
  lemma FirstReceiptRetypes()
    ensures var key := Key(7, "MSKU1");
            var db := Db(map[1 := Receipt(key, WEST_COAST, Palletized, Draft)], map[key := Container(NORMAL, Palletized)]);
            && Consistent(db) && Confirming(db, 1).Ok?
            && Confirming(db, 1).value.containers[key].containerType == WEST_COAST != db.containers[key].containerType
  {
    var key := Key(7, "MSKU1");
    var db := Db(map[1 := Receipt(key, WEST_COAST, Palletized, Draft)], map[key := Container(NORMAL, Palletized)]);
    assert WEST_COAST[0] != NORMAL[0];
    OnlyFirstReceiptRetypes(db, 1);
  }

  // ----- changes of type that billing is not asked about

  /** Where an operation asks billing about a change of type, the answer is no. */
  predicate BillingRefuses(op: Op) {
    (op.Reclassify? ==> op.refused) && (op.Update? ==> op.refused)
  }

  ghost predicate RetypesConfirmed(db: Db, after: Db) {
    exists k :: k in db.receipts && k in after.receipts
                && db.receipts[k].status == Confirmed && db.receipts[k].key.container != ""
                && after.receipts[k].containerType != db.receipts[k].containerType
  }

  /** The reclassified receipt is a draft that has the new type already, unlike a confirmed one of its container. */
  ghost predicate AsksTheDraft(db: Db, op: Op) {
    && op.Reclassify? && op.id in db.receipts
    && var r := db.receipts[op.id];
       && r.key.container != "" && r.status == Draft && r.containerType == op.containerType
       && exists k :: k in ConfirmedOf(db.receipts, r.key) && db.receipts[k].containerType != op.containerType
  }

  /**
    Although billing refuses it, an operation changes the type of a confirmed receipt, if and only
    if it reclassifies a draft that has the new type already: billing is asked about the type of
    the draft, which does not change, and not about those of the receipts that do.
   */
  lemma RetypesUnaskedExactlyWhen(db: Db, op: Op)
    requires Consistent(db) && BillingRefuses(op) && Apply(db, op).Ok?
    ensures RetypesConfirmed(db, Apply(db, op).value) <==> AsksTheDraft(db, op)
  {
    var after := Apply(db, op).value;
    if op.Reclassify? && db.receipts[op.id].key.container != "" {
      ReclassifyingRetypes(db, op.id, op.containerType);
    } else {
      forall k | k in db.receipts && k in after.receipts && db.receipts[k].status == Confirmed && db.receipts[k].key.container != ""
        ensures after.receipts[k].containerType == db.receipts[k].containerType
      {
      }
    }
  }

  lemma ReclassifyingRetypes(db: Db, id: int, containerType: string)
    requires Consistent(db) && Reclassifying(db, id, containerType, true).Ok? && db.receipts[id].key.container != ""
    ensures RetypesConfirmed(db, Reclassifying(db, id, containerType, true).value)
       <==> AsksTheDraft(db, Reclassify(id, containerType, true))
  {
    var after, key := Reclassifying(db, id, containerType, true).value, db.receipts[id].key;
    if AsksTheDraft(db, Reclassify(id, containerType, true)) {
      var k :| k in ConfirmedOf(db.receipts, key) && db.receipts[k].containerType != containerType;
      assert after.receipts[k].containerType != db.receipts[k].containerType;
    }
    if RetypesConfirmed(db, after) {
      var k :| && k in db.receipts && k in after.receipts
               && db.receipts[k].status == Confirmed && db.receipts[k].key.container != ""
               && after.receipts[k].containerType != db.receipts[k].containerType;
      assert k in ConfirmedOf(db.receipts, key);
    }
  }

  predicate ConfirmedAs(db: Db, id: int, containerType: string) {
    id in db.receipts && db.receipts[id].status == Confirmed && db.receipts[id].containerType == containerType
  }

  /** It happens: a receipt is confirmed, a draft for the same container has another type, and the draft is "reclassified". */
  lemma DraftRetypesConfirmed() returns (states: seq<Db>, ops: seq<Op>)
    ensures IsRun(states, ops) && states[0] == Db(map[], map[]) && forall i :: 0 <= i < |ops| ==> BillingRefuses(ops[i])
    ensures |ops| == 4 && ConfirmedAs(states[3], 1, NORMAL) && ConfirmedAs(states[4], 1, WEST_COAST) && WEST_COAST != NORMAL
  {
    var key := Key(7, "MSKU1");
    var first, second := Receipt(key, NORMAL, Palletized, Draft), Receipt(key, WEST_COAST, Palletized, Draft);
    ops := [Draw(1, first), Confirm(1), Draw(2, second), Reclassify(2, WEST_COAST, true)];
    var s1 := Db(map[1 := first], map[]);
    var s2 := Db(map[1 := first.(status := Confirmed)], map[key := Metadata(first)]);
    var s3 := Db(map[1 := first.(status := Confirmed), 2 := second], map[key := Metadata(first)]);
    assert ConfirmedOf(s1.receipts, key) - {1} == {};
    states := [Db(map[], map[]), s1, s2, s3, Retyped(s3, key, WEST_COAST)];
    assert WEST_COAST[0] != NORMAL[0];
  }

  // ----- what the other operations do

  /** What a change of type leaves as it is: everything but the types of the container's receipts. */
  predicate TypedAlike(before: Receipt, after: Receipt, key: Key, containerType: string) {
    if before.key == key && before.status != Deleted then after == before.(containerType := containerType) else after == before
  }

  /** A receipt takes its whole container to the new type, unless it is deleted or billing refuses. */
  lemma ReclassifyingExactlyWhen(db: Db, id: int, containerType: string, refused: bool)
    requires id in db.receipts && db.receipts[id].key.container != ""
    ensures var r := db.receipts[id];
            Reclassifying(db, id, containerType, refused).Ok? <==>
              r.status != Deleted && (refused ==> r.containerType == containerType)
    ensures Reclassifying(db, id, containerType, refused).Ok? ==>
              var after, key := Reclassifying(db, id, containerType, refused).value, db.receipts[id].key;
              && after.receipts.Keys == db.receipts.Keys && after.containers.Keys == db.containers.Keys
              && (forall k :: k in db.receipts ==> TypedAlike(db.receipts[k], after.receipts[k], key, containerType))
              && (forall k :: k in db.containers ==>
                    after.containers[k] == if k == key then db.containers[k].(containerType := containerType) else db.containers[k])
              && (Consistent(db) ==> Consistent(after))
  {
    if Consistent(db) && Reclassifying(db, id, containerType, refused).Ok? {
      RetypedKeeps(db, db.receipts[id].key, containerType);
    }
  }

  /** A record is made at most once; a new one is about a container that has no confirmed receipt. */
  lemma CreatingOnce(db: Db, key: Key, wanted: Option<string>, mode: Mode, history: Option<string>, refused: bool,
                     again: Option<string>, other: Mode, later: Option<string>, no: bool)
    requires Creating(db, key, wanted, mode, history, refused).Ok?
    ensures var after := Creating(db, key, wanted, mode, history, refused).value;
            && key in after.containers && after.receipts == db.receipts
            && (key in db.containers ==> after == db)
            && (key !in db.containers && Consistent(db) ==> ConfirmedOf(db.receipts, key) == {} && Consistent(after))
            && Creating(after, key, again, other, later, no) == Ok(after)
  {
    if key !in db.containers && Consistent(db) {
      NothingToInfer(db, key);
    }
  }

  /** A ledger row makes a record for a container that has none: a palletized one of the normal type. */
  lemma TouchingExactly(db: Db, key: Key)
    ensures var after := Touching(db, key);
            && after.receipts == db.receipts
            && (forall k :: k in db.containers ==> k in after.containers && after.containers[k] == db.containers[k])
            && (forall k :: k in after.containers ==> k in db.containers || k == key)
            && (key in after.containers <==> key in db.containers || key.container != "")
            && (key !in db.containers && key.container != "" ==> after.containers[key] == Container(NORMAL, Palletized))
  {
  }

  /** A draft is written as it is, under a free id or over another draft. */
  lemma DraftingExactly(db: Db, id: int, receipt: Receipt)
    ensures Drafting(db, id, receipt).Err? <==> id in db.receipts && db.receipts[id].status != Draft
    ensures Drafting(db, id, receipt).Ok? ==>
              var after := Drafting(db, id, receipt).value;
              && after.containers == db.containers && id in after.receipts
              && after.receipts == db.receipts[id := after.receipts[id]]
              && after.receipts[id].key == receipt.key && Metadata(after.receipts[id]) == Metadata(receipt)
              && after.receipts[id].status == Draft
  {
  }

  /** The receipt goes, and the container's record exactly with its last receipt, if nothing else refers to it. */
  lemma RemovingExactlyWhen(db: Db, id: int, unused: bool)
    requires id in db.receipts
    ensures Removing(db, id, unused).Ok?
    ensures var after, key := Removing(db, id, unused).value, db.receipts[id].key;
            && after.receipts == db.receipts - {id}
            && (forall k :: k in db.containers && k !in after.containers <==>
                  k in db.containers && k == key && unused && key.container != ""
                  && forall i :: i in db.receipts && db.receipts[i].key == key ==> i == id)
            && (forall k :: k in after.containers ==> k in db.containers && after.containers[k] == db.containers[k])
            && (Consistent(db) ==> Consistent(after))
  {
    var key, receipts := db.receipts[id].key, db.receipts - {id};
    if i :| i in db.receipts && i != id && db.receipts[i].key == key {
      assert i in receipts && receipts[i].key == key;
    }
  }
}
