/**
  What an invoice bills, point by point: a customer's stock at a warehouse, in containers of a
  type, on a day. No point is billed twice, and what the freeze protects is what is billed.
 */
module InvoicePoints {
  import opened Wrappers
  import opened InvoiceLifecycle
  import Freeze = SourceFreeze

  /** The invoice with this scope bills the customer's stock of that place and type on that day. */
  predicate Bills(scope: Scope, customer: int, warehouse: int, containerType: string, day: int) {
    && scope.customer == customer
    && (scope.warehouse.None? || scope.warehouse.value == warehouse)
    && (scope.containerType.None? || scope.containerType.value == containerType)
    && scope.start <= day <= scope.end
  }

  /** Some point is billed under both scopes. */
  ghost predicate BillTogether(a: Scope, b: Scope) {
    exists customer, warehouse, containerType, day ::
      Bills(a, customer, warehouse, containerType, day) && Bills(b, customer, warehouse, containerType, day)
  }

  function Chosen<T>(a: Option<T>, b: Option<T>, otherwise: T): T {
    if a.Some? then a.value else if b.Some? then b.value else otherwise
  }

  /** Two scopes that are not empty overlap exactly when they bill a point together. */
  lemma OverlapsExactly(a: Scope, b: Scope)
    ensures BillTogether(a, b) ==> Overlaps(a, b)
    ensures a.start <= a.end && b.start <= b.end && Overlaps(a, b) ==> BillTogether(a, b)
  {
    if a.start <= a.end && b.start <= b.end && Overlaps(a, b) {
      var warehouse, containerType := Chosen(a.warehouse, b.warehouse, 0), Chosen(a.containerType, b.containerType, "");
      var day := if a.start < b.start then b.start else a.start;
      assert Bills(a, a.customer, warehouse, containerType, day) && Bills(b, a.customer, warehouse, containerType, day);
    }
  }

  // ----- no point is billed twice

  ghost predicate BilledOnce(invoices: map<int, Invoice>) {
    forall i, j, customer, warehouse, containerType, day ::
      && Live(invoices, i) && Live(invoices, j)
      && Bills(invoices[i].scope, customer, warehouse, containerType, day)
      && Bills(invoices[j].scope, customer, warehouse, containerType, day) ==>
        i == j
  }

  /** Every live invoice has a day. */
  ghost predicate Dated(invoices: map<int, Invoice>) {
    forall i :: Live(invoices, i) ==> invoices[i].scope.start <= invoices[i].scope.end
  }

  lemma DisjointIsBilledOnce(invoices: map<int, Invoice>)
    ensures Disjoint(invoices) ==> BilledOnce(invoices)
    ensures Dated(invoices) && BilledOnce(invoices) ==> Disjoint(invoices)
  {
    forall i, j | i != j && Live(invoices, i) && Live(invoices, j)
      ensures BillTogether(invoices[i].scope, invoices[j].scope) ==> Overlaps(invoices[i].scope, invoices[j].scope)
      ensures Dated(invoices) && Overlaps(invoices[i].scope, invoices[j].scope) ==>
                BillTogether(invoices[i].scope, invoices[j].scope)
    {
      OverlapsExactly(invoices[i].scope, invoices[j].scope);
    }
    if Disjoint(invoices) {
      forall i, j, customer, warehouse, containerType, day |
        && Live(invoices, i) && Live(invoices, j)
        && Bills(invoices[i].scope, customer, warehouse, containerType, day)
        && Bills(invoices[j].scope, customer, warehouse, containerType, day)
        ensures i == j
      {
        assert BillTogether(invoices[i].scope, invoices[j].scope);
      }
    }
    if Dated(invoices) && BilledOnce(invoices) {
      forall i, j | i != j && Live(invoices, i) && Live(invoices, j)
        ensures !Overlaps(invoices[i].scope, invoices[j].scope)
      {
        assert !BillTogether(invoices[i].scope, invoices[j].scope);
      }
    }
  }

  lemma ApplyKeepsDated(book: Book, op: Op)
    requires Dated(book.invoices) && Apply(book, op).Ok?
    ensures Dated(Apply(book, op).value.invoices)
  {
    if !op.Create? {
      WriteScopes(book, op, Seen(book, op));
    }
  }

  /** In every state that operations without interference reach, every point is billed by one live invoice at most. */
  lemma {:induction false} EveryPointOnce(books: seq<Book>, ops: seq<Op>, i: nat)
    requires IsRun(books, ops) && Inv(books[0]) && Dated(books[0].invoices) && i < |books|
    ensures BilledOnce(books[i].invoices) && Dated(books[i].invoices)
  {
    if i > 0 {
      EveryPointOnce(books, ops, i - 1);
      if Apply(books[i - 1], ops[i - 1]).Ok? {
        ApplyKeepsDated(books[i - 1], ops[i - 1]);
      }
    }
    EveryStateKeeps(books, ops, i, i);
    DisjointIsBilledOnce(books[i].invoices);
  }

  /** The invoice of this scope would bill what a live invoice bills already. */
  ghost predicate BillsAgain(invoices: map<int, Invoice>, scope: Scope) {
    exists j :: Live(invoices, j) && BillTogether(scope, invoices[j].scope)
  }

  /** A well-formed creation is refused exactly when it would bill something that is billed already. */
  lemma CreationExactlyWhen(book: Book, scope: Scope, inputs: seq<LineInput>)
    requires Dated(book.invoices) && 0 < scope.customer && scope.start <= scope.end
    requires scope.warehouse.Some? ==> 0 < scope.warehouse.value
    ensures Apply(book, Create(scope, inputs)).Err? <==> BillsAgain(book.invoices, scope)
  {
    forall j | Live(book.invoices, j)
      ensures Overlaps(book.invoices[j].scope, scope) <==> BillTogether(scope, book.invoices[j].scope)
    {
      OverlapsExactly(scope, book.invoices[j].scope);
      OverlapsBothWays(scope, book.invoices[j].scope);
    }
  }

  // ----- and what is billed is frozen

  /** The invoice as the freeze reads it. */
  ghost predicate Reads(frozen: Freeze.Invoice, invoice: Invoice) {
    && frozen.customer == invoice.scope.customer && frozen.warehouse == invoice.scope.warehouse
    && frozen.containerType == invoice.scope.containerType && frozen.periodEnd == invoice.scope.end
    && (frozen.void <==> invoice.status == Void)
    && forall c :: c in frozen.lineContainers <==> c in ContainersOf(invoice.lines)
  }

  /**
    A change at one place, in a container of known type, is blocked by a live invoice exactly when
    the invoice bills that place or, on a line, that container, for that type, on the day of the
    change or a later one.
   */
  lemma BlocksExactlyWhen(frozen: Freeze.Invoice, invoice: Invoice, customer: int, day: int, location: int,
                          container: string, containerType: string)
    requires Reads(frozen, invoice) && invoice.scope.start <= invoice.scope.end
    requires 0 < location && containerType != ""
    ensures Freeze.Blocks(frozen, Freeze.Mutation(customer, day, {location}, container, containerType)) <==>
              && invoice.status != Void
              && exists later, place :: day <= later && Bills(invoice.scope, customer, place, containerType, later)
                   && (place == location || (container != "" && exists k :: 0 <= k < |invoice.lines| && invoice.lines[k].container == container))
  {
    var m := Freeze.Mutation(customer, day, {location}, container, containerType);
    assert location in Freeze.Places(m);
    var place := if invoice.scope.warehouse.Some? then invoice.scope.warehouse.value else location;
    if Freeze.Blocks(frozen, m) {
      assert Bills(invoice.scope, customer, place, containerType, invoice.scope.end);
      assert container in frozen.lineContainers ==> container in ContainersOf(invoice.lines);
    }
  }

  /** A change at several places is blocked when it would be at one of them; a place without a number is none. */
  lemma AnyPlaceBlocks(frozen: Freeze.Invoice, m: Freeze.Mutation)
    requires exists l :: l in m.locations && 0 < l
    ensures Freeze.Blocks(frozen, m) <==> exists l :: l in m.locations && 0 < l && Freeze.Blocks(frozen, m.(locations := {l}))
  {
    forall l | 0 < l
      ensures Freeze.Places(m.(locations := {l})) == {l}
    {
    }
    if Freeze.Blocks(frozen, m) {
      var some :| some in m.locations && 0 < some;
      var l := if frozen.warehouse.Some? && frozen.warehouse.value in Freeze.Places(m) then frozen.warehouse.value else some;
      assert Freeze.Blocks(frozen, m.(locations := {l}));
    }
  }

  /** A change in a container of unknown type is blocked when it would be for some type. */
  lemma AnyTypeBlocks(frozen: Freeze.Invoice, m: Freeze.Mutation)
    requires m.containerType == "" && (frozen.containerType.Some? ==> frozen.containerType.value != "")
    ensures Freeze.Blocks(frozen, m) <==> exists t: string :: t != "" && Freeze.Blocks(frozen, m.(containerType := t))
  {
    var t := if frozen.containerType.Some? then frozen.containerType.value else "A";
    assert Freeze.Places(m.(containerType := t)) == Freeze.Places(m);
    if Freeze.Blocks(frozen, m) {
      assert Freeze.Blocks(frozen, m.(containerType := t));
    }
    if u: string :| u != "" && Freeze.Blocks(frozen, m.(containerType := u)) {
      assert Freeze.Places(m.(containerType := u)) == Freeze.Places(m);
    }
  }

  /** A change without a place is blocked by the lines alone when it names a container, and else as at any place. */
  lemma UnplacedBlocks(frozen: Freeze.Invoice, m: Freeze.Mutation, location: int)
    requires (forall l :: l in m.locations ==> l <= 0) && 0 < location
    ensures m.container != "" ==>
              (Freeze.Blocks(frozen, m) <==> Freeze.Blocks(frozen.(warehouse := Some(0)), m.(locations := {location})))
    ensures m.container == "" ==>
              (Freeze.Blocks(frozen, m) <==> Freeze.Blocks(frozen.(warehouse := None), m.(locations := {location})))
  {
    assert Freeze.Places(m) == {} && location in Freeze.Places(m.(locations := {location}));
  }
}
