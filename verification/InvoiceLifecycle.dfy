/**
  Billing invoices from draft to paid or void. An edit or a status change first reads the
  invoice and checks it, and then writes in a transaction of its own; only the creation of an
  invoice checks and writes under the customer's lock. Amounts are in cents.
 */
module InvoiceLifecycle {
  import opened Wrappers

  datatype Status = Draft | Finalized | Paid | Void

  const STORAGE := "STORAGE"
  const DISCOUNT := "DISCOUNT"

  /** What a calculated storage line carries: the movement is closing plus released minus opening pallets. */
  datatype Details = Details(movement: int, gross: int, discount: int)

  datatype Line = Line(id: int, charge: string, container: string, amount: int, sort: int, automatic: bool,
                       details: Option<Details>)

  /** A missing warehouse or container type means all of them. */
  datatype Scope = Scope(customer: int, warehouse: Option<int>, containerType: Option<string>, start: int, end: int)

  datatype Invoice = Invoice(scope: Scope, status: Status, lines: seq<Line>, subtotal: int, discount: int, grand: int,
                             notes: string)

  datatype Book = Book(invoices: map<int, Invoice>, nextInvoice: int, nextLine: int)

  predicate Meets<T(==)>(a: Option<T>, b: Option<T>) {
    a.None? || b.None? || a.value == b.value
  }

  predicate Overlaps(a: Scope, b: Scope) {
    && a.customer == b.customer && Meets(a.warehouse, b.warehouse) && Meets(a.containerType, b.containerType)
    && a.start <= b.end && b.start <= a.end
  }

  predicate Live(invoices: map<int, Invoice>, id: int) {
    id in invoices && invoices[id].status != Void
  }

  /** No two live invoices bill the same thing. */
  ghost predicate Disjoint(invoices: map<int, Invoice>) {
    forall i, j :: i != j && Live(invoices, i) && Live(invoices, j) ==> !Overlaps(invoices[i].scope, invoices[j].scope)
  }

  predicate Taken(invoices: map<int, Invoice>, scope: Scope) {
    exists id :: id in invoices && invoices[id].status != Void && Overlaps(invoices[id].scope, scope)
  }

  // ----- totals

  function SumOf(lines: seq<Line>, discounts: bool): int {
    if lines == [] then 0
    else
      var line := lines[|lines| - 1];
      SumOf(lines[..|lines| - 1], discounts) + if (line.charge == DISCOUNT) == discounts then line.amount else 0
  }

  predicate TotalsMatch(invoice: Invoice) {
    && invoice.subtotal == SumOf(invoice.lines, false)
    && invoice.discount == SumOf(invoice.lines, true)
    && invoice.grand == invoice.subtotal + invoice.discount
  }

  ghost predicate AllTotalsMatch(invoices: map<int, Invoice>) {
    forall id :: id in invoices ==> TotalsMatch(invoices[id])
  }

  function Recalculated(invoice: Invoice): Invoice {
    var subtotal, discount := SumOf(invoice.lines, false), SumOf(invoice.lines, true);
    invoice.(subtotal := subtotal, discount := discount, grand := subtotal + discount)
  }

  // ----- the guard on finalization

  predicate Tells(line: Line, container: string) {
    line.charge == STORAGE && line.details.Some? && line.container == container
  }

  /** A later line about the same container replaces an earlier one. */
  function LastMovement(lines: seq<Line>, container: string): Option<int> {
    if lines == [] then None
    else if Tells(lines[|lines| - 1], container) then Some(lines[|lines| - 1].details.value.movement)
    else LastMovement(lines[..|lines| - 1], container)
  }

  function ContainersOf(lines: seq<Line>): set<string> {
    set i | 0 <= i < |lines| :: lines[i].container
  }

  function Unreconciled(lines: seq<Line>): set<string> {
    set c | c in ContainersOf(lines) && c != "" && LastMovement(lines, c).Some? && LastMovement(lines, c).value < 0
  }

  // ----- operations

  datatype LineInput = LineInput(charge: string, container: string, amount: int, details: Option<Details>)

  datatype Op =
    | Create(scope: Scope, inputs: seq<LineInput>)
    | EditNotes(id: int, notes: string)
    | AddLine(id: int, input: LineInput)
    | UpdateLine(id: int, line: int, input: LineInput)
    | DeleteLine(id: int, line: int)
    | Finalize(id: int)
    | MarkPaid(id: int)
    | VoidInvoice(id: int)
    | DeleteInvoice(id: int)

  predicate HasLine(lines: seq<Line>, line: int) {
    exists i :: 0 <= i < |lines| && lines[i].id == line
  }

  /** The status that the operation insists on when it reads the invoice. */
  predicate Accepts(op: Op, status: Status) {
    match op
    case Create(_, _) => true
    case MarkPaid(_) => status == Finalized
    case VoidInvoice(_) => status != Void
    case _ => status == Draft
  }

  /** What is checked on the invoice as it was read. */
  function Check(book: Book, op: Op): Option<Error> {
    match op
    case Create(scope, _) =>
      if scope.customer <= 0 || (scope.warehouse.Some? && scope.warehouse.value <= 0) || scope.end < scope.start
      then Some(InvalidInput) else None
    case _ =>
      if op.id !in book.invoices then Some(NotFound)
      else if !Accepts(op, book.invoices[op.id].status) then Some(InvalidInput)
      else CheckMore(book.invoices[op.id], op)
  }

  function CheckMore(invoice: Invoice, op: Op): Option<Error> {
    match op
    case AddLine(_, input) => if input.charge == "" then Some(InvalidInput) else None
    case UpdateLine(_, line, input) =>
      if !HasLine(invoice.lines, line) then Some(NotFound) else if input.charge == "" then Some(InvalidInput) else None
    case Finalize(_) => if Unreconciled(invoice.lines) != {} then Some(InvalidInput) else None
    case _ => None
  }

  function MaxSort(lines: seq<Line>): nat {
    if lines == [] then 0
    else
      var before, sort := MaxSort(lines[..|lines| - 1]), lines[|lines| - 1].sort;
      if before < sort then sort else before
  }

  function Drawn(inputs: seq<LineInput>, nextLine: int): seq<Line> {
    if inputs == [] then []
    else
      var n := |inputs| - 1;
      Drawn(inputs[..n], nextLine)
      + [Line(nextLine + n, inputs[n].charge, inputs[n].container, inputs[n].amount, n + 1, true, inputs[n].details)]
  }

  /** A manual line carries no calculation details. */
  function Manual(id: int, input: LineInput, sort: int): Line {
    Line(id, input.charge, input.container, input.amount, sort, false, None)
  }

  function Replaced(lines: seq<Line>, line: int, input: LineInput): seq<Line> {
    if lines == [] then []
    else
      var last := lines[|lines| - 1];
      Replaced(lines[..|lines| - 1], line, input) + [if last.id == line then Manual(line, input, last.sort) else last]
  }

  function Dropped(lines: seq<Line>, line: int): seq<Line> {
    if lines == [] then []
    else Dropped(lines[..|lines| - 1], line) + if lines[|lines| - 1].id == line then [] else [lines[|lines| - 1]]
  }

  function WithLines(book: Book, id: int, lines: seq<Line>): Book
    requires id in book.invoices
  {
    book.(invoices := book.invoices[id := Recalculated(book.invoices[id].(lines := lines))])
  }

  function WithStatus(book: Book, id: int, status: Status): Book {
    if id in book.invoices then book.(invoices := book.invoices[id := book.invoices[id].(status := status)]) else book
  }

  /**
    What the operation writes, on the table as it is by then. The writes name the invoice by its
    id alone and do not look at its status again; seen is the invoice as it was read.
   */
  function Write(book: Book, op: Op, seen: Invoice): Result<Book> {
    match op
    case Create(scope, inputs) =>
      if Taken(book.invoices, scope) then Err(InvalidInput)
      else
        var invoice := Recalculated(Invoice(scope, Draft, Drawn(inputs, book.nextLine), 0, 0, 0, ""));
        Ok(Book(book.invoices[book.nextInvoice := invoice], book.nextInvoice + 1, book.nextLine + |inputs|))
    case EditNotes(id, notes) =>
      Ok(if id in book.invoices then book.(invoices := book.invoices[id := book.invoices[id].(notes := notes)]) else book)
    case AddLine(id, input) =>
      if id !in book.invoices then Err(ConstraintViolation)
      else
        var line := Manual(book.nextLine, input, MaxSort(seen.lines) + 1);
        Ok(WithLines(book, id, book.invoices[id].lines + [line]).(nextLine := book.nextLine + 1))
    case UpdateLine(id, line, input) =>
      Ok(if id in book.invoices then WithLines(book, id, Replaced(book.invoices[id].lines, line, input)) else book)
    case DeleteLine(id, line) =>
      if id !in book.invoices || !HasLine(book.invoices[id].lines, line) then Err(NotFound)
      else Ok(WithLines(book, id, Dropped(book.invoices[id].lines, line)))
    case Finalize(id) => Ok(WithStatus(book, id, Finalized))
    case MarkPaid(id) => Ok(WithStatus(book, id, Paid))
    case VoidInvoice(id) => Ok(WithStatus(book, id, Void))
    case DeleteInvoice(id) => Ok(book.(invoices := book.invoices - {id}))
  }

  const NOTHING := Invoice(Scope(0, None, None, 0, 0), Draft, [], 0, 0, 0, "")

  function Seen(book: Book, op: Op): Invoice {
    if op.Create? || op.id !in book.invoices then NOTHING else book.invoices[op.id]
  }

  /** Reading, checking and writing with nothing in between. */
  function Apply(book: Book, op: Op): Result<Book> {
    var error := Check(book, op);
    if error.Some? then Err(error.value) else Write(book, op, Seen(book, op))
  }

  // ----- the store

  method SumLines(lines: seq<Line>) returns (subtotal: int, discount: int)
    ensures subtotal == SumOf(lines, false) && discount == SumOf(lines, true)
  {
    subtotal, discount := 0, 0;
    for i := 0 to |lines|
      invariant subtotal == SumOf(lines[..i], false) && discount == SumOf(lines[..i], true)
    {
      assert lines[..i + 1][..i] == lines[..i];
      if lines[i].charge == DISCOUNT {
        discount := discount + lines[i].amount;
      } else {
        subtotal := subtotal + lines[i].amount;
      }
    }
    assert lines[..|lines|] == lines;
  }

  method LargestSort(lines: seq<Line>) returns (sort: nat)
    ensures sort == MaxSort(lines)
  {
    sort := 0;
    for i := 0 to |lines|
      invariant sort == MaxSort(lines[..i])
    {
      assert lines[..i + 1][..i] == lines[..i];
      if sort < lines[i].sort {
        sort := lines[i].sort;
      }
    }
    assert lines[..|lines|] == lines;
  }

  /** Remembers the last movement told about every container. */
  method CollectMovements(lines: seq<Line>) returns (movements: map<string, int>)
    ensures forall c :: c in movements <==> c != "" && LastMovement(lines, c).Some?
    ensures forall c :: c in movements ==> movements[c] == LastMovement(lines, c).value
  {
    movements := map[];
    for i := 0 to |lines|
      invariant forall c :: c in movements <==> c != "" && LastMovement(lines[..i], c).Some?
      invariant forall c :: c in movements ==> movements[c] == LastMovement(lines[..i], c).value
    {
      assert lines[..i + 1][..i] == lines[..i];
      if lines[i].charge == STORAGE && lines[i].details.Some? && lines[i].container != "" {
        movements := movements[lines[i].container := lines[i].details.value.movement];
      }
    }
    assert lines[..|lines|] == lines;
  }

  lemma {:induction false} ToldContainers(lines: seq<Line>, c: string)
    requires LastMovement(lines, c).Some?
    ensures c in ContainersOf(lines)
  {
    var n := |lines| - 1;
    if Tells(lines[n], c) {
      assert lines[n].container == c;
    } else {
      ToldContainers(lines[..n], c);
      var i :| 0 <= i < n && lines[..n][i].container == c;
      assert lines[i].container == c;
    }
  }

  method UnreconciledContainers(lines: seq<Line>) returns (containers: set<string>)
    ensures containers == Unreconciled(lines)
  {
    var movements := CollectMovements(lines);
    containers := set c | c in movements && movements[c] < 0;
    forall c | c in movements
      ensures c in ContainersOf(lines)
    {
      ToldContainers(lines, c);
    }
  }

  class Store {
    var invoices: map<int, Invoice>
    var nextInvoice: int
    var nextLine: int

    constructor ()
      ensures Inv(State()) && invoices == map[]
    {
      invoices, nextInvoice, nextLine := map[], 1, 1;
    }

    function State(): Book
      reads this
    {
      Book(invoices, nextInvoice, nextLine)
    }

    method RecalculateTotals(id: int)
      requires id in invoices
      modifies `invoices
      ensures invoices == old(invoices)[id := Recalculated(old(invoices)[id])]
    {
      var subtotal, discount := SumLines(invoices[id].lines);
      invoices := invoices[id := invoices[id].(subtotal := subtotal, discount := discount, grand := subtotal + discount)];
    }

    method CreateInvoice(scope: Scope, inputs: seq<LineInput>) returns (error: Option<Error>)
      modifies this
      ensures Reports(error, Apply(old(State()), Create(scope, inputs)), State(), old(State()))
    {
      if scope.customer <= 0 || (scope.warehouse.Some? && scope.warehouse.value <= 0) || scope.end < scope.start {
        return Some(InvalidInput);
      }
      if Taken(invoices, scope) {
        return Some(InvalidInput);
      }
      var id, lines := nextInvoice, [];
      for i := 0 to |inputs|
        invariant lines == Drawn(inputs[..i], old(nextLine)) && nextLine == old(nextLine) + i
        invariant invoices == old(invoices) && nextInvoice == old(nextInvoice)
      {
        assert inputs[..i + 1][..i] == inputs[..i];
        lines := lines + [Line(nextLine, inputs[i].charge, inputs[i].container, inputs[i].amount, i + 1, true, inputs[i].details)];
        nextLine := nextLine + 1;
      }
      assert inputs[..|inputs|] == inputs;
      invoices, nextInvoice := invoices[id := Invoice(scope, Draft, lines, 0, 0, 0, "")], id + 1;
      RecalculateTotals(id);
      error := None;
    }

    method UpdateNotes(id: int, notes: string) returns (error: Option<Error>)
      modifies this
      ensures Reports(error, Apply(old(State()), EditNotes(id, notes)), State(), old(State()))
    {
      if id !in invoices {
        return Some(NotFound);
      }
      if invoices[id].status != Draft {
        return Some(InvalidInput);
      }
      invoices := invoices[id := invoices[id].(notes := notes)];
      error := None;
    }

    method AddInvoiceLine(id: int, input: LineInput) returns (error: Option<Error>)
      modifies this
      ensures Reports(error, Apply(old(State()), AddLine(id, input)), State(), old(State()))
    {
      if id !in invoices {
        return Some(NotFound);
      }
      if invoices[id].status != Draft || input.charge == "" {
        return Some(InvalidInput);
      }
      var sort := LargestSort(invoices[id].lines);
      var line := Line(nextLine, input.charge, input.container, input.amount, sort + 1, false, None);
      var lines := invoices[id].lines + [line];
      invoices, nextLine := invoices[id := invoices[id].(lines := lines)], nextLine + 1;
      RecalculateTotals(id);
      assert State() == WithLines(old(State()), id, lines).(nextLine := old(nextLine) + 1);
      error := None;
    }

    method UpdateInvoiceLine(id: int, line: int, input: LineInput) returns (error: Option<Error>)
      modifies this
      ensures Reports(error, Apply(old(State()), UpdateLine(id, line, input)), State(), old(State()))
    {
      if id !in invoices {
        return Some(NotFound);
      }
      if invoices[id].status != Draft {
        return Some(InvalidInput);
      }
      var was, found, lines := invoices[id].lines, false, [];
      for i := 0 to |was|
        invariant lines == Replaced(was[..i], line, input) && (found <==> HasLine(was[..i], line))
      {
        assert was[..i + 1][..i] == was[..i] && was[..i + 1][i] == was[i];
        assert HasLine(was[..i + 1], line) <==> HasLine(was[..i], line) || was[i].id == line;
        found := found || was[i].id == line;
        lines := lines + [if was[i].id == line then Manual(line, input, was[i].sort) else was[i]];
      }
      assert was[..|was|] == was;
      if !found {
        return Some(NotFound);
      }
      if input.charge == "" {
        return Some(InvalidInput);
      }
      invoices := invoices[id := invoices[id].(lines := lines)];
      RecalculateTotals(id);
      error := None;
    }

    method DeleteInvoiceLine(id: int, line: int) returns (error: Option<Error>)
      modifies this
      ensures Reports(error, Apply(old(State()), DeleteLine(id, line)), State(), old(State()))
    {
      if id !in invoices {
        return Some(NotFound);
      }
      if invoices[id].status != Draft {
        return Some(InvalidInput);
      }
      var was, found, lines := invoices[id].lines, false, [];
      for i := 0 to |was|
        invariant lines == Dropped(was[..i], line) && (found <==> HasLine(was[..i], line))
      {
        assert was[..i + 1][..i] == was[..i] && was[..i + 1][i] == was[i];
        assert HasLine(was[..i + 1], line) <==> HasLine(was[..i], line) || was[i].id == line;
        assert lines + [] == lines;
        found := found || was[i].id == line;
        lines := if was[i].id == line then lines else lines + [was[i]];
      }
      assert was[..|was|] == was;
      if !found {
        return Some(NotFound);
      }
      invoices := invoices[id := invoices[id].(lines := lines)];
      RecalculateTotals(id);
      error := None;
    }

    method FinalizeInvoice(id: int) returns (error: Option<Error>)
      modifies this
      ensures Reports(error, Apply(old(State()), Finalize(id)), State(), old(State()))
    {
      if id !in invoices {
        return Some(NotFound);
      }
      if invoices[id].status != Draft {
        return Some(InvalidInput);
      }
      var containers := UnreconciledContainers(invoices[id].lines);
      if containers != {} {
        return Some(InvalidInput);
      }
      invoices := invoices[id := invoices[id].(status := Finalized)];
      error := None;
    }

    method MarkInvoicePaid(id: int) returns (error: Option<Error>)
      modifies this
      ensures Reports(error, Apply(old(State()), MarkPaid(id)), State(), old(State()))
    {
      if id !in invoices {
        return Some(NotFound);
      }
      if invoices[id].status != Finalized {
        return Some(InvalidInput);
      }
      invoices := invoices[id := invoices[id].(status := Paid)];
      error := None;
    }

    method Void(id: int) returns (error: Option<Error>)
      modifies this
      ensures Reports(error, Apply(old(State()), VoidInvoice(id)), State(), old(State()))
    {
      if id !in invoices {
        return Some(NotFound);
      }
      if invoices[id].status == Status.Void {
        return Some(InvalidInput);
      }
      invoices := invoices[id := invoices[id].(status := Status.Void)];
      error := None;
    }

    method Delete(id: int) returns (error: Option<Error>)
      modifies this
      ensures Reports(error, Apply(old(State()), DeleteInvoice(id)), State(), old(State()))
    {
      if id !in invoices {
        return Some(NotFound);
      }
      if invoices[id].status != Draft {
        return Some(InvalidInput);
      }
      invoices := invoices - {id};
      error := None;
    }
  }

  // ----- what one write keeps

  ghost predicate Inv(book: Book) {
    && Disjoint(book.invoices) && AllTotalsMatch(book.invoices)
    && forall id :: id in book.invoices ==> id < book.nextInvoice
  }

  /** An invoice that is no longer a draft keeps everything but its status, and never becomes a draft again. */
  ghost predicate Settled(before: Book, after: Book) {
    forall id :: id in before.invoices && before.invoices[id].status != Draft ==> StaysSettled(before, after, id)
  }

  predicate StaysSettled(before: Book, after: Book, id: int)
    requires id in before.invoices
  {
    && id in after.invoices
    && after.invoices[id] == before.invoices[id].(status := after.invoices[id].status)
    && Onward(before.invoices[id].status, after.invoices[id].status)
  }

  predicate Onward(before: Status, after: Status) {
    match before
    case Draft => true
    case Finalized => after != Draft
    case Paid => after == Paid || after == Void
    case Void => after == Void
  }

  function Target(op: Op, before: Status): Status {
    match op
    case Finalize(_) => Finalized
    case MarkPaid(_) => Paid
    case VoidInvoice(_) => Void
    case _ => before
  }

  /** No write of any operation on any table leaves a total that does not match. */
  lemma WritesKeepTotals(book: Book, op: Op, seen: Invoice)
    requires AllTotalsMatch(book.invoices) && Write(book, op, seen).Ok?
    ensures AllTotalsMatch(Write(book, op, seen).value.invoices)
  {
  }

  /** A write turns a void invoice that something live has replaced into a live one. */
  predicate Revives(book: Book, op: Op) {
    && (op.Finalize? || op.MarkPaid?) && op.id in book.invoices && book.invoices[op.id].status == Void
    && exists j :: j in book.invoices && j != op.id && book.invoices[j].status != Void
                   && Overlaps(book.invoices[op.id].scope, book.invoices[j].scope)
  }

  lemma OverlapsBothWays(a: Scope, b: Scope)
    ensures Overlaps(a, b) <==> Overlaps(b, a)
  {
  }

  predicate SameScopes(was: map<int, Invoice>, now: map<int, Invoice>, except: int) {
    forall id :: id in now && id != except ==> id in was && now[id].scope == was[id].scope && now[id].status == was[id].status
  }

  lemma DisjointAfter(was: map<int, Invoice>, now: map<int, Invoice>, id: int)
    requires Disjoint(was) && SameScopes(was, now, id)
    requires forall j :: Live(now, id) && Live(was, j) && j != id ==> !Overlaps(now[id].scope, was[j].scope)
    ensures Disjoint(now)
  {
    forall i, j | i != j && Live(now, i) && Live(now, j)
      ensures !Overlaps(now[i].scope, now[j].scope)
    {
      OverlapsBothWays(now[i].scope, now[j].scope);
      assert i != id ==> Live(was, i);
      assert j != id ==> Live(was, j);
    }
  }

  /** Apart from a creation, a write touches one invoice at most, and neither its scope nor a status it was not told. */
  lemma WriteScopes(book: Book, op: Op, seen: Invoice)
    requires !op.Create? && Write(book, op, seen).Ok?
    ensures var was, now := book.invoices, Write(book, op, seen).value.invoices;
            && SameScopes(was, now, op.id) && now.Keys <= was.Keys
            && (op.id in was && !op.DeleteInvoice? ==> op.id in now)
            && (op.id in now ==> now[op.id].scope == was[op.id].scope && now[op.id].status == Target(op, was[op.id].status))
            && (forall j :: j in was && j != op.id ==> j in now)
            && Write(book, op, seen).value.nextInvoice == book.nextInvoice
  {
  }

  lemma RevivalOverlaps(was: map<int, Invoice>, now: map<int, Invoice>, id: int, j: int)
    requires id in now && now[id].status != Void && j != id && j in was && j in now && was[j].status != Void
    requires id in was && now[id].scope == was[id].scope && SameScopes(was, now, id)
    requires Overlaps(was[id].scope, was[j].scope)
    ensures !Disjoint(now)
  {
    assert Live(now, id) && Live(now, j) && Overlaps(now[id].scope, now[j].scope);
  }

  lemma CreationIsDisjoint(book: Book, op: Op, seen: Invoice)
    requires op.Create? && Inv(book) && Write(book, op, seen).Ok?
    ensures Disjoint(Write(book, op, seen).value.invoices)
    ensures forall id :: id in Write(book, op, seen).value.invoices ==> id < book.nextInvoice + 1
  {
    var was, now := book.invoices, Write(book, op, seen).value.invoices;
    forall j | Live(was, j)
      ensures !Overlaps(op.scope, was[j].scope)
    {
      OverlapsBothWays(op.scope, was[j].scope);
    }
    DisjointAfter(was, now, book.nextInvoice);
  }

  /** However stale the check, a write keeps the live invoices disjoint if and only if it revives nothing. */
  lemma DisjointExactlyWhen(book: Book, op: Op, seen: Invoice)
    requires Inv(book) && Write(book, op, seen).Ok?
    ensures Disjoint(Write(book, op, seen).value.invoices) <==> !Revives(book, op)
    ensures forall id :: id in Write(book, op, seen).value.invoices ==> id < Write(book, op, seen).value.nextInvoice
  {
    if op.Create? {
      CreationIsDisjoint(book, op, seen);
    } else {
      WriteScopes(book, op, seen);
      StatusWriteIsDisjoint(book, op, Write(book, op, seen).value.invoices);
    }
  }

  lemma StatusWriteIsDisjoint(book: Book, op: Op, now: map<int, Invoice>)
    requires Disjoint(book.invoices) && !op.Create? && SameScopes(book.invoices, now, op.id) && now.Keys <= book.invoices.Keys
    requires op.id in book.invoices && !op.DeleteInvoice? ==> op.id in now
    requires op.id in now ==>
               && now[op.id].scope == book.invoices[op.id].scope
               && now[op.id].status == Target(op, book.invoices[op.id].status)
    requires forall j :: j in book.invoices && j != op.id ==> j in now
    ensures Disjoint(now) <==> !Revives(book, op)
  {
    var was := book.invoices;
    if Revives(book, op) {
      var j :| j in was && j != op.id && was[j].status != Void && Overlaps(was[op.id].scope, was[j].scope);
      RevivalOverlaps(was, now, op.id, j);
    } else {
      forall j | Live(now, op.id) && Live(was, j) && j != op.id
        ensures !Overlaps(now[op.id].scope, was[j].scope)
      {
        assert Live(was, op.id) || was[op.id].status == Void;
      }
      DisjointAfter(was, now, op.id);
    }
  }

  /** The invoice still has the status that was checked when the write comes. */
  predicate Undisturbed(book: Book, op: Op, seen: Invoice) {
    op.Create? || (op.id in book.invoices && book.invoices[op.id].status == seen.status)
  }

  /** A write whose check is not stale keeps the invariant and leaves settled invoices alone. */
  lemma FreshWriteKeeps(book: Book, op: Op, seen: Invoice)
    requires Inv(book) && Write(book, op, seen).Ok?
    requires Accepts(op, seen.status) && Undisturbed(book, op, seen)
    ensures Inv(Write(book, op, seen).value) && Settled(book, Write(book, op, seen).value)
  {
    WritesKeepTotals(book, op, seen);
    DisjointExactlyWhen(book, op, seen);
  }

  /** Totals match and ids are used once: what every write keeps, however stale its check. */
  ghost predicate WellKept(book: Book) {
    AllTotalsMatch(book.invoices) && forall id :: id in book.invoices ==> id < book.nextInvoice
  }

  /** The write changes an invoice that has left the draft, or takes its status back. */
  predicate Unsettles(book: Book, op: Op) {
    && !op.Create? && op.id in book.invoices && book.invoices[op.id].status != Draft
    && match op
       case EditNotes(id, notes) => notes != book.invoices[id].notes
       case UpdateLine(id, line, input) => Replaced(book.invoices[id].lines, line, input) != book.invoices[id].lines
       case Finalize(id) => book.invoices[id].status != Finalized
       case MarkPaid(id) => book.invoices[id].status == Void
       case VoidInvoice(_) => false
       case _ => true
  }

  lemma {:induction false} DroppingShortens(lines: seq<Line>, line: int)
    ensures |Dropped(lines, line)| <= |lines|
    ensures HasLine(lines, line) ==> |Dropped(lines, line)| < |lines|
  {
    if lines != [] {
      var n := |lines| - 1;
      DroppingShortens(lines[..n], line);
      if HasLine(lines, line) && lines[n].id != line {
        var i :| 0 <= i < |lines| && lines[i].id == line;
        assert lines[..n][i].id == line;
      }
    }
  }

  /** However stale the check, a write leaves the settled invoices alone if and only if it does not unsettle one. */
  lemma SettledExactlyWhen(book: Book, op: Op, seen: Invoice)
    requires WellKept(book) && Write(book, op, seen).Ok?
    ensures Settled(book, Write(book, op, seen).value) <==> !Unsettles(book, op)
    ensures WellKept(Write(book, op, seen).value)
  {
    var after := Write(book, op, seen).value;
    WritesKeepTotals(book, op, seen);
    if Unsettles(book, op) {
      UnsettledBy(book, op, seen);
    } else {
      forall id | id in book.invoices && book.invoices[id].status != Draft
        ensures StaysSettled(book, after, id)
      {
        OneStaysSettled(book, op, seen, id);
      }
    }
  }

  lemma OneStaysSettled(book: Book, op: Op, seen: Invoice, id: int)
    requires WellKept(book) && Write(book, op, seen).Ok? && !Unsettles(book, op)
    requires id in book.invoices && book.invoices[id].status != Draft
    ensures StaysSettled(book, Write(book, op, seen).value, id)
  {
    assert TotalsMatch(book.invoices[id]);
  }

  lemma UnsettledBy(book: Book, op: Op, seen: Invoice)
    requires Write(book, op, seen).Ok? && Unsettles(book, op)
    ensures !Settled(book, Write(book, op, seen).value)
  {
    var was := book.invoices[op.id];
    if op.DeleteLine? {
      DroppingShortens(was.lines, op.line);
    }
    if op.id in Write(book, op, seen).value.invoices {
      var now := Write(book, op, seen).value.invoices[op.id];
      assert now.notes != was.notes || now.lines != was.lines || !Onward(was.status, now.status);
    }
    assert !StaysSettled(book, Write(book, op, seen).value, op.id);
  }

  // ----- runs of whole operations

  lemma ApplyKeeps(book: Book, op: Op)
    requires Inv(book) && Apply(book, op).Ok?
    ensures Inv(Apply(book, op).value) && Settled(book, Apply(book, op).value)
  {
    FreshWriteKeeps(book, op, Seen(book, op));
  }

  ghost predicate IsRun(books: seq<Book>, ops: seq<Op>) {
    && |books| == |ops| + 1
    && forall i :: 0 <= i < |ops| ==>
         books[i + 1] == if Apply(books[i], ops[i]).Ok? then Apply(books[i], ops[i]).value else books[i]
  }

  lemma RunStepKeeps(books: seq<Book>, ops: seq<Op>, k: nat)
    requires IsRun(books, ops) && k < |ops| && Inv(books[k])
    ensures Inv(books[k + 1]) && Settled(books[k], books[k + 1])
  {
    if Apply(books[k], ops[k]).Ok? {
      ApplyKeeps(books[k], ops[k]);
    }
  }

  lemma SettledForGood(a: Book, b: Book, c: Book)
    requires Settled(a, b) && Settled(b, c)
    ensures Settled(a, c)
  {
  }

  /**
    In every state that operations without interference reach, the live invoices are disjoint and
    the totals match; an invoice that has left the draft keeps lines, totals and scope for good.
   */
  lemma {:induction false} EveryStateKeeps(books: seq<Book>, ops: seq<Op>, i: nat, j: nat)
    requires IsRun(books, ops) && Inv(books[0]) && i <= j < |books|
    ensures Inv(books[j]) && Settled(books[i], books[j])
    decreases j
  {
    if i < j {
      EveryStateKeeps(books, ops, i, j - 1);
      RunStepKeeps(books, ops, j - 1);
      SettledForGood(books[i], books[j - 1], books[j]);
    } else if j > 0 {
      EveryStateKeeps(books, ops, j - 1, j - 1);
      RunStepKeeps(books, ops, j - 1);
    }
  }

  // ----- the way of one invoice

  /** An edit of a draft, a reconciled draft finalized, a finalized invoice paid, or anything live voided. */
  predicate OneStep(before: Invoice, after: Invoice) {
    || before.status == after.status == Draft
    || (before.status == Draft && after == before.(status := Finalized) && Unreconciled(before.lines) == {})
    || (before.status == Finalized && after == before.(status := Paid))
    || (before.status != Void && after == before.(status := Void))
  }

  /**
    An accepted operation takes the invoice it names one step along its way, or deletes it as a
    draft, and leaves every other invoice as it is.
   */
  lemma OperationsGoOneStep(book: Book, op: Op, id: int)
    requires WellKept(book) && Apply(book, op).Ok? && id in book.invoices
    ensures var now := Apply(book, op).value.invoices;
            if !op.Create? && id == op.id
            then if op.DeleteInvoice? then id !in now && book.invoices[id].status == Draft
                 else id in now && OneStep(book.invoices[id], now[id]) && now[id].scope == book.invoices[id].scope
            else id in now && now[id] == book.invoices[id]
  {
  }

  /**
    What may follow on the same invoice: a finalized one can be paid or voided, a paid one only
    voided, and a void or deleted one takes nothing more; other notes on a draft change nothing
    about what it takes.
   */
  lemma WhatMayFollow(book: Book, op: Op, next: Op)
    requires Apply(book, op).Ok? && !op.Create? && !next.Create? && next.id == op.id
    ensures var follows := Apply(Apply(book, op).value, next).Ok?;
            && (op.Finalize? ==> (follows <==> next.MarkPaid? || next.VoidInvoice?))
            && (op.MarkPaid? ==> (follows <==> next.VoidInvoice?))
            && (op.VoidInvoice? || op.DeleteInvoice? ==> !follows)
            && (op.EditNotes? ==> (follows <==> Apply(book, next).Ok?))
  {
  }

  predicate Checked(invoice: Invoice) {
    invoice.status == Finalized || invoice.status == Paid ==> Unreconciled(invoice.lines) == {}
  }

  ghost predicate AllChecked(book: Book) {
    forall id :: id in book.invoices ==> Checked(book.invoices[id])
  }

  lemma OperationKeepsChecked(book: Book, op: Op)
    requires WellKept(book) && AllChecked(book) && Apply(book, op).Ok?
    ensures AllChecked(Apply(book, op).value)
  {
    var now := Apply(book, op).value.invoices;
    forall id | id in now
      ensures Checked(now[id])
    {
      if id in book.invoices {
        OperationsGoOneStep(book, op, id);
      }
    }
  }

  /** In every state of a run, the movements told by every finalized or paid invoice reconcile: they passed the guard. */
  lemma {:induction false} SettledIsReconciled(books: seq<Book>, ops: seq<Op>, i: nat)
    requires IsRun(books, ops) && Inv(books[0]) && AllChecked(books[0]) && i < |books|
    ensures AllChecked(books[i])
  {
    if i > 0 {
      SettledIsReconciled(books, ops, i - 1);
      EveryStateKeeps(books, ops, i - 1, i - 1);
      if Apply(books[i - 1], ops[i - 1]).Ok? {
        OperationKeepsChecked(books[i - 1], ops[i - 1]);
      }
    }
  }
}
