/**
  What creating, adding, changing and deleting do to the lines of an invoice, field by field, and
  what the guard on finalization looks at.
 */
module InvoiceLines {
  import opened Wrappers
  import opened InvoiceLifecycle

  /** A line as a request asks for it. */
  predicate Asked(line: Line, input: LineInput) {
    line.charge == input.charge && line.container == input.container && line.amount == input.amount
  }

  lemma {:induction false} MaxSortIsMost(lines: seq<Line>)
    ensures forall i :: 0 <= i < |lines| ==> lines[i].sort <= MaxSort(lines)
    ensures 0 < MaxSort(lines) ==> exists i :: 0 <= i < |lines| && lines[i].sort == MaxSort(lines)
  {
    if lines != [] {
      var n := |lines| - 1;
      MaxSortIsMost(lines[..n]);
      if i :| 0 <= i < n && lines[..n][i].sort == MaxSort(lines[..n]) {
        assert lines[i].sort == MaxSort(lines[..n]);
      }
    }
  }

  lemma {:induction false} DrawnLines(inputs: seq<LineInput>, nextLine: int)
    ensures |Drawn(inputs, nextLine)| == |inputs|
    ensures forall i :: 0 <= i < |inputs| ==>
              var line := Drawn(inputs, nextLine)[i];
              && Asked(line, inputs[i]) && line.details == inputs[i].details && line.automatic
              && line.id == nextLine + i && line.sort == i + 1
  {
    if inputs != [] {
      var n := |inputs| - 1;
      DrawnLines(inputs[..n], nextLine);
      var before := Drawn(inputs[..n], nextLine);
      assert forall i :: 0 <= i < n ==> Drawn(inputs, nextLine)[i] == before[i] && inputs[..n][i] == inputs[i];
    }
  }

  lemma {:induction false} ReplacedLines(lines: seq<Line>, id: int, input: LineInput)
    ensures |Replaced(lines, id, input)| == |lines|
    ensures forall i :: 0 <= i < |lines| ==>
              var line := Replaced(lines, id, input)[i];
              && (lines[i].id != id ==> line == lines[i])
              && (lines[i].id == id ==>
                    Asked(line, input) && line.id == id && line.sort == lines[i].sort && !line.automatic && line.details.None?)
  {
    if lines != [] {
      var n := |lines| - 1;
      ReplacedLines(lines[..n], id, input);
      assert forall i :: 0 <= i < n ==> Replaced(lines, id, input)[i] == Replaced(lines[..n], id, input)[i] && lines[..n][i] == lines[i];
    }
  }

  lemma {:induction false} DroppedLines(lines: seq<Line>, id: int, line: Line)
    ensures multiset(Dropped(lines, id))[line] == if line.id == id then 0 else multiset(lines)[line]
  {
    if lines != [] {
      var n := |lines| - 1;
      DroppedLines(lines[..n], id, line);
      assert lines == lines[..n] + [lines[n]];
      var before := Dropped(lines[..n], id);
      assert before + [] == before;
    }
  }

  /** A created invoice has one automatic line an input, in order, and nothing else is touched. */
  lemma CreatedLines(book: Book, scope: Scope, inputs: seq<LineInput>)
    requires Apply(book, Create(scope, inputs)).Ok?
    ensures var after := Apply(book, Create(scope, inputs)).value;
            && book.nextInvoice in after.invoices && after.invoices == book.invoices[book.nextInvoice := after.invoices[book.nextInvoice]]
            && var invoice := after.invoices[book.nextInvoice];
               && invoice.status == Draft && invoice.scope == scope && invoice.notes == "" && |invoice.lines| == |inputs|
               && forall i :: 0 <= i < |inputs| ==>
                    && Asked(invoice.lines[i], inputs[i]) && invoice.lines[i].details == inputs[i].details
                    && invoice.lines[i].automatic && invoice.lines[i].id == book.nextLine + i && invoice.lines[i].sort == i + 1
  {
    DrawnLines(inputs, book.nextLine);
  }

  /** An added line goes last: after all other lines, as asked for, by hand and without details. */
  lemma AddedLine(book: Book, id: int, input: LineInput)
    requires Apply(book, AddLine(id, input)).Ok?
    ensures var was, now := book.invoices[id].lines, Apply(book, AddLine(id, input)).value.invoices[id].lines;
            && |now| == |was| + 1 && now[..|was|] == was
            && var line := now[|was|];
               && Asked(line, input) && !line.automatic && line.details.None? && line.id == book.nextLine
               && 0 < line.sort && forall i :: 0 <= i < |was| ==> was[i].sort < line.sort
  {
    MaxSortIsMost(book.invoices[id].lines);
  }

  /** A changed line keeps its place and becomes a manual one; every other line stays. */
  lemma ChangedLine(book: Book, id: int, line: int, input: LineInput)
    requires Apply(book, UpdateLine(id, line, input)).Ok?
    ensures var was, now := book.invoices[id].lines, Apply(book, UpdateLine(id, line, input)).value.invoices[id].lines;
            && |now| == |was|
            && (exists i :: 0 <= i < |was| && was[i].id == line)
            && forall i :: 0 <= i < |was| ==>
                 && (was[i].id != line ==> now[i] == was[i])
                 && (was[i].id == line ==>
                       Asked(now[i], input) && now[i].id == line && now[i].sort == was[i].sort && !now[i].automatic && now[i].details.None?)
  {
    ReplacedLines(book.invoices[id].lines, line, input);
  }

  /** Deleting takes the line and no other. */
  lemma DeletedLine(book: Book, id: int, line: int, other: Line)
    requires Apply(book, DeleteLine(id, line)).Ok?
    ensures var was, now := book.invoices[id].lines, Apply(book, DeleteLine(id, line)).value.invoices[id].lines;
            && multiset(now)[other] == (if other.id == line then 0 else multiset(was)[other])
            && exists i :: 0 <= i < |was| && was[i].id == line
  {
    DroppedLines(book.invoices[id].lines, line, other);
  }

  // ----- totals and the guard

  /** The totals of an invoice: what is charged, what is discounted, and both together. */
  lemma {:induction false} TotalsTell(lines: seq<Line>)
    ensures SumOf(lines, false) + SumOf(lines, true) == AmountsOf(lines)
    ensures (forall i :: 0 <= i < |lines| ==> lines[i].charge == DISCOUNT) ==> SumOf(lines, false) == 0
    ensures (forall i :: 0 <= i < |lines| ==> lines[i].charge != DISCOUNT) ==> SumOf(lines, true) == 0
  {
    if lines != [] {
      var n := |lines| - 1;
      TotalsTell(lines[..n]);
      assert forall i :: 0 <= i < n ==> lines[..n][i] == lines[i];
    }
  }

  function AmountsOf(lines: seq<Line>): int {
    if lines == [] then 0 else AmountsOf(lines[..|lines| - 1]) + lines[|lines| - 1].amount
  }

  /** The last storage line that tells about the container. */
  ghost predicate TellsLast(lines: seq<Line>, c: string, i: int) {
    && 0 <= i < |lines| && lines[i].charge == STORAGE && lines[i].details.Some? && lines[i].container == c
    && forall j :: i < j < |lines| && lines[j].charge == STORAGE && lines[j].details.Some? ==> lines[j].container != c
  }

  lemma {:induction false} LastMovementTells(lines: seq<Line>, c: string)
    ensures LastMovement(lines, c).Some? <==> exists i :: TellsLast(lines, c, i)
    ensures forall i :: TellsLast(lines, c, i) ==> LastMovement(lines, c) == Some(lines[i].details.value.movement)
  {
    if lines != [] {
      var n := |lines| - 1;
      LastMovementTells(lines[..n], c);
      if Tells(lines[n], c) {
        assert TellsLast(lines, c, n);
      } else {
        forall i
          ensures TellsLast(lines, c, i) <==> TellsLast(lines[..n], c, i)
        {
        }
        if i :| TellsLast(lines[..n], c, i) {
          assert TellsLast(lines, c, i);
        }
      }
    }
  }

  /** No container's last storage line tells a negative movement. */
  ghost predicate Reconciles(lines: seq<Line>) {
    forall c, i :: c != "" && TellsLast(lines, c, i) ==> 0 <= lines[i].details.value.movement
  }

  lemma ReconcilesExactly(lines: seq<Line>)
    ensures Unreconciled(lines) == {} <==> Reconciles(lines)
  {
    forall c
      ensures LastMovement(lines, c).Some? <==> exists i :: TellsLast(lines, c, i)
      ensures forall i :: TellsLast(lines, c, i) ==> LastMovement(lines, c) == Some(lines[i].details.value.movement)
      ensures LastMovement(lines, c).Some? ==> c in ContainersOf(lines)
    {
      LastMovementTells(lines, c);
      if LastMovement(lines, c).Some? {
        ToldContainers(lines, c);
      }
    }
    if c, i :| c != "" && TellsLast(lines, c, i) && lines[i].details.value.movement < 0 {
      assert c in Unreconciled(lines);
    }
    if c :| c in Unreconciled(lines) {
      var i :| TellsLast(lines, c, i);
    }
  }

  /** A draft is finalized exactly when no container's last storage line tells a negative movement. */
  lemma FinalizedExactlyWhen(book: Book, id: int)
    ensures Apply(book, Finalize(id)).Ok? <==>
              id in book.invoices && book.invoices[id].status == Draft && Reconciles(book.invoices[id].lines)
  {
    if id in book.invoices {
      ReconcilesExactly(book.invoices[id].lines);
    }
  }

  ghost predicate SettledReconcile(book: Book) {
    forall id :: id in book.invoices && (book.invoices[id].status == Finalized || book.invoices[id].status == Paid) ==>
      Reconciles(book.invoices[id].lines)
  }

  /** And so the movements of every finalized or paid invoice reconcile in every state of a run. */
  lemma EverySettledReconciles(books: seq<Book>, ops: seq<Op>, i: nat)
    requires IsRun(books, ops) && Inv(books[0]) && SettledReconcile(books[0]) && i < |books|
    ensures SettledReconcile(books[i])
  {
    forall lines
      ensures Unreconciled(lines) == {} <==> Reconciles(lines)
    {
      ReconcilesExactly(lines);
    }
    SettledIsReconciled(books, ops, i);
  }
}
