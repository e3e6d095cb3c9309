/**
  A generated invoice that nobody has edited: when the guard on finalization accepts it, and what
  its breakdown by container says about storage.
 */
module GeneratedInvoices {
  import opened Wrappers
  import opened InvoiceLifecycle
  import opened InvoiceTotals
  import Billing = ContainerStorage
  import MovementCheck
  import PalletMovement
  import PalletRelease
  import Lifecycle

  /** One row a container. */
  ghost predicate Distinct(rows: seq<StorageEntry>) {
    forall i, j :: 0 <= i < j < |rows| ==> rows[i].container != rows[j].container
  }

  /** A preview as it is calculated: fees, and one storage row a container. */
  ghost predicate Calculated(p: Preview, charges: seq<Charge>, rows: seq<StorageEntry>) {
    && Assembled(p, charges, rows) && Distinct(rows)
    && forall k :: 0 <= k < |charges| ==> IsFee(charges[k].charge)
  }

  lemma {:induction false} RowIsFound(rows: seq<StorageEntry>, k: nat)
    requires Distinct(rows) && k < |rows|
    ensures RowOf(rows, rows[k].container) == Some(rows[k])
  {
    if k < |rows| - 1 {
      RowIsFound(rows[..|rows| - 1], k);
    }
  }

  /** What the invoice says about a storage row. */
  function StorageInput(e: StorageEntry): LineInput {
    LineInput(STORAGE, e.container, e.row.amount, Some(DetailsOf(e.row)))
  }

  lemma StorageLineIsInput(rows: seq<StorageEntry>, k: nat)
    requires Distinct(rows) && k < |rows|
    ensures InputOf(rows, StorageLine(rows[k])) == StorageInput(rows[k])
  {
    RowIsFound(rows, k);
  }

  /** Every input is a fee without details, or one of the storage rows. */
  lemma InputIsKnown(p: Preview, charges: seq<Charge>, rows: seq<StorageEntry>, storageOnly: bool, i: nat)
    requires Calculated(p, charges, rows) && Built(p, storageOnly).Lines? && i < |Built(p, storageOnly).inputs|
    ensures var input := Built(p, storageOnly).inputs[i];
            || (IsFee(input.charge) && input.details.None?)
            || exists k :: 0 <= k < |rows| && input == StorageInput(rows[k])
  {
    BuiltCharges(p, storageOnly, |p.lines|, i);
    var n :| 0 <= n < |p.lines| && Built(p, storageOnly).inputs[i] == InputOf(p.rows, p.lines[n]);
    AssembledLine(p, charges, rows, n);
    if k :| 0 <= k < |rows| && p.lines[n] == StorageLine(rows[k]) {
      StorageLineIsInput(rows, k);
    }
  }

  lemma {:induction false} ChosenIsBuilt(p: Preview, storageOnly: bool, n: nat, k: nat)
    requires k < n <= |p.lines| && BuiltTo(p, storageOnly, n).Lines? && Chosen(p.lines[k], storageOnly)
    ensures InputOf(p.rows, p.lines[k]) in BuiltTo(p, storageOnly, n).inputs
  {
    if k < n - 1 {
      ChosenIsBuilt(p, storageOnly, n - 1, k);
    }
  }

  /** Every storage row is on the invoice. */
  lemma RowIsBilled(p: Preview, charges: seq<Charge>, rows: seq<StorageEntry>, storageOnly: bool, k: nat)
    requires Calculated(p, charges, rows) && Built(p, storageOnly).Lines? && k < |rows|
    ensures StorageInput(rows[k]) in Built(p, storageOnly).inputs
  {
    var all := FeeLines(charges) + StorageLines(rows);
    assert all[|charges| + k] == StorageLine(rows[k]);
    assert StorageLine(rows[k]) in multiset(all);
    assert StorageLine(rows[k]) in p.lines;
    var n :| 0 <= n < |p.lines| && p.lines[n] == StorageLine(rows[k]);
    ChosenIsBuilt(p, storageOnly, |p.lines|, n);
    StorageLineIsInput(rows, k);
  }

  // ----- the guard on finalization

  predicate TellsOf(input: LineInput, c: string) {
    input.charge == STORAGE && input.details.Some? && input.container == c
  }

  lemma DrawnLast(inputs: seq<LineInput>, nextLine: int)
    requires inputs != []
    ensures var n, drawn := |inputs| - 1, Drawn(inputs, nextLine);
            && drawn != [] && drawn[..|drawn| - 1] == Drawn(inputs[..n], nextLine)
            && drawn[|drawn| - 1].charge == inputs[n].charge && drawn[|drawn| - 1].container == inputs[n].container
            && drawn[|drawn| - 1].details == inputs[n].details && drawn[|drawn| - 1].amount == inputs[n].amount
  {
    var before := Drawn(inputs[..|inputs| - 1], nextLine);
    assert Drawn(inputs, nextLine)[..|before|] == before;
  }

  lemma {:induction false} DrawnMovement(inputs: seq<LineInput>, nextLine: int, c: string, movement: int)
    requires forall i :: 0 <= i < |inputs| && TellsOf(inputs[i], c) ==> inputs[i].details.value.movement == movement
    ensures LastMovement(Drawn(inputs, nextLine), c)
         == if exists i :: 0 <= i < |inputs| && TellsOf(inputs[i], c) then Some(movement) else None
  {
    if inputs != [] {
      var n := |inputs| - 1;
      DrawnLast(inputs, nextLine);
      DrawnMovement(inputs[..n], nextLine, c, movement);
      if i :| 0 <= i < n && TellsOf(inputs[..n][i], c) {
        assert TellsOf(inputs[i], c);
      }
      if TellsOf(inputs[n], c) {
        assert Tells(Drawn(inputs, nextLine)[|Drawn(inputs, nextLine)| - 1], c);
      } else if i :| 0 <= i < |inputs| && TellsOf(inputs[i], c) {
        assert TellsOf(inputs[..n][i], c);
      }
    }
  }

  function MovementOf(e: StorageEntry): int {
    PalletMovement.Implied(e.row.opening, e.row.closing, e.row.releases)
  }

  /** The movement told about a container is that of its row. */
  lemma RowMovement(p: Preview, charges: seq<Charge>, rows: seq<StorageEntry>, storageOnly: bool, k: nat, nextLine: int)
    requires Calculated(p, charges, rows) && Built(p, storageOnly).Lines? && k < |rows|
    ensures LastMovement(Drawn(Built(p, storageOnly).inputs, nextLine), rows[k].container) == Some(MovementOf(rows[k]))
  {
    var inputs := Built(p, storageOnly).inputs;
    forall i | 0 <= i < |inputs| && TellsOf(inputs[i], rows[k].container)
      ensures inputs[i].details.value.movement == MovementOf(rows[k])
    {
      InputIsKnown(p, charges, rows, storageOnly, i);
      var j :| 0 <= j < |rows| && inputs[i] == StorageInput(rows[j]);
      assert j == k;
    }
    RowIsBilled(p, charges, rows, storageOnly, k);
    var i :| 0 <= i < |inputs| && inputs[i] == StorageInput(rows[k]);
    assert TellsOf(inputs[i], rows[k].container);
    DrawnMovement(inputs, nextLine, rows[k].container, MovementOf(rows[k]));
  }

  lemma OnlyRowsTell(p: Preview, charges: seq<Charge>, rows: seq<StorageEntry>, storageOnly: bool, c: string, nextLine: int)
    requires Calculated(p, charges, rows) && Built(p, storageOnly).Lines?
    requires forall k :: 0 <= k < |rows| ==> rows[k].container != c
    ensures LastMovement(Drawn(Built(p, storageOnly).inputs, nextLine), c).None?
  {
    var inputs := Built(p, storageOnly).inputs;
    forall i | 0 <= i < |inputs|
      ensures !TellsOf(inputs[i], c)
    {
      InputIsKnown(p, charges, rows, storageOnly, i);
    }
    DrawnMovement(inputs, nextLine, c, 0);
  }

  /** The lines of a generated invoice, as they were stored. */
  ghost predicate Unedited(invoice: Invoice, p: Preview, storageOnly: bool) {
    && invoice.status == Draft && Built(p, storageOnly).Lines?
    && exists nextLine :: invoice.lines == Drawn(Built(p, storageOnly).inputs, nextLine)
  }

  /** The guard on finalization accepts an unedited invoice if and only if no row's movement is negative. */
  lemma UneditedFinalizesExactlyWhen(book: Book, id: int, p: Preview, charges: seq<Charge>, rows: seq<StorageEntry>,
                                     storageOnly: bool)
    requires Calculated(p, charges, rows) && id in book.invoices && Unedited(book.invoices[id], p, storageOnly)
    ensures Apply(book, Finalize(id)).Ok? <==>
              forall k :: 0 <= k < |rows| && rows[k].container != "" ==> 0 <= MovementOf(rows[k])
  {
    UneditedReconciles(book.invoices[id], p, charges, rows, storageOnly);
  }

  lemma UneditedReconciles(invoice: Invoice, p: Preview, charges: seq<Charge>, rows: seq<StorageEntry>, storageOnly: bool)
    requires Calculated(p, charges, rows) && Unedited(invoice, p, storageOnly)
    ensures Unreconciled(invoice.lines) == {} <==>
              forall k :: 0 <= k < |rows| && rows[k].container != "" ==> 0 <= MovementOf(rows[k])
  {
    var nextLine :| invoice.lines == Drawn(Built(p, storageOnly).inputs, nextLine);
    MovementsAreTold(p, charges, rows, storageOnly, invoice.lines, nextLine);
    ReconciledExactlyWhen(invoice.lines, rows);
  }

  /** The lines tell the movements of the rows and no others. */
  ghost predicate TellRows(lines: seq<Line>, rows: seq<StorageEntry>) {
    && (forall k :: 0 <= k < |rows| ==> LastMovement(lines, rows[k].container) == Some(MovementOf(rows[k])))
    && (forall c :: LastMovement(lines, c).Some? ==> exists k :: 0 <= k < |rows| && rows[k].container == c)
  }

  lemma ReconciledExactlyWhen(lines: seq<Line>, rows: seq<StorageEntry>)
    requires TellRows(lines, rows)
    ensures Unreconciled(lines) == {} <==>
              forall k :: 0 <= k < |rows| && rows[k].container != "" ==> 0 <= MovementOf(rows[k])
  {
    if k :| 0 <= k < |rows| && rows[k].container != "" && MovementOf(rows[k]) < 0 {
      ToldContainers(lines, rows[k].container);
      assert rows[k].container in Unreconciled(lines);
    }
  }

  lemma MovementsAreTold(p: Preview, charges: seq<Charge>, rows: seq<StorageEntry>, storageOnly: bool,
                         lines: seq<Line>, nextLine: int)
    requires Calculated(p, charges, rows) && Built(p, storageOnly).Lines?
    requires lines == Drawn(Built(p, storageOnly).inputs, nextLine)
    ensures TellRows(lines, rows)
  {
    forall k | 0 <= k < |rows|
      ensures LastMovement(lines, rows[k].container) == Some(MovementOf(rows[k]))
    {
      RowMovement(p, charges, rows, storageOnly, k, nextLine);
    }
    forall c | forall k :: 0 <= k < |rows| ==> rows[k].container != c
      ensures LastMovement(lines, c).None?
    {
      OnlyRowsTell(p, charges, rows, storageOnly, c, nextLine);
    }
  }

  // ----- rows that were calculated from a ledger

  datatype RowSource = RowSource(events: seq<Lifecycle.Event>, terms: Billing.StorageTerms)

  /** Every row is the one of its container's events. */
  ghost predicate FromLedger(rows: seq<StorageEntry>, sources: seq<RowSource>, period: PalletRelease.Period)
    requires period.start <= period.endExclusive
  {
    && |sources| == |rows|
    && forall k :: 0 <= k < |rows| ==> Billing.IsRow(Some(rows[k].row), sources[k].events, sources[k].terms, period)
  }

  /** Transfers keep their SKU, and at the start of the period no SKU is short and stocked in scope. */
  ghost predicate SafeSource(source: RowSource, period: PalletRelease.Period) {
    && MovementCheck.TransfersKeepSku(source.events)
    && !MovementCheck.Mixes(source.events, source.terms.scope, period.start - 1)
  }

  lemma SafeRowsMove(rows: seq<StorageEntry>, sources: seq<RowSource>, period: PalletRelease.Period)
    requires period.start <= period.endExclusive && FromLedger(rows, sources, period)
    requires forall k :: 0 <= k < |sources| ==> SafeSource(sources[k], period)
    ensures forall k :: 0 <= k < |rows| ==> 0 <= MovementOf(rows[k])
  {
    forall k | 0 <= k < |rows|
      ensures 0 <= MovementOf(rows[k])
    {
      assert Billing.IsRow(Some(rows[k].row), sources[k].events, sources[k].terms, period) && SafeSource(sources[k], period);
      Billing.RowPassesCheck(rows[k].row, sources[k].events, sources[k].terms, period);
    }
  }

  /** An unedited invoice over safe openings is never stopped by the guard on finalization. */
  lemma UneditedInvoiceFinalizes(book: Book, id: int, p: Preview, charges: seq<Charge>, rows: seq<StorageEntry>,
                                 sources: seq<RowSource>, period: PalletRelease.Period, storageOnly: bool)
    requires period.start <= period.endExclusive && Calculated(p, charges, rows) && FromLedger(rows, sources, period)
    requires forall k :: 0 <= k < |sources| ==> SafeSource(sources[k], period)
    requires id in book.invoices && Unedited(book.invoices[id], p, storageOnly)
    ensures Apply(book, Finalize(id)).Ok?
  {
    SafeRowsMove(rows, sources, period);
    UneditedFinalizesExactlyWhen(book, id, p, charges, rows, storageOnly);
  }

  lemma GeneratedInvoice(book: Book, scope: Scope, p: Preview, charges: seq<Charge>, rows: seq<StorageEntry>, storageOnly: bool)
    requires Calculated(p, charges, rows) && !Refuses(book, p, storageOnly, scope)
    ensures var generated := Apply(book, Create(scope, Built(p, storageOnly).inputs)).value;
            && book.nextInvoice in generated.invoices
            && Unedited(generated.invoices[book.nextInvoice], p, storageOnly)
            && generated.invoices[book.nextInvoice].grand == Expected(p, storageOnly)
  {
    var inputs := Built(p, storageOnly).inputs;
    NoDiscounts(p, charges, rows, storageOnly);
    CreatedTotals(book, scope, inputs);
    assert Apply(book, Create(scope, inputs)).value.invoices[book.nextInvoice].lines == Drawn(inputs, book.nextLine);
  }

  /** From a ledger over safe openings to a finalized invoice: once it is generated, finalizing is not refused. */
  lemma GeneratedInvoiceFinalizes(book: Book, scope: Scope, p: Preview, charges: seq<Charge>, rows: seq<StorageEntry>,
                                  sources: seq<RowSource>, period: PalletRelease.Period, storageOnly: bool)
    requires period.start <= period.endExclusive && Calculated(p, charges, rows) && FromLedger(rows, sources, period)
    requires forall k :: 0 <= k < |sources| ==> SafeSource(sources[k], period)
    requires !Refuses(book, p, storageOnly, scope)
    ensures var generated := Apply(book, Create(scope, Built(p, storageOnly).inputs)).value;
            var finalized := Apply(generated, Finalize(book.nextInvoice));
            && finalized.Ok? && book.nextInvoice in finalized.value.invoices
            && finalized.value.invoices[book.nextInvoice].status == Finalized
            && finalized.value.invoices[book.nextInvoice].grand == Expected(p, storageOnly)
  {
    var inputs := Built(p, storageOnly).inputs;
    var generated := Apply(book, Create(scope, inputs)).value;
    GeneratedInvoice(book, scope, p, charges, rows, storageOnly);
    UneditedInvoiceFinalizes(generated, book.nextInvoice, p, charges, rows, sources, period, storageOnly);
  }

  // ----- the breakdown

  /** A calculated row's gross less its discount is its amount, and so is what its line tells. */
  lemma {:induction false} DrawnTellsConsistently(inputs: seq<LineInput>, nextLine: int, i: nat)
    requires i < |Drawn(inputs, nextLine)| == |inputs|
    requires forall k :: 0 <= k < |inputs| && inputs[k].details.Some? ==>
               inputs[k].details.value.gross - inputs[k].details.value.discount == inputs[k].amount
    ensures TellsConsistently(Drawn(inputs, nextLine)[i])
  {
    var n := |inputs| - 1;
    DrawnLast(inputs, nextLine);
    if i < n {
      DrawnTellsConsistently(inputs[..n], nextLine, i);
      assert Drawn(inputs, nextLine)[..n][i] == Drawn(inputs, nextLine)[i];
    }
  }

  lemma {:induction false} DrawnLength(inputs: seq<LineInput>, nextLine: int)
    ensures |Drawn(inputs, nextLine)| == |inputs|
  {
    if inputs != [] {
      DrawnLength(inputs[..|inputs| - 1], nextLine);
    }
  }

  /** In the breakdown of an unedited invoice, storage gross less discount is the storage amount of every container. */
  lemma UneditedStorageNets(invoice: Invoice, p: Preview, charges: seq<Charge>, rows: seq<StorageEntry>,
                            sources: seq<RowSource>, period: PalletRelease.Period, storageOnly: bool, c: string)
    requires period.start <= period.endExclusive && Calculated(p, charges, rows) && FromLedger(rows, sources, period)
    requires Unedited(invoice, p, storageOnly)
    ensures var d := Detailed(invoice.lines, c); d.gross - d.discount == d.storage
  {
    var inputs := Built(p, storageOnly).inputs;
    var nextLine :| invoice.lines == Drawn(inputs, nextLine);
    forall i | 0 <= i < |inputs| && inputs[i].details.Some?
      ensures inputs[i].details.value.gross - inputs[i].details.value.discount == inputs[i].amount
    {
      InputIsKnown(p, charges, rows, storageOnly, i);
      var k :| 0 <= k < |rows| && inputs[i] == StorageInput(rows[k]);
      assert Billing.IsRow(Some(rows[k].row), sources[k].events, sources[k].terms, period);
    }
    DrawnLength(inputs, nextLine);
    forall i | 0 <= i < |invoice.lines|
      ensures TellsConsistently(invoice.lines[i])
    {
      DrawnTellsConsistently(inputs, nextLine, i);
    }
    StorageNets(invoice.lines, c);
  }
}
