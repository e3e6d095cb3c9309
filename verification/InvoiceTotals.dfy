/**
  From the preview's lines to a stored invoice and its per-container breakdown: one total all
  the way, to the cent.
 */
module InvoiceTotals {
  import opened Wrappers
  import opened Sums
  import opened BillingMoney
  import opened InvoiceLifecycle
  import Billing = ContainerStorage
  import PalletMovement

  const INBOUND := "INBOUND"
  const WRAPPING := "WRAPPING"
  const OUTBOUND := "OUTBOUND"
  const UNASSIGNED := "UNASSIGNED"

  // ----- the preview

  /** A charge per pallet or per container; key stands for the line's place in the final order. */
  datatype Charge = Charge(charge: string, container: string, quantity: nat, rate: nat, key: int)

  datatype StorageEntry = StorageEntry(container: string, row: Billing.StorageRow, key: int)

  datatype PreviewLine = PreviewLine(charge: string, container: string, amount: int, key: int)

  datatype Summary = Summary(inbound: int, wrapping: int, storage: int, outbound: int, grand: int,
                             storageGross: int, storageDiscount: int)

  datatype Preview = Preview(lines: seq<PreviewLine>, rows: seq<StorageEntry>, summary: Summary)

  function FeeLine(c: Charge): PreviewLine {
    PreviewLine(c.charge, c.container, Round(c.quantity * c.rate, FEE_DEN), c.key)
  }

  function StorageLine(e: StorageEntry): PreviewLine {
    PreviewLine(STORAGE, e.container, e.row.amount, e.key)
  }

  function AmountFor(lines: seq<PreviewLine>, charge: string): int {
    if lines == [] then 0
    else
      AmountFor(lines[..|lines| - 1], charge)
      + if lines[|lines| - 1].charge == charge then lines[|lines| - 1].amount else 0
  }

  function GrossOf(rows: seq<StorageEntry>): int {
    if rows == [] then 0 else GrossOf(rows[..|rows| - 1]) + rows[|rows| - 1].row.gross
  }

  function DiscountOf(rows: seq<StorageEntry>): int {
    if rows == [] then 0 else DiscountOf(rows[..|rows| - 1]) + rows[|rows| - 1].row.discount
  }

  function Summarized(lines: seq<PreviewLine>, rows: seq<StorageEntry>): Summary {
    var inbound, wrapping := AmountFor(lines, INBOUND), AmountFor(lines, WRAPPING);
    var storage, outbound := AmountFor(lines, STORAGE), AmountFor(lines, OUTBOUND);
    Summary(inbound, wrapping, storage, outbound, inbound + wrapping + storage + outbound, GrossOf(rows), DiscountOf(rows))
  }

  predicate IsFee(charge: string) {
    charge == INBOUND || charge == WRAPPING || charge == OUTBOUND
  }

  ghost predicate Ordered(lines: seq<PreviewLine>) {
    forall i, j :: 0 <= i < j < |lines| ==> lines[i].key <= lines[j].key
  }

  function FeeLines(charges: seq<Charge>): seq<PreviewLine> {
    seq(|charges|, i requires 0 <= i < |charges| => FeeLine(charges[i]))
  }

  function StorageLines(rows: seq<StorageEntry>): seq<PreviewLine> {
    seq(|rows|, i requires 0 <= i < |rows| => StorageLine(rows[i]))
  }

  /** The preview holds the fee lines and one line a storage row, in order, and their totals. */
  ghost predicate Assembled(p: Preview, charges: seq<Charge>, rows: seq<StorageEntry>) {
    && p.rows == rows
    && multiset(p.lines) == multiset(FeeLines(charges) + StorageLines(rows)) && Ordered(p.lines)
    && p.summary == Summarized(p.lines, rows)
  }

  method InsertLine(lines: seq<PreviewLine>, line: PreviewLine) returns (inserted: seq<PreviewLine>)
    requires Ordered(lines)
    ensures Ordered(inserted) && multiset(inserted) == multiset(lines) + multiset{line}
  {
    var p := |lines|;
    while 0 < p && line.key < lines[p - 1].key
      invariant 0 <= p <= |lines| && forall j :: p <= j < |lines| ==> line.key < lines[j].key
    {
      p := p - 1;
    }
    inserted := lines[..p] + [line] + lines[p..];
    InsertedElements(lines, p, line);
  }

  lemma InsertedElements<T>(s: seq<T>, p: nat, x: T)
    requires p <= |s|
    ensures multiset(s[..p] + [x] + s[p..]) == multiset(s) + multiset{x}
  {
    assert s == s[..p] + s[p..];
  }

  method SortLines(lines: seq<PreviewLine>) returns (sorted: seq<PreviewLine>)
    ensures multiset(sorted) == multiset(lines) && Ordered(sorted)
  {
    sorted := [];
    for i := 0 to |lines|
      invariant multiset(sorted) == multiset(lines[..i]) && Ordered(sorted)
    {
      sorted := InsertLine(sorted, lines[i]);
      assert lines[..i + 1] == lines[..i] + [lines[i]];
    }
    assert lines[..|lines|] == lines;
  }

  method Summarize(lines: seq<PreviewLine>, rows: seq<StorageEntry>) returns (s: Summary)
    ensures s == Summarized(lines, rows)
  {
    var inbound, wrapping, storage, outbound := 0, 0, 0, 0;
    for i := 0 to |lines|
      invariant inbound == AmountFor(lines[..i], INBOUND) && wrapping == AmountFor(lines[..i], WRAPPING)
      invariant storage == AmountFor(lines[..i], STORAGE) && outbound == AmountFor(lines[..i], OUTBOUND)
    {
      assert lines[..i + 1][..i] == lines[..i];
      if lines[i].charge == INBOUND {
        inbound := inbound + lines[i].amount;
      } else if lines[i].charge == WRAPPING {
        wrapping := wrapping + lines[i].amount;
      } else if lines[i].charge == STORAGE {
        storage := storage + lines[i].amount;
      } else if lines[i].charge == OUTBOUND {
        outbound := outbound + lines[i].amount;
      }
    }
    assert lines[..|lines|] == lines;
    var gross, discount := 0, 0;
    for i := 0 to |rows|
      invariant gross == GrossOf(rows[..i]) && discount == DiscountOf(rows[..i])
    {
      assert rows[..i + 1][..i] == rows[..i];
      gross, discount := gross + rows[i].row.gross, discount + rows[i].row.discount;
    }
    assert rows[..|rows|] == rows;
    s := Summary(inbound, wrapping, storage, outbound, inbound + wrapping + storage + outbound, gross, discount);
  }

  method AssemblePreview(charges: seq<Charge>, rows: seq<StorageEntry>) returns (p: Preview)
    ensures Assembled(p, charges, rows)
  {
    var lines := [];
    for i := 0 to |charges|
      invariant lines == FeeLines(charges)[..i]
    {
      lines := lines + [PreviewLine(charges[i].charge, charges[i].container,
                                    Round(charges[i].quantity * charges[i].rate, FEE_DEN), charges[i].key)];
    }
    assert lines == FeeLines(charges);
    for i := 0 to |rows|
      invariant lines == FeeLines(charges) + StorageLines(rows)[..i]
    {
      lines := lines + [PreviewLine(STORAGE, rows[i].container, rows[i].row.amount, rows[i].key)];
    }
    assert StorageLines(rows)[..|rows|] == StorageLines(rows);
    lines := SortLines(lines);
    var summary := Summarize(lines, rows);
    p := Preview(lines, rows, summary);
  }

  lemma AssembledLine(p: Preview, charges: seq<Charge>, rows: seq<StorageEntry>, i: nat)
    requires Assembled(p, charges, rows) && i < |p.lines|
    requires forall k :: 0 <= k < |charges| ==> IsFee(charges[k].charge)
    ensures IsFee(p.lines[i].charge) || exists k :: 0 <= k < |rows| && p.lines[i] == StorageLine(rows[k])
  {
    var all := FeeLines(charges) + StorageLines(rows);
    assert p.lines[i] in multiset(p.lines);
    assert p.lines[i] in all;
    var j :| 0 <= j < |all| && all[j] == p.lines[i];
    if j >= |charges| {
      assert p.lines[i] == StorageLine(rows[j - |charges|]);
    }
  }

  // ----- the invoice lines

  datatype Outcome = Lines(inputs: seq<LineInput>) | Unassigned | MissingDetail | TotalMismatch

  /** The last row of a container replaces an earlier one. */
  function RowOf(rows: seq<StorageEntry>, container: string): Option<StorageEntry> {
    if rows == [] then None
    else if rows[|rows| - 1].container == container then Some(rows[|rows| - 1])
    else RowOf(rows[..|rows| - 1], container)
  }

  function DetailsOf(row: Billing.StorageRow): Details {
    Details(PalletMovement.Implied(row.opening, row.closing, row.releases), row.gross, row.discount)
  }

  function InputOf(rows: seq<StorageEntry>, line: PreviewLine): LineInput {
    var row := RowOf(rows, line.container);
    LineInput(line.charge, line.container, line.amount,
              if line.charge == STORAGE && row.Some? then Some(DetailsOf(row.value.row)) else None)
  }

  function LineOutcome(rows: seq<StorageEntry>, line: PreviewLine): Outcome {
    if line.container == UNASSIGNED then Unassigned
    else if line.charge == STORAGE && RowOf(rows, line.container).None? then MissingDetail
    else Lines([InputOf(rows, line)])
  }

  predicate Chosen(line: PreviewLine, storageOnly: bool) {
    storageOnly ==> line.charge == STORAGE
  }

  /** The lines built so far, or the first reason to refuse. */
  function BuiltTo(p: Preview, storageOnly: bool, n: nat): Outcome
    requires n <= |p.lines|
  {
    if n == 0 then Lines([])
    else
      var before, line := BuiltTo(p, storageOnly, n - 1), p.lines[n - 1];
      if !before.Lines? || !Chosen(line, storageOnly) then before
      else
        var outcome := LineOutcome(p.rows, line);
        if outcome.Lines? then Lines(before.inputs + outcome.inputs) else outcome
  }

  function InputTotal(inputs: seq<LineInput>): int {
    if inputs == [] then 0 else InputTotal(inputs[..|inputs| - 1]) + inputs[|inputs| - 1].amount
  }

  function Expected(p: Preview, storageOnly: bool): int {
    if storageOnly then p.summary.storage else p.summary.grand
  }

  function Built(p: Preview, storageOnly: bool): Outcome {
    var outcome := BuiltTo(p, storageOnly, |p.lines|);
    if outcome.Lines? && InputTotal(outcome.inputs) != Expected(p, storageOnly) then TotalMismatch else outcome
  }

  lemma {:induction false} RefusedForGood(p: Preview, storageOnly: bool, i: nat, n: nat)
    requires i <= n <= |p.lines| && !BuiltTo(p, storageOnly, i).Lines?
    ensures BuiltTo(p, storageOnly, n) == BuiltTo(p, storageOnly, i)
    decreases n
  {
    if i < n {
      RefusedForGood(p, storageOnly, i, n - 1);
    }
  }

  method IndexRows(rows: seq<StorageEntry>) returns (index: map<string, StorageEntry>)
    ensures forall c :: c in index <==> RowOf(rows, c).Some?
    ensures forall c :: c in index ==> index[c] == RowOf(rows, c).value
  {
    index := map[];
    for i := 0 to |rows|
      invariant forall c :: c in index <==> RowOf(rows[..i], c).Some?
      invariant forall c :: c in index ==> index[c] == RowOf(rows[..i], c).value
    {
      assert rows[..i + 1][..i] == rows[..i];
      index := index[rows[i].container := rows[i]];
    }
    assert rows[..|rows|] == rows;
  }

  /** One line, or the reason to refuse it. */
  method BuildLine(ghost rows: seq<StorageEntry>, index: map<string, StorageEntry>, line: PreviewLine)
    returns (outcome: Outcome)
    requires forall c :: c in index <==> RowOf(rows, c).Some?
    requires forall c :: c in index ==> index[c] == RowOf(rows, c).value
    ensures outcome == LineOutcome(rows, line)
  {
    if line.container == UNASSIGNED {
      return Unassigned;
    }
    if line.charge != STORAGE {
      return Lines([LineInput(line.charge, line.container, line.amount, None)]);
    }
    if line.container !in index {
      return MissingDetail;
    }
    return Lines([LineInput(line.charge, line.container, line.amount, Some(DetailsOf(index[line.container].row)))]);
  }

  method BuildInvoiceLines(p: Preview, storageOnly: bool) returns (outcome: Outcome)
    ensures outcome == Built(p, storageOnly)
  {
    var index := IndexRows(p.rows);
    var inputs, total := [], 0;
    for i := 0 to |p.lines|
      invariant BuiltTo(p, storageOnly, i) == Lines(inputs) && total == InputTotal(inputs)
    {
      var line := p.lines[i];
      if Chosen(line, storageOnly) {
        var built := BuildLine(p.rows, index, line);
        if !built.Lines? {
          RefusedForGood(p, storageOnly, i + 1, |p.lines|);
          return built;
        }
        assert (inputs + built.inputs)[..|inputs|] == inputs;
        inputs, total := inputs + built.inputs, total + line.amount;
      }
    }
    outcome := if total != Expected(p, storageOnly) then TotalMismatch else Lines(inputs);
  }

  // ----- the refusals that cannot happen

  lemma {:induction false} RowExists(rows: seq<StorageEntry>, k: nat)
    requires k < |rows|
    ensures RowOf(rows, rows[k].container).Some?
  {
    if k < |rows| - 1 {
      RowExists(rows[..|rows| - 1], k);
    }
  }

  function FourAmounts(lines: seq<PreviewLine>): int {
    AmountFor(lines, INBOUND) + AmountFor(lines, WRAPPING) + AmountFor(lines, STORAGE) + AmountFor(lines, OUTBOUND)
  }

  predicate Billed(line: PreviewLine) {
    IsFee(line.charge) || line.charge == STORAGE
  }

  function AmountTo(p: Preview, storageOnly: bool, n: nat): int
    requires n <= |p.lines|
  {
    if storageOnly then AmountFor(p.lines[..n], STORAGE) else FourAmounts(p.lines[..n])
  }

  lemma OneMoreAmount(p: Preview, storageOnly: bool, n: nat)
    requires n < |p.lines| && Billed(p.lines[n])
    ensures AmountTo(p, storageOnly, n + 1)
         == AmountTo(p, storageOnly, n) + if Chosen(p.lines[n], storageOnly) then p.lines[n].amount else 0
  {
    assert p.lines[..n + 1][..n] == p.lines[..n];
  }

  predicate UnassignedBefore(p: Preview, storageOnly: bool, n: nat)
    requires n <= |p.lines|
  {
    exists i :: 0 <= i < n && Chosen(p.lines[i], storageOnly) && p.lines[i].container == UNASSIGNED
  }

  ghost predicate RowsComplete(p: Preview) {
    forall i :: 0 <= i < |p.lines| ==>
      Billed(p.lines[i]) && (p.lines[i].charge == STORAGE ==> RowOf(p.rows, p.lines[i].container).Some?)
  }

  lemma BuiltStep(p: Preview, storageOnly: bool, n: nat)
    requires n < |p.lines| && RowsComplete(p) && BuiltTo(p, storageOnly, n).Lines?
    ensures var line, before := p.lines[n], BuiltTo(p, storageOnly, n).inputs;
            BuiltTo(p, storageOnly, n + 1)
            == if !Chosen(line, storageOnly) then Lines(before)
               else if line.container == UNASSIGNED then Unassigned
               else Lines(before + [InputOf(p.rows, line)])
  {
  }

  lemma {:induction false} NeverMissing(p: Preview, storageOnly: bool, n: nat)
    requires n <= |p.lines| && RowsComplete(p)
    ensures BuiltTo(p, storageOnly, n).Lines? || BuiltTo(p, storageOnly, n).Unassigned?
    ensures BuiltTo(p, storageOnly, n).Unassigned? <==> UnassignedBefore(p, storageOnly, n)
  {
    if n > 0 {
      NeverMissing(p, storageOnly, n - 1);
      if BuiltTo(p, storageOnly, n - 1).Lines? {
        BuiltStep(p, storageOnly, n - 1);
      }
    }
  }

  lemma OneMoreInput(inputs: seq<LineInput>, input: LineInput)
    ensures InputTotal(inputs + [input]) == InputTotal(inputs) + input.amount
  {
    assert (inputs + [input])[..|inputs|] == inputs;
  }

  lemma TotalStep(p: Preview, storageOnly: bool, n: nat)
    requires n < |p.lines| && RowsComplete(p) && BuiltTo(p, storageOnly, n).Lines? && BuiltTo(p, storageOnly, n + 1).Lines?
    requires InputTotal(BuiltTo(p, storageOnly, n).inputs) == AmountTo(p, storageOnly, n)
    ensures InputTotal(BuiltTo(p, storageOnly, n + 1).inputs) == AmountTo(p, storageOnly, n + 1)
  {
    OneMoreAmount(p, storageOnly, n);
    BuiltStep(p, storageOnly, n);
    OneMoreInput(BuiltTo(p, storageOnly, n).inputs, InputOf(p.rows, p.lines[n]));
  }

  lemma BuiltBefore(p: Preview, storageOnly: bool, n: nat)
    requires n < |p.lines| && BuiltTo(p, storageOnly, n + 1).Lines?
    ensures BuiltTo(p, storageOnly, n).Lines?
  {
  }

  lemma NoAmount(p: Preview, storageOnly: bool)
    ensures AmountTo(p, storageOnly, 0) == 0 == InputTotal([])
  {
    assert p.lines[..0] == [];
  }

  lemma {:induction false} TotalBuilt(p: Preview, storageOnly: bool, n: nat)
    requires n <= |p.lines| && RowsComplete(p) && BuiltTo(p, storageOnly, n).Lines?
    ensures InputTotal(BuiltTo(p, storageOnly, n).inputs) == AmountTo(p, storageOnly, n)
  {
    if n == 0 {
      NoAmount(p, storageOnly);
    } else {
      BuiltBefore(p, storageOnly, n - 1);
      TotalBuilt(p, storageOnly, n - 1);
      TotalStep(p, storageOnly, n - 1);
    }
  }

  lemma AssembledIsComplete(p: Preview, charges: seq<Charge>, rows: seq<StorageEntry>)
    requires Assembled(p, charges, rows) && forall k :: 0 <= k < |charges| ==> IsFee(charges[k].charge)
    ensures RowsComplete(p)
  {
    forall i | 0 <= i < |p.lines|
      ensures Billed(p.lines[i])
      ensures p.lines[i].charge == STORAGE ==> RowOf(p.rows, p.lines[i].container).Some?
    {
      AssembledLine(p, charges, rows, i);
      if k :| 0 <= k < |rows| && p.lines[i] == StorageLine(rows[k]) {
        RowExists(rows, k);
      }
    }
  }

  lemma SummaryTotals(p: Preview, rows: seq<StorageEntry>, storageOnly: bool)
    requires p.summary == Summarized(p.lines, rows)
    ensures Expected(p, storageOnly) == AmountTo(p, storageOnly, |p.lines|)
  {
    assert p.lines[..|p.lines|] == p.lines;
  }

  lemma CompleteIsBuilt(p: Preview, storageOnly: bool)
    requires RowsComplete(p) && Expected(p, storageOnly) == AmountTo(p, storageOnly, |p.lines|)
    ensures Built(p, storageOnly) == BuiltTo(p, storageOnly, |p.lines|)
    ensures Built(p, storageOnly).Lines? || Built(p, storageOnly).Unassigned?
    ensures Built(p, storageOnly).Unassigned? <==> UnassignedBefore(p, storageOnly, |p.lines|)
  {
    NeverMissing(p, storageOnly, |p.lines|);
    if BuiltTo(p, storageOnly, |p.lines|).Lines? {
      TotalBuilt(p, storageOnly, |p.lines|);
    }
  }

  /**
    A calculated preview is refused only because a line has no source container; its storage
    details are never missing and its total never differs.
   */
  lemma OnlyUnassignedIsRefused(p: Preview, charges: seq<Charge>, rows: seq<StorageEntry>, storageOnly: bool)
    requires Assembled(p, charges, rows) && forall k :: 0 <= k < |charges| ==> IsFee(charges[k].charge)
    ensures Built(p, storageOnly) == BuiltTo(p, storageOnly, |p.lines|)
    ensures Built(p, storageOnly).Lines? || Built(p, storageOnly).Unassigned?
    ensures Built(p, storageOnly).Unassigned? <==> UnassignedBefore(p, storageOnly, |p.lines|)
  {
    AssembledIsComplete(p, charges, rows);
    SummaryTotals(p, rows, storageOnly);
    CompleteIsBuilt(p, storageOnly);
  }

  // ----- the stored total

  lemma {:induction false} BuiltCharges(p: Preview, storageOnly: bool, n: nat, i: nat)
    requires n <= |p.lines| && BuiltTo(p, storageOnly, n).Lines? && i < |BuiltTo(p, storageOnly, n).inputs|
    ensures exists k :: 0 <= k < n && BuiltTo(p, storageOnly, n).inputs[i] == InputOf(p.rows, p.lines[k])
  {
    var inputs := BuiltTo(p, storageOnly, n).inputs;
    var before := BuiltTo(p, storageOnly, n - 1);
    if i < |before.inputs| {
      BuiltCharges(p, storageOnly, n - 1, i);
    } else {
      assert inputs[i] == InputOf(p.rows, p.lines[n - 1]);
    }
  }

  lemma {:induction false} DrawnTotals(inputs: seq<LineInput>, nextLine: int)
    requires forall i :: 0 <= i < |inputs| ==> inputs[i].charge != DISCOUNT
    ensures SumOf(Drawn(inputs, nextLine), false) == InputTotal(inputs)
    ensures SumOf(Drawn(inputs, nextLine), true) == 0
  {
    if inputs != [] {
      var n := |inputs| - 1;
      DrawnTotals(inputs[..n], nextLine);
      var before := Drawn(inputs[..n], nextLine);
      assert Drawn(inputs, nextLine)[..|before|] == before;
      assert Drawn(inputs, nextLine)[|before|].charge == inputs[n].charge;
      assert |Drawn(inputs, nextLine)| == |before| + 1;
    }
  }

  lemma CreatedTotals(book: Book, scope: InvoiceLifecycle.Scope, inputs: seq<LineInput>)
    requires forall i :: 0 <= i < |inputs| ==> inputs[i].charge != DISCOUNT
    requires Write(book, Create(scope, inputs), NOTHING).Ok?
    ensures var invoices := Write(book, Create(scope, inputs), NOTHING).value.invoices;
            && book.nextInvoice in invoices
            && var invoice := invoices[book.nextInvoice];
               invoice.status == Draft && invoice.lines == Drawn(inputs, book.nextLine)
               && invoice.grand == InputTotal(inputs) == invoice.subtotal && invoice.discount == 0
  {
    DrawnTotals(inputs, book.nextLine);
  }

  /** Why generating an invoice can be refused. */
  predicate Refuses(book: Book, p: Preview, storageOnly: bool, scope: InvoiceLifecycle.Scope) {
    || (storageOnly && scope.containerType.None?)
    || !Built(p, storageOnly).Lines? || Built(p, storageOnly).inputs == []
    || Apply(book, Create(scope, Built(p, storageOnly).inputs)).Err?
  }

  /** Generates an invoice from a calculated preview; what is stored is the total that was shown. */
  method GenerateInvoice(store: Store, p: Preview, storageOnly: bool, scope: InvoiceLifecycle.Scope,
                         ghost charges: seq<Charge>, ghost rows: seq<StorageEntry>)
    returns (refused: bool, id: int)
    requires Assembled(p, charges, rows) && forall k :: 0 <= k < |charges| ==> IsFee(charges[k].charge)
    modifies store
    ensures refused <==> Refuses(old(store.State()), p, storageOnly, scope)
    ensures refused ==> store.State() == old(store.State())
    ensures !refused ==>
              && id == old(store.nextInvoice) && id in store.invoices
              && store.invoices == old(store.invoices)[id := store.invoices[id]]
              && store.invoices[id].status == Draft && store.invoices[id].scope == scope
              && store.invoices[id].lines == Drawn(Built(p, storageOnly).inputs, old(store.nextLine))
              && store.invoices[id].grand == Expected(p, storageOnly) == store.invoices[id].subtotal
              && store.invoices[id].discount == 0
  {
    id := store.nextInvoice;
    if storageOnly && scope.containerType.None? {
      return true, id;
    }
    var outcome := BuildInvoiceLines(p, storageOnly);
    if !outcome.Lines? || outcome.inputs == [] {
      return true, id;
    }
    NoDiscounts(p, charges, rows, storageOnly);
    var error := store.CreateInvoice(scope, outcome.inputs);
    refused := error.Some?;
    if !refused {
      CreatedTotals(old(store.State()), scope, outcome.inputs);
    }
  }

  lemma NoDiscounts(p: Preview, charges: seq<Charge>, rows: seq<StorageEntry>, storageOnly: bool)
    requires Assembled(p, charges, rows) && forall k :: 0 <= k < |charges| ==> IsFee(charges[k].charge)
    requires Built(p, storageOnly).Lines?
    ensures forall i :: 0 <= i < |Built(p, storageOnly).inputs| ==> Built(p, storageOnly).inputs[i].charge != DISCOUNT
  {
    forall i | 0 <= i < |Built(p, storageOnly).inputs|
      ensures Built(p, storageOnly).inputs[i].charge != DISCOUNT
    {
      BuiltCharges(p, storageOnly, |p.lines|, i);
      var k :| 0 <= k < |p.lines| && Built(p, storageOnly).inputs[i] == InputOf(p.rows, p.lines[k]);
      AssembledLine(p, charges, rows, k);
    }
  }

  // ----- the breakdown by container

  datatype Detail = Detail(inbound: int, wrapping: int, storage: int, outbound: int, adjustment: int,
                           gross: int, discount: int, total: int, count: nat)

  const BLANK := Detail(0, 0, 0, 0, 0, 0, 0, 0, 0)

  /** A gross of zero next to an amount or a discount is taken as not told. */
  function GrossTold(line: Line): int {
    if line.details.None? then line.amount
    else
      var d := line.details.value;
      if d.gross == 0 && (line.amount != 0 || d.discount != 0) then line.amount + d.discount else d.gross
  }

  function Added(d: Detail, line: Line): Detail {
    var e := d.(total := d.total + line.amount, count := d.count + 1);
    if line.charge == INBOUND then e.(inbound := e.inbound + line.amount)
    else if line.charge == WRAPPING then e.(wrapping := e.wrapping + line.amount)
    else if line.charge == STORAGE then
      e.(storage := e.storage + line.amount, gross := e.gross + GrossTold(line),
         discount := e.discount + if line.details.Some? then line.details.value.discount else 0)
    else if line.charge == OUTBOUND then e.(outbound := e.outbound + line.amount)
    else e.(adjustment := e.adjustment + line.amount)
  }

  function Detailed(lines: seq<Line>, c: string): Detail {
    if lines == [] then BLANK
    else
      var before, line := Detailed(lines[..|lines| - 1], c), lines[|lines| - 1];
      if line.container == c then Added(before, line) else before
  }

  /** Lines without a container are kept under a key of their own. */
  method BuildContainerDetails(lines: seq<Line>) returns (details: map<string, Detail>)
    ensures details.Keys == ContainersOf(lines)
    ensures forall c :: c in details ==> details[c] == Detailed(lines, c)
  {
    details := map[];
    for i := 0 to |lines|
      invariant details.Keys == ContainersOf(lines[..i])
      invariant forall c :: (if c in details then details[c] else BLANK) == Detailed(lines[..i], c)
    {
      assert lines[..i + 1][..i] == lines[..i];
      ContainersGrow(lines, i);
      var c := lines[i].container;
      details := details[c := Added(if c in details then details[c] else BLANK, lines[i])];
    }
    assert lines[..|lines|] == lines;
  }

  lemma ContainersGrow(lines: seq<Line>, i: nat)
    requires i < |lines|
    ensures ContainersOf(lines[..i + 1]) == ContainersOf(lines[..i]) + {lines[i].container}
  {
    assert lines[..i + 1][i] == lines[i];
    forall j | 0 <= j < i
      ensures lines[..i + 1][j] == lines[..i][j]
    {
    }
  }

  /** Every container's total splits by kind of charge. */
  lemma {:induction false} DetailSplits(lines: seq<Line>, c: string)
    ensures var d := Detailed(lines, c);
            d.total == d.inbound + d.wrapping + d.storage + d.outbound + d.adjustment
  {
    if lines != [] {
      DetailSplits(lines[..|lines| - 1], c);
    }
  }

  /** What the lines charge a container, by kind. */
  function ChargedFor(lines: seq<Line>, c: string, kind: string): int {
    if lines == [] then 0
    else
      var line := lines[|lines| - 1];
      ChargedFor(lines[..|lines| - 1], c, kind) + if line.container == c && line.charge == kind then line.amount else 0
  }

  /** The discount that its storage lines tell. */
  function DiscountFor(lines: seq<Line>, c: string): int {
    if lines == [] then 0
    else
      var line := lines[|lines| - 1];
      DiscountFor(lines[..|lines| - 1], c)
      + if line.container == c && line.charge == STORAGE && line.details.Some? then line.details.value.discount else 0
  }

  function LinesFor(lines: seq<Line>, c: string): nat {
    if lines == [] then 0 else LinesFor(lines[..|lines| - 1], c) + if lines[|lines| - 1].container == c then 1 else 0
  }

  /** Each figure of a container's breakdown is the sum over its own lines of that kind. */
  lemma {:induction false} DetailTells(lines: seq<Line>, c: string)
    ensures var d := Detailed(lines, c);
            && d.inbound == ChargedFor(lines, c, INBOUND) && d.wrapping == ChargedFor(lines, c, WRAPPING)
            && d.storage == ChargedFor(lines, c, STORAGE) && d.outbound == ChargedFor(lines, c, OUTBOUND)
            && d.discount == DiscountFor(lines, c) && d.count == LinesFor(lines, c)
  {
    if lines != [] {
      DetailTells(lines[..|lines| - 1], c);
      assert INBOUND[0] != WRAPPING[0] && INBOUND[0] != OUTBOUND[0] && INBOUND[0] != STORAGE[0];
      assert WRAPPING[0] != OUTBOUND[0] && WRAPPING[0] != STORAGE[0] && OUTBOUND[0] != STORAGE[0];
    }
  }

  /** By how much the storage lines of a container that do tell a gross miss their amount. */
  function Mistold(lines: seq<Line>, c: string): int {
    if lines == [] then 0
    else
      var line := lines[|lines| - 1];
      Mistold(lines[..|lines| - 1], c)
      + if line.container == c && line.charge == STORAGE && line.details.Some? && line.details.value.gross != 0
        then line.details.value.gross - line.details.value.discount - line.amount else 0
  }

  /** Storage gross less storage discount is the storage amount, but for what its own lines get wrong. */
  lemma {:induction false} GrossTells(lines: seq<Line>, c: string)
    ensures var d := Detailed(lines, c); d.gross - d.discount == d.storage + Mistold(lines, c)
  {
    if lines != [] {
      GrossTells(lines[..|lines| - 1], c);
    }
  }

  /** A line that tells no gross is taken to have the right one. */
  predicate TellsConsistently(line: Line) {
    line.details.Some? && line.details.value.gross != 0 ==> line.details.value.gross - line.details.value.discount == line.amount
  }

  /** And so exactly the storage amount when every line tells its own consistently. */
  lemma {:induction false} StorageNets(lines: seq<Line>, c: string)
    requires forall i :: 0 <= i < |lines| ==> TellsConsistently(lines[i])
    ensures var d := Detailed(lines, c); d.gross - d.discount == d.storage
  {
    if lines != [] {
      StorageNets(lines[..|lines| - 1], c);
    }
  }

  ghost function TotalOver(lines: seq<Line>, keys: set<string>): int {
    SumOver(keys, c => Detailed(lines, c).total)
  }

  lemma {:induction false} TotalsOverAnyKeys(lines: seq<Line>, keys: set<string>)
    requires ContainersOf(lines) <= keys
    ensures TotalOver(lines, keys) == SumOf(lines, false) + SumOf(lines, true)
  {
    if lines == [] {
      SumOverSuperset({}, keys, c => Detailed(lines, c).total);
    } else {
      var n := |lines| - 1;
      assert lines[..n + 1] == lines;
      ContainersGrow(lines, n);
      TotalsOverAnyKeys(lines[..n], keys);
      SumOverUpdate(keys, c => Detailed(lines[..n], c).total, c => Detailed(lines, c).total, lines[n].container);
    }
  }

  /** The container totals of an invoice add up to its stored grand total. */
  lemma ContainersAddUp(invoice: Invoice)
    requires TotalsMatch(invoice)
    ensures TotalOver(invoice.lines, ContainersOf(invoice.lines)) == invoice.grand
  {
    TotalsOverAnyKeys(invoice.lines, ContainersOf(invoice.lines));
  }
}
