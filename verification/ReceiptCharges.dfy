/**
  What a receipt is charged: the container fee on a container's first NORMAL receipt, and fees by
  pallet, on wrapping or on a transfer, over the pallets that its lines fill.
 */
module ReceiptCharges {
  import opened Sums
  import opened BillingMoney
  import opened InvoiceTotals
  import opened InboundFee
  import SortedSets
  import Lifecycle

  datatype ReceiptLine = ReceiptLine(documentId: int, sku: int, section: string, quantity: nat, pallets: nat)

  /** Lines of one document, SKU and section are filled together. */
  datatype Lot = Lot(documentId: int, sku: int, section: string)

  datatype Held = Held(quantity: nat, pallets: nat)

  /** The scope and the rates; key stands for the place of a document's charge in the final order. */
  datatype ReceiptTerms = ReceiptTerms(matches: Receipt -> bool, rule: Lifecycle.FillRule, containerFee: nat,
                                       transferFee: nat, wrappingFee: nat, name: int -> string, key: (string, int) -> int)

  // ----- the pallets of a receipt

  function LotOf(line: ReceiptLine): Lot {
    Lot(line.documentId, line.sku, line.section)
  }

  function Lots(lines: seq<ReceiptLine>): set<Lot> {
    set i | 0 <= i < |lines| :: LotOf(lines[i])
  }

  function HeldIn(lines: seq<ReceiptLine>, lot: Lot): Held {
    if lines == [] then Held(0, 0)
    else
      var before, line := HeldIn(lines[..|lines| - 1], lot), lines[|lines| - 1];
      if LotOf(line) == lot then Held(before.quantity + line.quantity, before.pallets + line.pallets) else before
  }

  /** All pallets on the lines of a receipt. */
  function Received(lines: seq<ReceiptLine>, documentId: int): nat {
    if lines == [] then 0
    else
      var line := lines[|lines| - 1];
      Received(lines[..|lines| - 1], documentId) + if line.documentId == documentId then line.pallets else 0
  }

  function FilledBy(held: Held, rule: Lifecycle.FillRule): nat {
    Lifecycle.BillablePallets(held.pallets * UNITS, held.quantity * UNITS, rule)
  }

  function FilledIn(lines: seq<ReceiptLine>, rule: Lifecycle.FillRule, documentId: int, lot: Lot): nat {
    if lot.documentId == documentId then FilledBy(HeldIn(lines, lot), rule) else 0
  }

  ghost function FilledOver(lines: seq<ReceiptLine>, rule: Lifecycle.FillRule, documentId: int, lots: set<Lot>): int {
    SumOver(lots, lot => FilledIn(lines, rule, documentId, lot))
  }

  /** The pallets that the lots of a receipt fill, in ten-thousandths. */
  ghost function Filled(lines: seq<ReceiptLine>, rule: Lifecycle.FillRule, documentId: int): int {
    FilledOver(lines, rule, documentId, Lots(lines))
  }

  ghost function Billable(lines: seq<ReceiptLine>, rule: Lifecycle.FillRule, documentId: int): int {
    if rule.excludeUnderfilled then Filled(lines, rule, documentId) else Received(lines, documentId) * UNITS
  }

  function PalletsIn(lines: seq<ReceiptLine>, documentId: int, lot: Lot): nat {
    if lot.documentId == documentId then HeldIn(lines, lot).pallets * UNITS else 0
  }

  lemma LotsGrow(lines: seq<ReceiptLine>, i: nat)
    requires i < |lines|
    ensures Lots(lines[..i + 1]) == Lots(lines[..i]) + {LotOf(lines[i])}
  {
    assert lines[..i + 1][i] == lines[i];
    forall j | 0 <= j < i
      ensures lines[..i + 1][j] == lines[..i][j]
    {
    }
  }

  lemma {:induction false} LotsHoldAll(lines: seq<ReceiptLine>, documentId: int, lots: set<Lot>)
    requires Lots(lines) <= lots
    ensures SumOver(lots, lot => PalletsIn(lines, documentId, lot)) == Received(lines, documentId) * UNITS
  {
    if lines == [] {
      SumOverSuperset({}, lots, lot => PalletsIn([], documentId, lot));
    } else {
      var n := |lines| - 1;
      assert lines[..n + 1] == lines;
      LotsGrow(lines, n);
      LotsHoldAll(lines[..n], documentId, lots);
      assert LotOf(lines[n]) in lots;
      SumOverUpdate(lots, lot => PalletsIn(lines[..n], documentId, lot), lot => PalletsIn(lines, documentId, lot), LotOf(lines[n]));
    }
  }

  /** A receipt is never billed for more pallets than it brought, and for all of them when lots need not be full. */
  lemma BillableIsReceived(lines: seq<ReceiptLine>, rule: Lifecycle.FillRule, documentId: int)
    ensures 0 <= Billable(lines, rule, documentId) <= Received(lines, documentId) * UNITS
    ensures !rule.excludeUnderfilled || rule.minimum == 0 ==> Billable(lines, rule, documentId) == Received(lines, documentId) * UNITS
  {
    var lots := Lots(lines);
    forall lot
      ensures 0 <= FilledIn(lines, rule, documentId, lot) <= PalletsIn(lines, documentId, lot)
      ensures rule.minimum == 0 ==> FilledIn(lines, rule, documentId, lot) == PalletsIn(lines, documentId, lot)
    {
      var held := HeldIn(lines, lot);
      Lifecycle.BillableIsBacked(held.pallets * UNITS, held.quantity * UNITS, rule);
    }
    LotsHoldAll(lines, documentId, lots);
    SumOverAtMost(lots, lot => FilledIn(lines, rule, documentId, lot), lot => PalletsIn(lines, documentId, lot));
    SumOverAtMost(lots, lot => 0, lot => FilledIn(lines, rule, documentId, lot));
    SumOverSuperset({}, lots, lot => 0);
    if rule.minimum == 0 {
      SumOverEqual(lots, lot => FilledIn(lines, rule, documentId, lot), lot => PalletsIn(lines, documentId, lot));
    }
  }

  function HeldAt(lots: map<Lot, Held>, lot: Lot): Held {
    if lot in lots then lots[lot] else Held(0, 0)
  }

  function FilledAt(filled: map<int, int>, documentId: int): int {
    if documentId in filled then filled[documentId] else 0
  }

  method CollectLots(lines: seq<ReceiptLine>) returns (lots: map<Lot, Held>)
    ensures lots.Keys == Lots(lines) && forall lot :: HeldAt(lots, lot) == HeldIn(lines, lot)
  {
    lots := map[];
    for i := 0 to |lines|
      invariant lots.Keys == Lots(lines[..i]) && forall lot :: HeldAt(lots, lot) == HeldIn(lines[..i], lot)
    {
      LotsGrow(lines, i);
      assert lines[..i + 1][..i] == lines[..i];
      var lot := LotOf(lines[i]);
      var held := HeldAt(lots, lot);
      lots := lots[lot := Held(held.quantity + lines[i].quantity, held.pallets + lines[i].pallets)];
    }
    assert lines[..|lines|] == lines;
  }

  /** The pallets that every document fills, from its lots in any order. */
  method FillByDocument(lines: seq<ReceiptLine>, rule: Lifecycle.FillRule) returns (filled: map<int, int>)
    ensures forall id :: FilledAt(filled, id) == Filled(lines, rule, id)
  {
    var lots := CollectLots(lines);
    filled := map[];
    var rest := lots.Keys;
    assert lots.Keys - rest == {} && forall id :: FilledOver(lines, rule, id, {}) == 0;
    while rest != {}
      invariant rest <= lots.Keys
      invariant forall id :: FilledAt(filled, id) == FilledOver(lines, rule, id, lots.Keys - rest)
      decreases rest
    {
      var lot := SortedSets.PickOne(rest);
      ghost var done := lots.Keys - rest;
      assert lots[lot] == HeldAt(lots, lot);
      forall id
        ensures FilledOver(lines, rule, id, done + {lot}) == FilledOver(lines, rule, id, done) + FilledIn(lines, rule, id, lot)
      {
        SumOverAdd(done, l => FilledIn(lines, rule, id, l), lot);
      }
      filled := filled[lot.documentId := FilledAt(filled, lot.documentId) + FilledBy(lots[lot], rule)];
      rest := rest - {lot};
      assert lots.Keys - rest == done + {lot};
    }
    assert lots.Keys - rest == Lots(lines);
  }

  // ----- the charges

  function Cents(quantity: nat, rate: nat): nat {
    Round(quantity * rate, FEE_DEN)
  }

  function ChargesTotal(charges: seq<Charge>, kind: string): int {
    if charges == [] then 0
    else
      var c := charges[|charges| - 1];
      ChargesTotal(charges[..|charges| - 1], kind) + if c.charge == kind then Cents(c.quantity, c.rate) else 0
  }

  /** A charge for something, or none for nothing. */
  function OneCharge(kind: string, container: string, quantity: nat, rate: nat, key: int): seq<Charge> {
    if quantity == 0 then [] else [Charge(kind, container, quantity, rate, key)]
  }

  lemma OneChargeTotal(kind: string, container: string, quantity: nat, rate: nat, key: int, k: string)
    ensures ChargesTotal(OneCharge(kind, container, quantity, rate, key), k) == if k == kind then Cents(quantity, rate) else 0
  {
    var charges := OneCharge(kind, container, quantity, rate, key);
    if quantity == 0 {
      assert Cents(0, rate) == 0;
    } else {
      assert charges[..0] == [];
    }
  }

  /**
    What a receipt owes for a period, by kind of charge. Only a container's first NORMAL receipt
    among the known ones owes the container fee; a transfer owes by pallet, any other wrapping.
   */
  ghost function Due(t: ReceiptTerms, known: seq<Receipt>, lines: seq<ReceiptLine>, r: Receipt, kind: string, lo: int, hi: int): int {
    var pallets := Lifecycle.NonNegativePart(Billable(lines, t.rule, r.id));
    if !(lo <= r.day < hi) || !t.matches(r) then 0
    else if kind == INBOUND then
      if !r.normal then Cents(pallets, t.transferFee)
      else if IsInitial(known, r.container, r) then Cents(UNITS, t.containerFee) else 0
    else if kind == WRAPPING && r.normal then Cents(pallets, t.wrappingFee)
    else 0
  }

  ghost function DueOf(t: ReceiptTerms, known: seq<Receipt>, lines: seq<ReceiptLine>, receipts: seq<Receipt>, kind: string,
                       lo: int, hi: int): int
  {
    if receipts == [] then 0
    else
      DueOf(t, known, lines, receipts[..|receipts| - 1], kind, lo, hi)
      + Due(t, known, lines, receipts[|receipts| - 1], kind, lo, hi)
  }

  ghost predicate ReceiptKinds(charges: seq<Charge>) {
    forall i :: 0 <= i < |charges| ==> charges[i].charge == INBOUND || charges[i].charge == WRAPPING
  }

  lemma {:induction false} ChargesConcat(a: seq<Charge>, b: seq<Charge>, kind: string)
    ensures ChargesTotal(a + b, kind) == ChargesTotal(a, kind) + ChargesTotal(b, kind)
  {
    if b == [] {
      assert a + b == a;
    } else {
      ChargesConcat(a, b[..|b| - 1], kind);
      assert (a + b)[..|a + b| - 1] == a + b[..|b| - 1];
    }
  }

  lemma ReceiptTotals(inbound: seq<Charge>, wrapping: seq<Charge>, t: ReceiptTerms, r: Receipt, quantity: nat, rate: nat, pallets: nat)
    requires inbound == OneCharge(INBOUND, t.name(r.container), quantity, rate, t.key(INBOUND, r.id))
    requires wrapping == OneCharge(WRAPPING, t.name(r.container), if r.normal then pallets else 0, t.wrappingFee, t.key(WRAPPING, r.id))
    ensures ChargesTotal(inbound, INBOUND) == Cents(quantity, rate) && ChargesTotal(inbound, WRAPPING) == 0
    ensures ChargesTotal(wrapping, INBOUND) == 0
    ensures ChargesTotal(wrapping, WRAPPING) == if r.normal then Cents(pallets, t.wrappingFee) else 0
    ensures Cents(0, rate) == 0
  {
    assert INBOUND[0] != WRAPPING[0];
    var name, wrapped := t.name(r.container), if r.normal then pallets else 0;
    OneChargeTotal(INBOUND, name, quantity, rate, t.key(INBOUND, r.id), INBOUND);
    OneChargeTotal(INBOUND, name, quantity, rate, t.key(INBOUND, r.id), WRAPPING);
    OneChargeTotal(WRAPPING, name, wrapped, t.wrappingFee, t.key(WRAPPING, r.id), INBOUND);
    OneChargeTotal(WRAPPING, name, wrapped, t.wrappingFee, t.key(WRAPPING, r.id), WRAPPING);
    assert Cents(0, rate) == 0 == Cents(0, t.wrappingFee);
  }

  /** The charges of one receipt in range and in scope. */
  method ChargeReceipt(t: ReceiptTerms, r: Receipt, first: bool, pallets: nat) returns (charges: seq<Charge>)
    ensures ReceiptKinds(charges)
    ensures ChargesTotal(charges, INBOUND)
         == if !r.normal then Cents(pallets, t.transferFee) else if first then Cents(UNITS, t.containerFee) else 0
    ensures ChargesTotal(charges, WRAPPING) == if r.normal then Cents(pallets, t.wrappingFee) else 0
  {
    var quantity, rate := if !r.normal then pallets else if first then UNITS else 0, if r.normal then t.containerFee else t.transferFee;
    var inbound := OneCharge(INBOUND, t.name(r.container), quantity, rate, t.key(INBOUND, r.id));
    var wrapping := OneCharge(WRAPPING, t.name(r.container), if r.normal then pallets else 0, t.wrappingFee, t.key(WRAPPING, r.id));
    charges := inbound + wrapping;
    assert INBOUND[0] != WRAPPING[0];
    forall kind
      ensures ChargesTotal(charges, kind) == ChargesTotal(inbound, kind) + ChargesTotal(wrapping, kind)
    {
      ChargesConcat(inbound, wrapping, kind);
    }
    ReceiptTotals(inbound, wrapping, t, r, quantity, rate, pallets);
  }

  lemma FirstIsInitial(receipts: seq<Receipt>, initial: map<int, Receipt>, r: Receipt)
    requires DistinctIds(receipts) && Initials(initial, receipts) && r in receipts && r.normal
    ensures initial[r.container].id == r.id <==> IsInitial(receipts, r.container, r)
  {
    assert IsInitial(receipts, r.container, initial[r.container]);
    if IsInitial(receipts, r.container, r) {
      InitialIsUnique(receipts, r.container, r, initial[r.container]);
    }
  }

  /** The charges of all receipts add up to what each of them owes. */
  method ChargeReceipts(t: ReceiptTerms, receipts: seq<Receipt>, lines: seq<ReceiptLine>, lo: int, hi: int)
    returns (charges: seq<Charge>)
    requires DistinctIds(receipts)
    ensures ReceiptKinds(charges)
    ensures ChargesTotal(charges, INBOUND) == DueOf(t, receipts, lines, receipts, INBOUND, lo, hi)
    ensures ChargesTotal(charges, WRAPPING) == DueOf(t, receipts, lines, receipts, WRAPPING, lo, hi)
  {
    var initial := InitialNormalReceipts(receipts);
    var filled := FillByDocument(lines, t.rule);
    charges := [];
    for i := 0 to |receipts|
      invariant ReceiptKinds(charges)
      invariant ChargesTotal(charges, INBOUND) == DueOf(t, receipts, lines, receipts[..i], INBOUND, lo, hi)
      invariant ChargesTotal(charges, WRAPPING) == DueOf(t, receipts, lines, receipts[..i], WRAPPING, lo, hi)
    {
      var r := receipts[i];
      assert receipts[..i + 1][..i] == receipts[..i];
      if lo <= r.day < hi && t.matches(r) {
        var pallets := if t.rule.excludeUnderfilled then FilledAt(filled, r.id) else Received(lines, r.id) * UNITS;
        BillableIsReceived(lines, t.rule, r.id);
        if r.normal {
          FirstIsInitial(receipts, initial, r);
        }
        var more := ChargeReceipt(t, r, r.normal && initial[r.container].id == r.id, pallets);
        ChargesConcat(charges, more, INBOUND);
        ChargesConcat(charges, more, WRAPPING);
        assert INBOUND[0] != WRAPPING[0];
        charges := charges + more;
      }
    }
    assert receipts[..|receipts|] == receipts;
  }

  // ----- consecutive periods

  lemma KnownInitial(receipts: seq<Receipt>, before: int, r: Receipt)
    requires r.day < before
    ensures IsInitial(ReceivedBefore(receipts, before), r.container, r) <==> IsInitial(receipts, r.container, r)
  {
    forall s {
      ReceivedBeforeMembers(receipts, before, s);
    }
  }

  /** Receipts that are not known yet owe nothing, and decide nothing. */
  lemma {:induction false} KnownDue(t: ReceiptTerms, all: seq<Receipt>, lines: seq<ReceiptLine>, receipts: seq<Receipt>,
                                    kind: string, lo: int, hi: int, before: int)
    requires hi <= before
    ensures DueOf(t, ReceivedBefore(all, before), lines, ReceivedBefore(receipts, before), kind, lo, hi)
         == DueOf(t, all, lines, receipts, kind, lo, hi)
  {
    if receipts != [] {
      var n := |receipts| - 1;
      var r, rest := receipts[n], ReceivedBefore(receipts[..n], before);
      KnownDue(t, all, lines, receipts[..n], kind, lo, hi, before);
      if r.day < before {
        KnownInitial(all, before, r);
        assert (rest + [r])[..|rest|] == rest;
      } else {
        assert rest + [] == rest;
      }
    }
  }

  lemma {:induction false} DueSplits(t: ReceiptTerms, known: seq<Receipt>, lines: seq<ReceiptLine>, receipts: seq<Receipt>,
                                     kind: string, lo: int, cut: int, hi: int)
    requires lo <= cut <= hi
    ensures DueOf(t, known, lines, receipts, kind, lo, hi)
         == DueOf(t, known, lines, receipts, kind, lo, cut) + DueOf(t, known, lines, receipts, kind, cut, hi)
  {
    if receipts != [] {
      DueSplits(t, known, lines, receipts[..|receipts| - 1], kind, lo, cut, hi);
    }
  }

  /** Billing receipts in two parts, each from those known at its own end, charges exactly the same. */
  lemma ReceiptsAddUp(t: ReceiptTerms, all: seq<Receipt>, lines: seq<ReceiptLine>, kind: string, lo: int, cut: int, hi: int)
    requires lo <= cut <= hi
    ensures var first, whole := ReceivedBefore(all, cut), ReceivedBefore(all, hi);
            DueOf(t, whole, lines, whole, kind, lo, hi)
            == DueOf(t, first, lines, first, kind, lo, cut) + DueOf(t, whole, lines, whole, kind, cut, hi)
  {
    KnownDue(t, all, lines, all, kind, lo, hi, hi);
    KnownDue(t, all, lines, all, kind, lo, cut, cut);
    KnownDue(t, all, lines, all, kind, cut, hi, hi);
    DueSplits(t, all, lines, all, kind, lo, cut, hi);
  }
}
