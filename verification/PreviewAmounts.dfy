/**
  What pallets are charged for: a lot of a receipt, or a bucket of shipments, for the most pallets
  that are there and that its pieces fill; and for storage at a warehouse, what happened there.
 */
module PreviewAmounts {
  import opened Wrappers
  import opened Sums
  import opened BillingMoney
  import opened InvoiceTotals
  import opened ReceiptCharges
  import opened PreviewSources
  import opened OutboundPlaces
  import Lifecycle
  import Out = OutboundPallets

  /** The largest number of pallets, in ten-thousandths, that is there and that the pieces fill. */
  ghost predicate IsMost(billed: nat, pallets: nat, pieces: nat, rule: Lifecycle.FillRule) {
    && Lifecycle.Backed(billed, pallets * UNITS, pieces * UNITS, rule)
    && forall more: nat :: billed < more ==> !Lifecycle.Backed(more, pallets * UNITS, pieces * UNITS, rule)
  }

  // ----- receipts

  predicate IsIn(line: ReceiptLine, documentId: int, sku: int, section: string) {
    line.documentId == documentId && line.sku == sku && line.section == section
  }

  function PiecesOf(lines: seq<ReceiptLine>, documentId: int, sku: int, section: string): nat {
    if lines == [] then 0
    else
      var line := lines[|lines| - 1];
      PiecesOf(lines[..|lines| - 1], documentId, sku, section) + if IsIn(line, documentId, sku, section) then line.quantity else 0
  }

  function PalletsOf(lines: seq<ReceiptLine>, documentId: int, sku: int, section: string): nat {
    if lines == [] then 0
    else
      var line := lines[|lines| - 1];
      PalletsOf(lines[..|lines| - 1], documentId, sku, section) + if IsIn(line, documentId, sku, section) then line.pallets else 0
  }

  lemma {:induction false} LotHolds(lines: seq<ReceiptLine>, documentId: int, sku: int, section: string)
    ensures HeldIn(lines, Lot(documentId, sku, section))
         == Held(PiecesOf(lines, documentId, sku, section), PalletsOf(lines, documentId, sku, section))
  {
    if lines != [] {
      LotHolds(lines[..|lines| - 1], documentId, sku, section);
    }
  }

  /** A receipt's goods of one SKU and section are billed together, for the most pallets that they fill. */
  lemma LotTells(lines: seq<ReceiptLine>, rule: Lifecycle.FillRule, documentId: int, sku: int, section: string)
    ensures Lot(documentId, sku, section) in Lots(lines) <==> exists i :: 0 <= i < |lines| && IsIn(lines[i], documentId, sku, section)
    ensures IsMost(FilledIn(lines, rule, documentId, Lot(documentId, sku, section)),
                   PalletsOf(lines, documentId, sku, section), PiecesOf(lines, documentId, sku, section), rule)
  {
    var lot := Lot(documentId, sku, section);
    LotHolds(lines, documentId, sku, section);
    Lifecycle.BillableIsMost(HeldIn(lines, lot).pallets * UNITS, HeldIn(lines, lot).quantity * UNITS, rule);
    if i :| 0 <= i < |lines| && IsIn(lines[i], documentId, sku, section) {
      assert LotOf(lines[i]) == lot;
    }
  }

  // ----- shipments

  /** What the first n lines shipped in a period out of a bucket's place under its document and SKU. */
  function PiecesBetween(shipped: seq<DatedLine>, lo: int, hi: int, b: Out.Bucket, n: nat): nat
    requires n <= |shipped|
  {
    if n == 0 then 0
    else
      var line := shipped[n - 1].line;
      PiecesBetween(shipped, lo, hi, b, n - 1)
      + if lo <= shipped[n - 1].day < hi && (0 < line.quantity || 0 < line.pallets)
           && line.documentId == b.documentId && line.sku == b.sku
        then ShippedFrom(line, b.place) else 0
  }

  lemma {:induction false} PiecesOfPeriod(shipped: seq<DatedLine>, lo: int, hi: int, b: Out.Bucket, n: nat)
    requires n <= |shipped|
    ensures PiecesFor(InPeriod(shipped, lo, hi), b, n) == PiecesBetween(shipped, lo, hi, b, n)
  {
    if n > 0 {
      PiecesOfPeriod(shipped, lo, hi, b, n - 1);
    }
  }

  /** A bucket of a period's shipments in scope owes the fee for the most pallets that the pieces shipped fill. */
  lemma BucketTells(t: Terms, shipped: seq<DatedLine>, lo: int, hi: int, pools: map<Out.Bucket, Out.Pool>,
                    groups: seq<seq<Out.Group>>, b: Out.Bucket)
    requires Out.PooledFrom(pools, InPeriod(shipped, lo, hi), groups, |shipped|)
    ensures !t.inScope(b) ==> BucketDue(t, pools, b) == 0
    ensures t.inScope(b) ==>
              exists billed: nat ::
                BucketDue(t, pools, b) == Round(billed * t.shippingFee, FEE_DEN)
                && IsMost(billed, Out.PoolAt(pools, b).pallets, PiecesBetween(shipped, lo, hi, b, |shipped|), t.receipt.rule)
  {
    var pool, rule := Out.PoolAt(pools, b), t.receipt.rule;
    PoolsTell(pools, InPeriod(shipped, lo, hi), groups, |shipped|, b);
    PiecesOfPeriod(shipped, lo, hi, b, |shipped|);
    Lifecycle.BillableIsMost(pool.pallets * UNITS, pool.quantity * UNITS, rule);
    assert IsMost(Out.ChargedAt(pool, rule), pool.pallets, PiecesBetween(shipped, lo, hi, b, |shipped|), rule);
  }

  // ----- storage

  /** The events at one warehouse. */
  function EventsAt(events: seq<Lifecycle.Event>, warehouse: int): seq<Lifecycle.Event> {
    if events == [] then []
    else (if events[0].position.location == warehouse then [events[0]] else []) + EventsAt(events[1..], warehouse)
  }

  lemma {:induction false} EventsAtMembers(events: seq<Lifecycle.Event>, warehouse: int, e: Lifecycle.Event)
    ensures e in EventsAt(events, warehouse) <==> e in events && e.position.location == warehouse
  {
    if events != [] {
      EventsAtMembers(events[1..], warehouse, e);
      assert events == [events[0]] + events[1..];
    }
  }

  lemma {:induction false} BalancesAt(m: Lifecycle.Measure, events: seq<Lifecycle.Event>, warehouse: int, p: Lifecycle.Position, day: int)
    ensures Lifecycle.Balance(m, EventsAt(events, warehouse), p, day)
         == if p.location == warehouse then Lifecycle.Balance(m, events, p, day) else 0
  {
    if events != [] {
      BalancesAt(m, events[1..], warehouse, p, day);
      var rest := EventsAt(events[1..], warehouse);
      if events[0].position.location == warehouse {
        assert ([events[0]] + rest)[1..] == rest;
      } else {
        assert [] + rest == rest;
      }
    }
  }

  lemma PositionsAt(events: seq<Lifecycle.Event>, warehouse: int)
    ensures forall p :: p in Lifecycle.Positions(EventsAt(events, warehouse)) <==>
              p in Lifecycle.Positions(events) && p.location == warehouse
  {
    var at := EventsAt(events, warehouse);
    forall p | p in Lifecycle.Positions(at)
      ensures p in Lifecycle.Positions(events) && p.location == warehouse
    {
      var i :| 0 <= i < |at| && at[i].position == p;
      EventsAtMembers(events, warehouse, at[i]);
      var j :| 0 <= j < |events| && events[j] == at[i];
    }
    forall p | p in Lifecycle.Positions(events) && p.location == warehouse
      ensures p in Lifecycle.Positions(at)
    {
      var j :| 0 <= j < |events| && events[j].position == p;
      EventsAtMembers(events, warehouse, events[j]);
      var i :| 0 <= i < |at| && at[i] == events[j];
    }
  }

  /** Billing one warehouse is billing what happened there, as if nothing else had happened. */
  lemma WarehouseTells(events: seq<Lifecycle.Event>, warehouse: int, rule: Lifecycle.FillRule, day: int)
    ensures Lifecycle.DayPallets(events, Lifecycle.Scope(Some(warehouse)), rule, day)
         == Lifecycle.DayPallets(EventsAt(events, warehouse), Lifecycle.Scope(None), rule, day)
    ensures Lifecycle.OnHand(events, Lifecycle.Scope(Some(warehouse)), day)
         == Lifecycle.OnHand(EventsAt(events, warehouse), Lifecycle.Scope(None), day)
  {
    var at, one, all := EventsAt(events, warehouse), Lifecycle.Scope(Some(warehouse)), Lifecycle.Scope(None);
    forall m, p
      ensures Lifecycle.Balance(m, at, p, day) == if p.location == warehouse then Lifecycle.Balance(m, events, p, day) else 0
    {
      BalancesAt(m, events, warehouse, p, day);
    }
    PositionsAt(events, warehouse);
    var few, many := Lifecycle.Positions(at), Lifecycle.Positions(events);
    SumOverEqual(few, p => Lifecycle.BillableAt(events, one, rule, p, day), p => Lifecycle.BillableAt(at, all, rule, p, day));
    SumOverSuperset(few, many, p => Lifecycle.BillableAt(events, one, rule, p, day));
    SumOverEqual(few, p => Lifecycle.OnHandAt(events, one, p, day), p => Lifecycle.OnHandAt(at, all, p, day));
    SumOverSuperset(few, many, p => Lifecycle.OnHandAt(events, one, p, day));
  }
}
