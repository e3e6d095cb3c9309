/**
  The dated ledger events of one container, and the simple definition of its balances: the
  balance of a position on a day is the sum of every delta dated up to that day.
 */
module Lifecycle {
  import opened Wrappers
  import opened Sums
  import opened BillingMoney
  import opened LargestRemainder

  datatype Kind = Receive | Ship | Reversal | TransferOut | TransferIn | Adjust | Count

  datatype Position = Position(location: int, section: string, sku: int)

  /** Pallets and quantity are signed deltas in ten-thousandths; a day is a day number. */
  datatype Event = Event(id: int, position: Position, kind: Kind, day: int, pallets: int, quantity: int,
                         sourceType: string, sourceId: int, sourceLineId: int)

  datatype Measure = Pallets | Quantity

  /** What one event adds to a position as seen at the end of a day. */
  function Delta(m: Measure, e: Event, p: Position, day: int): int {
    if e.position != p || day < e.day then 0 else if m.Pallets? then e.pallets else e.quantity
  }

  function Balance(m: Measure, events: seq<Event>, p: Position, day: int): int {
    if events == [] then 0 else Delta(m, events[0], p, day) + Balance(m, events[1..], p, day)
  }

  function Positions(events: seq<Event>): set<Position> {
    set i | 0 <= i < |events| :: events[i].position
  }

  lemma {:induction false} BalanceConcat(m: Measure, s: seq<Event>, t: seq<Event>, p: Position, day: int)
    ensures Balance(m, s + t, p, day) == Balance(m, s, p, day) + Balance(m, t, p, day)
  {
    if s == [] {
      assert s + t == t;
    } else {
      BalanceConcat(m, s[1..], t, p, day);
      assert (s + t)[1..] == s[1..] + t;
    }
  }

  lemma BalanceAppend(m: Measure, s: seq<Event>, e: Event, p: Position, day: int)
    ensures Balance(m, s + [e], p, day) == Balance(m, s, p, day) + Delta(m, e, p, day)
  {
    BalanceConcat(m, s, [e], p, day);
    assert [e][1..] == [];
  }

  lemma {:induction false} NoEventsYet(m: Measure, events: seq<Event>, p: Position, day: int)
    requires forall i :: 0 <= i < |events| ==> events[i].day > day || events[i].position != p
    ensures Balance(m, events, p, day) == 0
  {
    if events != [] {
      NoEventsYet(m, events[1..], p, day);
    }
  }

  lemma {:induction false} BalanceSettled(m: Measure, events: seq<Event>, p: Position, day: int, later: int)
    requires forall i :: 0 <= i < |events| ==> events[i].day <= day
    requires day <= later
    ensures Balance(m, events, p, day) == Balance(m, events, p, later)
  {
    if events != [] {
      BalanceSettled(m, events[1..], p, day, later);
    }
  }

  /** Events after the day do not count, so a sorted prefix tells the whole balance. */
  lemma PrefixBalance(m: Measure, events: seq<Event>, n: nat, p: Position, day: int)
    requires n <= |events| && forall i :: n <= i < |events| ==> events[i].day > day
    ensures Balance(m, events, p, day) == Balance(m, events[..n], p, day)
  {
    assert events == events[..n] + events[n..];
    BalanceConcat(m, events[..n], events[n..], p, day);
    NoEventsYet(m, events[n..], p, day);
  }

  // ----- the rule that every billed pallet must hold a minimum quantity

  datatype FillRule = FillRule(excludeUnderfilled: bool, minimum: nat)

  function NonNegativePart(x: int): nat {
    if x <= 0 then 0 else x
  }

  function Quotient(n: nat, den: nat): nat
    requires 0 < den
  {
    n / den
  }

  /** How many pallets the quantity can fill; one billionth of slack before the floor. */
  function FullPallets(quantity: nat, minimum: nat): nat
    requires 0 < minimum
  {
    Quotient(quantity * 100_000 + 1, minimum * 100_000)
  }

  function BillablePallets(pallets: int, quantity: int, rule: FillRule): nat {
    var physical := NonNegativePart(pallets);
    if physical == 0 || !rule.excludeUnderfilled || rule.minimum == 0 then physical
    else
      var backed := FullPallets(NonNegativePart(quantity), rule.minimum) * UNITS;
      if backed < physical then backed else physical
  }

  /** The slack never adds a pallet: the count is the largest one the quantity really fills. */
  lemma FullPalletsAreBacked(quantity: nat, minimum: nat)
    requires 0 < minimum
    ensures minimum * FullPallets(quantity, minimum) <= quantity < minimum * FullPallets(quantity, minimum) + minimum
  {
    var full := quantity / minimum;
    QuotientIs(quantity * 100_000 + 1, minimum * 100_000, full);
  }

  /** How many pallets an amount takes up, the last one perhaps in part. */
  function Begun(n: nat): nat {
    (n + UNITS - 1) / UNITS
  }

  /** So many pallets, in ten-thousandths, are there and, with the rule on, filled by the quantity. */
  predicate Backed(billed: nat, pallets: int, quantity: int, rule: FillRule) {
    && (0 < billed ==> billed <= pallets)
    && (0 < billed && rule.excludeUnderfilled && 0 < rule.minimum ==>
          rule.minimum * Begun(billed) <= quantity)
  }

  lemma BackedByFull(n: nat, full: nat, quantity: nat, minimum: nat)
    requires 0 < minimum && minimum * full <= quantity < minimum * full + minimum
    ensures minimum * Begun(n) <= quantity <==> n <= full * UNITS
  {
    var whole := Begun(n);
    if whole <= full {
      MultiplesGrow(minimum, whole, full);
    } else {
      MultiplesGrow(minimum, full + 1, whole);
    }
  }

  /** What is billed is the most that is backed. */
  lemma BillableIsMost(pallets: int, quantity: int, rule: FillRule)
    ensures Backed(BillablePallets(pallets, quantity, rule), pallets, quantity, rule)
    ensures forall more: nat :: BillablePallets(pallets, quantity, rule) < more ==> !Backed(more, pallets, quantity, rule)
  {
    var billed := BillablePallets(pallets, quantity, rule);
    if 0 < pallets && rule.excludeUnderfilled && 0 < rule.minimum {
      var filled := NonNegativePart(quantity);
      FullPalletsAreBacked(filled, rule.minimum);
      forall n: nat
        ensures rule.minimum * Begun(n) <= filled <==> n <= FullPallets(filled, rule.minimum) * UNITS
      {
        BackedByFull(n, FullPallets(filled, rule.minimum), filled, rule.minimum);
      }
    }
  }

  /** A bill never exceeds what is there, nor, with the rule on, what the quantity fills. */
  lemma BillableIsBacked(pallets: int, quantity: int, rule: FillRule)
    ensures BillablePallets(pallets, quantity, rule) <= NonNegativePart(pallets)
    ensures rule.excludeUnderfilled && 0 < rule.minimum ==>
              rule.minimum * (BillablePallets(pallets, quantity, rule) / UNITS) <= NonNegativePart(quantity)
  {
    if rule.excludeUnderfilled && 0 < rule.minimum {
      var full, billed := FullPallets(NonNegativePart(quantity), rule.minimum), BillablePallets(pallets, quantity, rule);
      FullPalletsAreBacked(NonNegativePart(quantity), rule.minimum);
      assert billed / UNITS <= full;
      MultiplesGrow(rule.minimum, billed / UNITS, full);
    }
  }

  // ----- totals over the positions of a container

  datatype Scope = Scope(warehouse: Option<int>) {
    predicate Includes(p: Position) {
      warehouse.None? || warehouse.value == p.location
    }
  }

  function BillableAt(events: seq<Event>, scope: Scope, rule: FillRule, p: Position, day: int): nat {
    if scope.Includes(p)
    then BillablePallets(Balance(Pallets, events, p, day), Balance(Quantity, events, p, day), rule)
    else 0
  }

  function OnHandAt(events: seq<Event>, scope: Scope, p: Position, day: int): nat {
    if scope.Includes(p) then NonNegativePart(Balance(Pallets, events, p, day)) else 0
  }

  /** The billable pallets of the container at the end of a day. */
  ghost function DayPallets(events: seq<Event>, scope: Scope, rule: FillRule, day: int): int {
    SumOver(Positions(events), p => BillableAt(events, scope, rule, p, day))
  }

  /** The pallets physically there at the end of a day. */
  ghost function OnHand(events: seq<Event>, scope: Scope, day: int): int {
    SumOver(Positions(events), p => OnHandAt(events, scope, p, day))
  }

  // ----- the ledger as a query for a period sees it

  /** The events dated before a day. */
  function Known(events: seq<Event>, before: int): seq<Event> {
    if events == [] then []
    else (if events[0].day < before then [events[0]] else []) + Known(events[1..], before)
  }

  lemma {:induction false} KnownMembers(events: seq<Event>, before: int, e: Event)
    ensures e in Known(events, before) <==> e in events && e.day < before
  {
    if events != [] {
      KnownMembers(events[1..], before, e);
      assert events == [events[0]] + events[1..];
    }
  }

  lemma {:induction false} KnownBalance(m: Measure, events: seq<Event>, before: int, p: Position, day: int)
    requires day < before
    ensures Balance(m, Known(events, before), p, day) == Balance(m, events, p, day)
  {
    if events != [] {
      KnownBalance(m, events[1..], before, p, day);
      var rest := Known(events[1..], before);
      if events[0].day < before {
        assert ([events[0]] + rest)[1..] == rest;
      } else {
        assert [] + rest == rest;
      }
    }
  }

  lemma PositionsOfKnown(events: seq<Event>, before: int)
    ensures Positions(Known(events, before)) <= Positions(events)
    ensures forall p, day :: p in Positions(events) - Positions(Known(events, before)) && day < before ==>
              Balance(Pallets, events, p, day) == 0 == Balance(Quantity, events, p, day)
  {
    var known := Known(events, before);
    forall p | p in Positions(known)
      ensures p in Positions(events)
    {
      var i :| 0 <= i < |known| && known[i].position == p;
      KnownMembers(events, before, known[i]);
      var j :| 0 <= j < |events| && events[j] == known[i];
    }
    forall p, day | p in Positions(events) - Positions(known) && day < before
      ensures Balance(Pallets, events, p, day) == 0 == Balance(Quantity, events, p, day)
    {
      forall m: Measure
        ensures Balance(m, events, p, day) == 0
      {
        KnownBalance(m, events, before, p, day);
        NoEventsYet(m, known, p, day);
      }
    }
  }

  /** Leaving out what happens after a day does not change the totals of that day. */
  lemma TotalsKnown(events: seq<Event>, before: int, scope: Scope, rule: FillRule, day: int)
    requires day < before
    ensures DayPallets(Known(events, before), scope, rule, day) == DayPallets(events, scope, rule, day)
    ensures OnHand(Known(events, before), scope, day) == OnHand(events, scope, day)
  {
    var known := Known(events, before);
    PositionsOfKnown(events, before);
    forall m, p {
      KnownBalance(m, events, before, p, day);
    }
    SumOverEqual(Positions(known), p => BillableAt(known, scope, rule, p, day), p => BillableAt(events, scope, rule, p, day));
    SumOverEqual(Positions(known), p => OnHandAt(known, scope, p, day), p => OnHandAt(events, scope, p, day));
    SumOverSuperset(Positions(known), Positions(events), p => BillableAt(events, scope, rule, p, day));
    SumOverSuperset(Positions(known), Positions(events), p => OnHandAt(events, scope, p, day));
  }

  // ----- the free days after the first arrival

  /** The earliest day on which pallets were added anywhere. */
  function FirstPositive(events: seq<Event>): Option<int> {
    if events == [] then None
    else
      var rest := FirstPositive(events[1..]);
      if events[0].pallets <= 0 then rest
      else if rest.None? || events[0].day < rest.value then Some(events[0].day) else rest
  }

  predicate InGrace(first: Option<int>, graceDays: nat, day: int) {
    graceDays > 0 && first.Some? && day < first.value + graceDays
  }

  lemma {:induction false} FirstPositiveIsEarliest(events: seq<Event>)
    ensures FirstPositive(events).None? ==> forall e :: e in events ==> e.pallets <= 0
    ensures FirstPositive(events).Some? ==>
              && (forall e :: e in events && e.pallets > 0 ==> FirstPositive(events).value <= e.day)
              && (exists e :: e in events && e.pallets > 0 && e.day == FirstPositive(events).value)
  {
    if events != [] {
      FirstPositiveIsEarliest(events[1..]);
      assert events == [events[0]] + events[1..];
      assert events[0] in events;
    }
  }

  lemma {:induction false} NothingBeforeArrival(events: seq<Event>, p: Position, day: int)
    requires forall e :: e in events && e.pallets > 0 ==> day < e.day
    ensures Balance(Pallets, events, p, day) <= 0
  {
    if events != [] {
      assert events[0] in events && forall e :: e in events[1..] ==> e in events;
      NothingBeforeArrival(events[1..], p, day);
    }
  }

  /** Pallets are only ever billed from the first arrival on. */
  lemma BilledAfterArrival(events: seq<Event>, scope: Scope, rule: FillRule, day: int)
    requires FirstPositive(events).None? || day < FirstPositive(events).value
    ensures DayPallets(events, scope, rule, day) == 0
  {
    FirstPositiveIsEarliest(events);
    forall p {
      NothingBeforeArrival(events, p, day);
    }
    SumOverSuperset({}, Positions(events), p => BillableAt(events, scope, rule, p, day));
  }

  ghost function FreePallets(events: seq<Event>, scope: Scope, rule: FillRule, graceDays: nat, day: int): int {
    if InGrace(FirstPositive(events), graceDays, day) then DayPallets(events, scope, rule, day) else 0
  }

  /** Free pallets fall in the grace days that start with the first arrival, and nowhere else. */
  lemma FreeDaysFollowArrival(events: seq<Event>, scope: Scope, rule: FillRule, graceDays: nat, day: int)
    ensures FreePallets(events, scope, rule, graceDays, day) != 0 ==>
              && FirstPositive(events).Some?
              && FirstPositive(events).value <= day < FirstPositive(events).value + graceDays
  {
    if FirstPositive(events).Some? && day < FirstPositive(events).value {
      BilledAfterArrival(events, scope, rule, day);
    }
  }

  /** The earliest event that adds pallets anywhere. */
  ghost predicate Arrives(events: seq<Event>, e: Event) {
    && e in events && 0 < e.pallets
    && forall d :: d in events && 0 < d.pallets ==> e.day <= d.day
  }

  /** From the first arrival on, exactly the days up to its graceDays-th are free, and free as a whole. */
  lemma FreeExactlyWhen(events: seq<Event>, scope: Scope, rule: FillRule, graceDays: nat, day: int)
    ensures FreePallets(events, scope, rule, graceDays, day)
         == if exists e :: Arrives(events, e) && day < e.day + graceDays then DayPallets(events, scope, rule, day) else 0
  {
    FirstPositiveIsEarliest(events);
    var first := FirstPositive(events);
    if first.Some? {
      var a :| a in events && 0 < a.pallets && a.day == first.value;
      assert Arrives(events, a);
      if day < first.value {
        BilledAfterArrival(events, scope, rule, day);
      }
    } else {
      forall e | Arrives(events, e)
        ensures false
      {
      }
    }
  }

  /** Not knowing later events moves no free day. */
  lemma FreeKnown(events: seq<Event>, before: int, scope: Scope, rule: FillRule, graceDays: nat, day: int)
    requires day < before
    ensures FreePallets(Known(events, before), scope, rule, graceDays, day)
         == FreePallets(events, scope, rule, graceDays, day)
  {
    var known := Known(events, before);
    TotalsKnown(events, before, scope, rule, day);
    FirstPositiveIsEarliest(events);
    FirstPositiveIsEarliest(known);
    forall e {
      KnownMembers(events, before, e);
    }
    if FirstPositive(known) != FirstPositive(events) {
      BilledAfterArrival(events, scope, rule, day);
    }
  }

  // ----- totals of a period

  ghost function PeriodPalletDays(events: seq<Event>, scope: Scope, rule: FillRule, lo: int, hi: int): int
    requires lo <= hi
  {
    SumRange(d => DayPallets(events, scope, rule, d), lo, hi)
  }

  ghost function PeriodFreeDays(events: seq<Event>, scope: Scope, rule: FillRule, graceDays: nat, lo: int, hi: int): int
    requires lo <= hi
  {
    SumRange(d => FreePallets(events, scope, rule, graceDays, d), lo, hi)
  }

  lemma PeriodKnown(events: seq<Event>, before: int, scope: Scope, rule: FillRule, graceDays: nat, lo: int, hi: int)
    requires lo <= hi <= before
    ensures PeriodPalletDays(Known(events, before), scope, rule, lo, hi) == PeriodPalletDays(events, scope, rule, lo, hi)
    ensures PeriodFreeDays(Known(events, before), scope, rule, graceDays, lo, hi)
         == PeriodFreeDays(events, scope, rule, graceDays, lo, hi)
  {
    var known := Known(events, before);
    forall d | lo <= d < hi
      ensures DayPallets(known, scope, rule, d) == DayPallets(events, scope, rule, d)
      ensures FreePallets(known, scope, rule, graceDays, d) == FreePallets(events, scope, rule, graceDays, d)
    {
      TotalsKnown(events, before, scope, rule, d);
      FreeKnown(events, before, scope, rule, graceDays, d);
    }
    SumRangeEqual(d => DayPallets(known, scope, rule, d), d => DayPallets(events, scope, rule, d), lo, hi);
    SumRangeEqual(d => FreePallets(known, scope, rule, graceDays, d),
                  d => FreePallets(events, scope, rule, graceDays, d), lo, hi);
  }

  /**
    Billing a period in two parts, each from the events known at its own end, bills exactly
    the same pallet-days and free pallet-days, and the second part opens where the first closed.
   */
  lemma PeriodsAddUp(events: seq<Event>, scope: Scope, rule: FillRule, graceDays: nat, lo: int, cut: int, hi: int)
    requires lo <= cut <= hi
    ensures PeriodPalletDays(Known(events, hi), scope, rule, lo, hi)
         == PeriodPalletDays(Known(events, cut), scope, rule, lo, cut)
          + PeriodPalletDays(Known(events, hi), scope, rule, cut, hi)
    ensures PeriodFreeDays(Known(events, hi), scope, rule, graceDays, lo, hi)
         == PeriodFreeDays(Known(events, cut), scope, rule, graceDays, lo, cut)
          + PeriodFreeDays(Known(events, hi), scope, rule, graceDays, cut, hi)
    ensures OnHand(Known(events, cut), scope, cut - 1) == OnHand(Known(events, hi), scope, cut - 1)
  {
    PeriodKnown(events, hi, scope, rule, graceDays, lo, hi);
    PeriodKnown(events, cut, scope, rule, graceDays, lo, cut);
    PeriodKnown(events, hi, scope, rule, graceDays, cut, hi);
    SumRangeSplit(d => DayPallets(events, scope, rule, d), lo, cut, hi);
    SumRangeSplit(d => FreePallets(events, scope, rule, graceDays, d), lo, cut, hi);
    TotalsKnown(events, cut, scope, rule, cut - 1);
    TotalsKnown(events, hi, scope, rule, cut - 1);
  }
}
