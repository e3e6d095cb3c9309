/**
  The day-by-day sweep over a container's events with one pointer into the sorted list, and
  the storage row built from it.
 */
module StorageSweep {
  import opened Wrappers
  import opened Sums
  import opened BillingMoney
  import opened LargestRemainder
  import opened Lifecycle
  import opened StorageSegments

  function At(m: map<Position, int>, p: Position): int {
    if p in m then m[p] else 0
  }

  function Counted(pallets: map<Position, int>, quantities: map<Position, int>, scope: Scope, rule: FillRule, p: Position): nat {
    if scope.Includes(p) then BillablePallets(At(pallets, p), At(quantities, p), rule) else 0
  }

  function Present(pallets: map<Position, int>, scope: Scope, p: Position): nat {
    if scope.Includes(p) then NonNegativePart(At(pallets, p)) else 0
  }

  ghost function CountedTotal(pallets: map<Position, int>, quantities: map<Position, int>, scope: Scope, rule: FillRule): int {
    SumOver(pallets.Keys, p => Counted(pallets, quantities, scope, rule, p))
  }

  ghost function PresentTotal(pallets: map<Position, int>, scope: Scope): int {
    SumOver(pallets.Keys, p => Present(pallets, scope, p))
  }

  /** The running balances of a container, one entry a position that has been touched. */
  class RunningBalances {
    var pallets: map<Position, int>
    var quantities: map<Position, int>

    constructor ()
      ensures pallets == map[] && quantities == map[]
    {
      pallets, quantities := map[], map[];
    }

    /** The balances are those of the events applied so far, all dated up to the day. */
    ghost predicate Shows(applied: seq<Event>, day: int)
      reads this
    {
      Show(Pallets, pallets, applied, day) && Show(Quantity, quantities, applied, day)
      && forall i :: 0 <= i < |applied| ==> applied[i].day <= day
    }

    method Apply(e: Event, ghost applied: seq<Event>, ghost day: int)
      requires Shows(applied, day) && e.day <= day
      modifies this
      ensures Shows(applied + [e], day)
      ensures pallets == old(pallets)[e.position := At(old(pallets), e.position) + e.pallets]
      ensures quantities == old(quantities)[e.position := At(old(quantities), e.position) + e.quantity]
    {
      ShowStep(Pallets, pallets, applied, e, day);
      ShowStep(Quantity, quantities, applied, e, day);
      pallets := pallets[e.position := At(pallets, e.position) + e.pallets];
      quantities := quantities[e.position := At(quantities, e.position) + e.quantity];
    }

    /** Moves the pointer over every event dated up to the day. */
    method ApplyUpTo(events: seq<Event>, next: nat, day: int) returns (after: nat)
      requires SortedByDay(events) && next <= |events| && Shows(events[..next], day)
      modifies this
      ensures next <= after <= |events| && Shows(events[..after], day)
      ensures forall i :: after <= i < |events| ==> day < events[i].day
    {
      after := next;
      while after < |events| && events[after].day <= day
        invariant next <= after <= |events| && Shows(events[..after], day)
      {
        Apply(events[after], events[..after], day);
        assert events[..after + 1] == events[..after] + [events[after]];
        after := after + 1;
      }
    }

    lemma StillShows(applied: seq<Event>, day: int)
      requires Shows(applied, day)
      ensures Shows(applied, day + 1)
    {
      forall m, p {
        BalanceSettled(m, applied, p, day, day + 1);
      }
    }

    /** The billable and the physical pallets of the day the pointer has reached. */
    method DayTotals(scope: Scope, rule: FillRule, ghost events: seq<Event>, ghost next: nat, ghost day: int)
      returns (billable: nat, present: nat)
      requires next <= |events| && Shows(events[..next], day)
      requires forall i :: next <= i < |events| ==> day < events[i].day
      ensures billable == DayPallets(events, scope, rule, day) && present == OnHand(events, scope, day)
    {
      TotalsShown(events, next, pallets, quantities, scope, rule, day);
      billable := BillableBalance(scope, rule);
      present := InventoryBalance(scope);
    }

    /** What is billed for the day; positions are visited in no particular order. */
    method BillableBalance(scope: Scope, rule: FillRule) returns (balance: nat)
      ensures balance == CountedTotal(pallets, quantities, scope, rule)
    {
      balance := 0;
      var pallets, quantities := pallets, quantities;
      var rest := pallets.Keys;
      ghost var f := p => Counted(pallets, quantities, scope, rule, p);
      while rest != {}
        invariant rest <= pallets.Keys
        invariant balance + SumOver(rest, f) == CountedTotal(pallets, quantities, scope, rule)
        decreases rest
      {
        var p :| p in rest;
        SumOverRemove(rest, f, p);
        rest := rest - {p};
        if 0 < pallets[p] && scope.Includes(p) {
          balance := balance + BillablePallets(pallets[p], At(quantities, p), rule);
        }
      }
    }

    /** What is physically there. */
    method InventoryBalance(scope: Scope) returns (balance: nat)
      ensures balance == PresentTotal(pallets, scope)
    {
      balance := 0;
      var pallets := pallets;
      var rest := pallets.Keys;
      ghost var f := p => Present(pallets, scope, p);
      while rest != {}
        invariant rest <= pallets.Keys
        invariant balance + SumOver(rest, f) == PresentTotal(pallets, scope)
        decreases rest
      {
        var p :| p in rest;
        SumOverRemove(rest, f, p);
        rest := rest - {p};
        if 0 < pallets[p] && scope.Includes(p) {
          balance := balance + pallets[p];
        }
      }
    }
  }

  /** The map holds, for every position an event has touched, the balance of the events. */
  ghost predicate Show(m: Measure, balances: map<Position, int>, applied: seq<Event>, day: int) {
    balances.Keys == Positions(applied) && forall p :: At(balances, p) == Balance(m, applied, p, day)
  }

  lemma ShowStep(m: Measure, balances: map<Position, int>, applied: seq<Event>, e: Event, day: int)
    requires Show(m, balances, applied, day) && e.day <= day
    ensures Show(m, balances[e.position := At(balances, e.position) + if m.Pallets? then e.pallets else e.quantity],
                 applied + [e], day)
  {
    forall p {
      BalanceAppend(m, applied, e, p, day);
    }
    PositionsAppend(applied, e);
  }

  lemma PositionsAppend(applied: seq<Event>, e: Event)
    ensures Positions(applied + [e]) == Positions(applied) + {e.position}
  {
    var longer := applied + [e];
    assert longer[|applied|] == e;
    forall p | p in Positions(applied)
      ensures p in Positions(longer)
    {
      var i :| 0 <= i < |applied| && applied[i].position == p;
      assert longer[i].position == p;
    }
  }

  lemma PositionsPrefix(events: seq<Event>, n: nat)
    requires n <= |events|
    ensures Positions(events[..n]) <= Positions(events)
  {
    forall p | p in Positions(events[..n])
      ensures p in Positions(events)
    {
      var i :| 0 <= i < n && events[..n][i].position == p;
      assert events[i].position == p;
    }
  }

  /** The sums over the touched positions are the container's totals of the day. */
  lemma TotalsShown(events: seq<Event>, n: nat, pallets: map<Position, int>, quantities: map<Position, int>,
                    scope: Scope, rule: FillRule, day: int)
    requires n <= |events| && forall i :: n <= i < |events| ==> events[i].day > day
    requires pallets.Keys == Positions(events[..n])
    requires forall p :: At(pallets, p) == Balance(Pallets, events[..n], p, day)
    requires forall p :: At(quantities, p) == Balance(Quantity, events[..n], p, day)
    ensures CountedTotal(pallets, quantities, scope, rule) == DayPallets(events, scope, rule, day)
    ensures PresentTotal(pallets, scope) == OnHand(events, scope, day)
  {
    PositionsPrefix(events, n);
    forall m, p {
      PrefixBalance(m, events, n, p, day);
    }
    forall p | p in Positions(events) - pallets.Keys
      ensures BillableAt(events, scope, rule, p, day) == 0 == OnHandAt(events, scope, p, day)
    {
      NoEventsYet(Pallets, events[..n], p, day);
    }
    SumOverEqual(pallets.Keys, p => Counted(pallets, quantities, scope, rule, p), p => BillableAt(events, scope, rule, p, day));
    SumOverEqual(pallets.Keys, p => Present(pallets, scope, p), p => OnHandAt(events, scope, p, day));
    SumOverSuperset(pallets.Keys, Positions(events), p => BillableAt(events, scope, rule, p, day));
    SumOverSuperset(pallets.Keys, Positions(events), p => OnHandAt(events, scope, p, day));
  }

  ghost predicate SortedByDay(events: seq<Event>) {
    forall i, j :: 0 <= i < j < |events| ==> events[i].day <= events[j].day
  }

  datatype Sweep = Sweep(opening: nat, closing: nat, daily: map<int, nat>, free: map<int, nat>,
                         palletDays: nat, freePalletDays: nat, maximum: nat)

  /** The days of [start, day) with their billable and free pallets, and no other days. */
  ghost predicate SweptDays(s: Sweep, events: seq<Event>, scope: Scope, rule: FillRule, graceDays: nat, start: int, day: int) {
    && (forall d :: PalletsOn(s.daily, d) == if start <= d < day then DayPallets(events, scope, rule, d) else 0)
    && (forall d :: PalletsOn(s.free, d) == if start <= d < day then FreePallets(events, scope, rule, graceDays, d) else 0)
  }

  ghost predicate SweptMaximum(s: Sweep, events: seq<Event>, scope: Scope, rule: FillRule, start: int, day: int) {
    && (forall d :: start <= d < day ==> DayPallets(events, scope, rule, d) <= s.maximum)
    && (s.maximum == 0 || exists d :: start <= d < day && DayPallets(events, scope, rule, d) == s.maximum)
  }

  /** The sweep has accounted for the days of [start, day). */
  ghost predicate Swept(s: Sweep, events: seq<Event>, scope: Scope, rule: FillRule, graceDays: nat, start: int, day: int) {
    && start <= day
    && s.opening == OnHand(events, scope, start - 1)
    && s.closing == OnHand(events, scope, day - 1)
    && SweptDays(s, events, scope, rule, graceDays, start, day)
    && s.palletDays == PeriodPalletDays(events, scope, rule, start, day)
    && s.freePalletDays == PeriodFreeDays(events, scope, rule, graceDays, start, day)
    && SweptMaximum(s, events, scope, rule, start, day)
  }

  /** The first event that adds pallets; in a sorted list that is the earliest one. */
  method FindFirstPositive(events: seq<Event>) returns (first: Option<int>)
    requires SortedByDay(events)
    ensures first == FirstPositive(events)
  {
    var i := 0;
    while i < |events| && events[i].pallets <= 0
      invariant i <= |events| && forall k :: 0 <= k < i ==> events[k].pallets <= 0
    {
      i := i + 1;
    }
    first := if i < |events| then Some(events[i].day) else None;
    FirstPositiveIsEarliest(events);
  }

  function AddDay(s: Sweep, day: int, pallets: nat, closing: nat, inGrace: bool): Sweep {
    if pallets == 0 then s.(closing := closing)
    else s.(closing := closing,
            daily := s.daily[day := pallets],
            palletDays := s.palletDays + pallets,
            maximum := if s.maximum < pallets then pallets else s.maximum,
            free := if inGrace then s.free[day := pallets] else s.free,
            freePalletDays := if inGrace then s.freePalletDays + pallets else s.freePalletDays)
  }

  lemma DaysStep(s: Sweep, events: seq<Event>, scope: Scope, rule: FillRule, graceDays: nat, start: int, day: int,
                 pallets: nat, closing: nat)
    requires start <= day && SweptDays(s, events, scope, rule, graceDays, start, day)
    requires pallets == DayPallets(events, scope, rule, day)
    ensures SweptDays(AddDay(s, day, pallets, closing, InGrace(FirstPositive(events), graceDays, day)),
                      events, scope, rule, graceDays, start, day + 1)
  {
    var after := AddDay(s, day, pallets, closing, InGrace(FirstPositive(events), graceDays, day));
    assert PalletsOn(s.daily, day) == 0 == PalletsOn(s.free, day);
    forall d
      ensures d != day ==> PalletsOn(after.daily, d) == PalletsOn(s.daily, d) && PalletsOn(after.free, d) == PalletsOn(s.free, d)
    {
    }
  }

  lemma MaximumStep(s: Sweep, events: seq<Event>, scope: Scope, rule: FillRule, start: int, day: int,
                    pallets: nat, closing: nat, inGrace: bool)
    requires start <= day && SweptMaximum(s, events, scope, rule, start, day)
    requires pallets == DayPallets(events, scope, rule, day)
    ensures SweptMaximum(AddDay(s, day, pallets, closing, inGrace), events, scope, rule, start, day + 1)
  {
    var after := AddDay(s, day, pallets, closing, inGrace);
    if after.maximum == s.maximum && s.maximum != 0 {
      var d :| start <= d < day && DayPallets(events, scope, rule, d) == s.maximum;
      assert start <= d < day + 1;
    }
    assert after.maximum == pallets ==> DayPallets(events, scope, rule, day) == after.maximum;
  }

  lemma SweptDay(s: Sweep, events: seq<Event>, scope: Scope, rule: FillRule, graceDays: nat, start: int, day: int,
                 pallets: nat, closing: nat)
    requires Swept(s, events, scope, rule, graceDays, start, day)
    requires pallets == DayPallets(events, scope, rule, day) && closing == OnHand(events, scope, day)
    ensures Swept(AddDay(s, day, pallets, closing, InGrace(FirstPositive(events), graceDays, day)),
                  events, scope, rule, graceDays, start, day + 1)
  {
    DaysStep(s, events, scope, rule, graceDays, start, day, pallets, closing);
    MaximumStep(s, events, scope, rule, start, day, pallets, closing, InGrace(FirstPositive(events), graceDays, day));
  }

  /** One pointer walks the sorted events while the calendar advances. */
  method SweepPeriod(events: seq<Event>, scope: Scope, rule: FillRule, graceDays: nat, start: int, endExclusive: int)
    returns (s: Sweep)
    requires SortedByDay(events) && start <= endExclusive
    ensures Swept(s, events, scope, rule, graceDays, start, endExclusive)
  {
    var first := FindFirstPositive(events);
    var balances := new RunningBalances();
    var next := balances.ApplyUpTo(events, 0, start - 1);
    var _, opening := balances.DayTotals(scope, rule, events, next, start - 1);
    s := Sweep(opening, opening, map[], map[], 0, 0, 0);
    var day := start;
    while day < endExclusive
      invariant day <= endExclusive && next <= |events|
      invariant balances.Shows(events[..next], day - 1)
      invariant Swept(s, events, scope, rule, graceDays, start, day)
    {
      balances.StillShows(events[..next], day - 1);
      next := balances.ApplyUpTo(events, next, day);
      var pallets, closing := balances.DayTotals(scope, rule, events, next, day);
      SweptDay(s, events, scope, rule, graceDays, start, day, pallets, closing);
      s := AddDay(s, day, pallets, closing, InGrace(first, graceDays, day));
      day := day + 1;
    }
  }
}
