/**
  Run-length coding of a container's daily pallet counts into billed segments, and the
  division of the rounded storage money over those segments.
 */
module StorageSegments {
  import opened Sums
  import opened LargestRemainder
  import opened BillingMoney

  /** A maximal run of days with one pallet count and one free count. */
  datatype Run = Run(start: int, end: int, pallets: nat, free: nat) {
    function Days(): int {
      end - start + 1
    }
  }

  datatype Segment = Segment(run: Run, palletDays: nat, freePalletDays: nat, billablePalletDays: nat,
                             gross: nat, discount: nat, amount: nat)

  function PalletsOn(daily: map<int, nat>, day: int): nat {
    if day in daily then daily[day] else 0
  }

  function FreeOn(daily: map<int, nat>, free: map<int, nat>, day: int): nat {
    var pallets, freePallets := PalletsOn(daily, day), PalletsOn(free, day);
    if freePallets < pallets then freePallets else pallets
  }

  // ----- what it means to code a series of days

  ghost predicate Covered(runs: seq<Run>, day: int) {
    exists i :: 0 <= i < |runs| && runs[i].start <= day <= runs[i].end
  }

  ghost predicate RunFits(run: Run, daily: map<int, nat>, free: map<int, nat>, lo: int, hi: int) {
    && lo <= run.start <= run.end < hi
    && 0 < run.pallets
    && forall day :: run.start <= day <= run.end ==>
         PalletsOn(daily, day) == run.pallets && FreeOn(daily, free, day) == run.free
  }

  /** Next to each other on the calendar, two runs must differ. */
  ghost predicate Separate(r: Run, s: Run) {
    && r.end < s.start
    && (r.end + 1 == s.start ==> r.pallets != s.pallets || r.free != s.free)
  }

  ghost predicate Codes(runs: seq<Run>, daily: map<int, nat>, free: map<int, nat>, lo: int, hi: int) {
    && (forall i :: 0 <= i < |runs| ==> RunFits(runs[i], daily, free, lo, hi))
    && (forall i, j :: 0 <= i < j < |runs| ==> Separate(runs[i], runs[j]))
    && (forall day :: lo <= day < hi && 0 < PalletsOn(daily, day) ==> Covered(runs, day))
  }

  /** A coding that agrees with another on its first i runs has no later start at run i. */
  lemma NoLaterStart(s: seq<Run>, t: seq<Run>, i: nat, daily: map<int, nat>, free: map<int, nat>, lo: int, hi: int)
    requires Codes(s, daily, free, lo, hi) && Codes(t, daily, free, lo, hi)
    requires i < |s| && i <= |t| && forall k :: 0 <= k < i ==> s[k] == t[k]
    ensures i < |t| && t[i].start <= s[i].start
  {
    var day := s[i].start;
    assert RunFits(s[i], daily, free, lo, hi);
    assert Covered(t, day);
    var j :| 0 <= j < |t| && t[j].start <= day <= t[j].end;
  }

  /** On the day after a run the counts are no longer those of the run. */
  lemma RunEndsAtChange(s: seq<Run>, i: nat, daily: map<int, nat>, free: map<int, nat>, lo: int, hi: int)
    requires Codes(s, daily, free, lo, hi) && i < |s| && s[i].end + 1 < hi
    ensures PalletsOn(daily, s[i].end + 1) != s[i].pallets || FreeOn(daily, free, s[i].end + 1) != s[i].free
  {
    var day := s[i].end + 1;
    assert RunFits(s[i], daily, free, lo, hi);
    if 0 < PalletsOn(daily, day) {
      assert Covered(s, day);
      var k :| 0 <= k < |s| && s[k].start <= day <= s[k].end;
      assert RunFits(s[k], daily, free, lo, hi);
    }
  }

  lemma NoEarlierEnd(s: seq<Run>, t: seq<Run>, i: nat, daily: map<int, nat>, free: map<int, nat>, lo: int, hi: int)
    requires Codes(s, daily, free, lo, hi) && Codes(t, daily, free, lo, hi)
    requires i < |s| && i < |t| && s[i].start == t[i].start
    ensures s[i].pallets == t[i].pallets && s[i].free == t[i].free
    ensures t[i].end <= s[i].end
  {
    assert RunFits(s[i], daily, free, lo, hi) && RunFits(t[i], daily, free, lo, hi);
    assert PalletsOn(daily, s[i].start) == s[i].pallets == t[i].pallets;
    assert FreeOn(daily, free, s[i].start) == s[i].free == t[i].free;
    if s[i].end + 1 < hi {
      RunEndsAtChange(s, i, daily, free, lo, hi);
    }
  }

  lemma {:induction false} CodingsAgree(s: seq<Run>, t: seq<Run>, i: nat,
                                        daily: map<int, nat>, free: map<int, nat>, lo: int, hi: int)
    requires Codes(s, daily, free, lo, hi) && Codes(t, daily, free, lo, hi)
    requires i <= |s| && i <= |t| && forall k :: 0 <= k < i ==> s[k] == t[k]
    ensures s == t
    decreases |s| - i
  {
    if i < |s| || i < |t| {
      if i < |s| {
        NoLaterStart(s, t, i, daily, free, lo, hi);
      }
      if i < |t| {
        NoLaterStart(t, s, i, daily, free, lo, hi);
      }
      NoEarlierEnd(s, t, i, daily, free, lo, hi);
      NoEarlierEnd(t, s, i, daily, free, lo, hi);
      CodingsAgree(s, t, i + 1, daily, free, lo, hi);
    }
  }

  /** There is only one way to code a series into maximal runs. */
  lemma CodingIsUnique(s: seq<Run>, t: seq<Run>, daily: map<int, nat>, free: map<int, nat>, lo: int, hi: int)
    requires Codes(s, daily, free, lo, hi) && Codes(t, daily, free, lo, hi)
    ensures s == t
  {
    CodingsAgree(s, t, 0, daily, free, lo, hi);
  }

  // ----- pallet-days

  function RunPalletDays(runs: seq<Run>): (r: seq<int>)
    ensures |r| == |runs|
  {
    seq(|runs|, i requires 0 <= i < |runs| => runs[i].pallets * runs[i].Days())
  }

  function RunFreeDays(runs: seq<Run>): (r: seq<int>)
    ensures |r| == |runs|
  {
    seq(|runs|, i requires 0 <= i < |runs| => runs[i].free * runs[i].Days())
  }

  /** Adding a day to the last run, or starting a new one, adds that day's counts. */
  lemma RunGrows(runs: seq<Run>, longer: Run)
    requires runs != [] && longer == runs[|runs| - 1].(end := longer.end) && longer.end == runs[|runs| - 1].end + 1
    ensures Sum(RunPalletDays(runs[..|runs| - 1] + [longer])) == Sum(RunPalletDays(runs)) + longer.pallets
    ensures Sum(RunFreeDays(runs[..|runs| - 1] + [longer])) == Sum(RunFreeDays(runs)) + longer.free
  {
    var n, last := |runs| - 1, runs[|runs| - 1];
    var grown := runs[..n] + [longer];
    SumToAgree(RunPalletDays(grown), RunPalletDays(runs), n);
    SumToAgree(RunFreeDays(grown), RunFreeDays(runs), n);
    Distribute(last.pallets, last.Days(), 1);
    Distribute(last.free, last.Days(), 1);
  }

  lemma RunStarts(runs: seq<Run>, run: Run)
    requires run.start == run.end
    ensures Sum(RunPalletDays(runs + [run])) == Sum(RunPalletDays(runs)) + run.pallets
    ensures Sum(RunFreeDays(runs + [run])) == Sum(RunFreeDays(runs)) + run.free
  {
    SumToAgree(RunPalletDays(runs + [run]), RunPalletDays(runs), |runs|);
    SumToAgree(RunFreeDays(runs + [run]), RunFreeDays(runs), |runs|);
  }

  /** runs codes the days of [lo, day), and carries exactly their pallet-days. */
  ghost predicate CodedSoFar(runs: seq<Run>, daily: map<int, nat>, free: map<int, nat>, lo: int, day: int) {
    && lo <= day
    && Codes(runs, daily, free, lo, day)
    && Sum(RunPalletDays(runs)) == SumRange(d => PalletsOn(daily, d), lo, day)
    && Sum(RunFreeDays(runs)) == SumRange(d => FreeOn(daily, free, d), lo, day)
  }

  lemma CodeGrows(runs: seq<Run>, daily: map<int, nat>, free: map<int, nat>, lo: int, day: int)
    requires Codes(runs, daily, free, lo, day) && lo <= day
    requires runs != [] && runs[|runs| - 1].end == day - 1
    requires runs[|runs| - 1].pallets == PalletsOn(daily, day) && runs[|runs| - 1].free == FreeOn(daily, free, day)
    ensures Codes(runs[..|runs| - 1] + [runs[|runs| - 1].(end := day)], daily, free, lo, day + 1)
  {
    var n := |runs| - 1;
    var grown := runs[..n] + [runs[n].(end := day)];
    assert RunFits(runs[n], daily, free, lo, day);
    forall i | 0 <= i < |grown|
      ensures RunFits(grown[i], daily, free, lo, day + 1)
    {
      assert RunFits(runs[i], daily, free, lo, day);
    }
    forall d | lo <= d < day + 1 && 0 < PalletsOn(daily, d)
      ensures Covered(grown, d)
    {
      if d < day {
        assert Covered(runs, d);
        var i :| 0 <= i < |runs| && runs[i].start <= d <= runs[i].end;
        assert grown[i].start <= d <= grown[i].end;
      } else {
        assert grown[n].start <= d <= grown[n].end;
      }
    }
  }

  lemma CodeStarts(runs: seq<Run>, daily: map<int, nat>, free: map<int, nat>, lo: int, day: int)
    requires Codes(runs, daily, free, lo, day) && lo <= day
    requires 0 < PalletsOn(daily, day)
    requires runs != [] && runs[|runs| - 1].end == day - 1 ==>
               runs[|runs| - 1].pallets != PalletsOn(daily, day) || runs[|runs| - 1].free != FreeOn(daily, free, day)
    ensures Codes(runs + [Run(day, day, PalletsOn(daily, day), FreeOn(daily, free, day))], daily, free, lo, day + 1)
  {
    var run := Run(day, day, PalletsOn(daily, day), FreeOn(daily, free, day));
    var grown := runs + [run];
    forall i | 0 <= i < |runs|
      ensures RunFits(runs[i], daily, free, lo, day + 1) && Separate(runs[i], run)
    {
      assert RunFits(runs[i], daily, free, lo, day);
      assert RunFits(runs[|runs| - 1], daily, free, lo, day);
      assert i == |runs| - 1 || Separate(runs[i], runs[|runs| - 1]);
    }
    forall d | lo <= d < day + 1 && 0 < PalletsOn(daily, d)
      ensures Covered(grown, d)
    {
      if d < day {
        assert Covered(runs, d);
        var i :| 0 <= i < |runs| && runs[i].start <= d <= runs[i].end;
        assert grown[i].start <= d <= grown[i].end;
      } else {
        assert grown[|runs|].start <= d <= grown[|runs|].end;
      }
    }
  }

  lemma StepSkips(runs: seq<Run>, daily: map<int, nat>, free: map<int, nat>, lo: int, day: int)
    requires CodedSoFar(runs, daily, free, lo, day) && PalletsOn(daily, day) == 0
    ensures CodedSoFar(runs, daily, free, lo, day + 1)
    ensures runs != [] ==> runs[|runs| - 1].end < day
  {
    forall i | 0 <= i < |runs|
      ensures RunFits(runs[i], daily, free, lo, day + 1) && runs[i].end < day
    {
      assert RunFits(runs[i], daily, free, lo, day);
    }
  }

  lemma StepGrows(runs: seq<Run>, daily: map<int, nat>, free: map<int, nat>, lo: int, day: int)
    requires CodedSoFar(runs, daily, free, lo, day)
    requires runs != [] && runs[|runs| - 1].end == day - 1
    requires runs[|runs| - 1].pallets == PalletsOn(daily, day) && runs[|runs| - 1].free == FreeOn(daily, free, day)
    ensures CodedSoFar(runs[..|runs| - 1] + [runs[|runs| - 1].(end := day)], daily, free, lo, day + 1)
  {
    CodeGrows(runs, daily, free, lo, day);
    RunGrows(runs, runs[|runs| - 1].(end := day));
  }

  lemma StepStarts(runs: seq<Run>, daily: map<int, nat>, free: map<int, nat>, lo: int, day: int)
    requires CodedSoFar(runs, daily, free, lo, day)
    requires 0 < PalletsOn(daily, day)
    requires runs != [] && runs[|runs| - 1].end == day - 1 ==>
               runs[|runs| - 1].pallets != PalletsOn(daily, day) || runs[|runs| - 1].free != FreeOn(daily, free, day)
    ensures CodedSoFar(runs + [Run(day, day, PalletsOn(daily, day), FreeOn(daily, free, day))],
                       daily, free, lo, day + 1)
  {
    CodeStarts(runs, daily, free, lo, day);
    RunStarts(runs, Run(day, day, PalletsOn(daily, day), FreeOn(daily, free, day)));
  }

  /** The closed runs and at most one run that is still open code the days before the given one. */
  ghost predicate OpenRun(closed: seq<Run>, active: seq<Run>, daily: map<int, nat>, free: map<int, nat>, lo: int, day: int) {
    && |active| <= 1
    && CodedSoFar(closed + active, daily, free, lo, day)
    && (active != [] ==> active[0].end == day - 1)
    && (active == [] && closed != [] ==> closed[|closed| - 1].end < day - 1)
  }

  /** A day goes nowhere, into the open run, or into a new one. */
  lemma RunStep(closed: seq<Run>, active: seq<Run>, daily: map<int, nat>, free: map<int, nat>, lo: int, day: int)
    requires OpenRun(closed, active, daily, free, lo, day)
    ensures var pallets, freePallets := PalletsOn(daily, day), FreeOn(daily, free, day);
            if pallets == 0 then OpenRun(closed + active, [], daily, free, lo, day + 1)
            else if active != [] && active[0].pallets == pallets && active[0].free == freePallets
            then OpenRun(closed, [active[0].(end := day)], daily, free, lo, day + 1)
            else OpenRun(closed + active, [Run(day, day, pallets, freePallets)], daily, free, lo, day + 1)
  {
    var pallets, freePallets := PalletsOn(daily, day), FreeOn(daily, free, day);
    var before := closed + active;
    if pallets == 0 {
      StepSkips(before, daily, free, lo, day);
      assert before + [] == before;
    } else if active != [] && active[0].pallets == pallets && active[0].free == freePallets {
      StepGrows(before, daily, free, lo, day);
      assert closed + [active[0].(end := day)] == before[..|before| - 1] + [before[|before| - 1].(end := day)];
    } else {
      StepStarts(before, daily, free, lo, day);
    }
  }

  /** Closes the open run at a gap, extends it, or closes it and opens another. */
  method CodeDay(closed: seq<Run>, active: seq<Run>, daily: map<int, nat>, free: map<int, nat>, ghost lo: int, day: int)
    returns (nextClosed: seq<Run>, nextActive: seq<Run>)
    requires OpenRun(closed, active, daily, free, lo, day)
    ensures OpenRun(nextClosed, nextActive, daily, free, lo, day + 1)
  {
    var pallets := PalletsOn(daily, day);
    var freePallets := FreeOn(daily, free, day);
    RunStep(closed, active, daily, free, lo, day);
    if pallets == 0 {
      nextClosed, nextActive := closed + active, [];
    } else if active != [] && active[0].pallets == pallets && active[0].free == freePallets {
      nextClosed, nextActive := closed, [active[0].(end := day)];
    } else {
      nextClosed, nextActive := closed + active, [Run(day, day, pallets, freePallets)];
    }
  }

  /** Walks the calendar with at most one open run. */
  method BuildRuns(daily: map<int, nat>, free: map<int, nat>, start: int, endExclusive: int) returns (runs: seq<Run>)
    requires start <= endExclusive
    ensures CodedSoFar(runs, daily, free, start, endExclusive)
  {
    var closed: seq<Run>, active: seq<Run> := [], [];
    var day := start;
    while day < endExclusive
      invariant day <= endExclusive && OpenRun(closed, active, daily, free, start, day)
    {
      closed, active := CodeDay(closed, active, daily, free, start, day);
      day := day + 1;
    }
    runs := closed + active;
  }

  // ----- money

  lemma NextIndex(given: nat, n: nat)
    requires n > 0
    ensures (given + 1) % n == if given % n == n - 1 then 0 else given % n + 1
  {
    var q, k := given / n, given % n;
    Distribute(n, q, 1);
    QuotientIs(given + 1, n, if k == n - 1 then q + 1 else q);
  }

  /** The floor of every quota, with the remainders and the cents given so far. */
  method FloorShares(raw: seq<nat>) returns (base: array<nat>, rems: seq<nat>, given: nat)
    ensures fresh(base) && base[..] == Floors(raw, STORAGE_DEN)
    ensures rems == Remainders(raw, STORAGE_DEN)
    ensures given == Sum(Floors(raw, STORAGE_DEN))
  {
    base, rems, given := new nat[|raw|], [], 0;
    SlackIsHarmless(STORAGE_DEN);
    for index := 0 to |raw|
      invariant forall i :: 0 <= i < index ==> base[i] == raw[i] / STORAGE_DEN
      invariant |rems| == index && forall i :: 0 <= i < index ==> rems[i] == raw[i] % STORAGE_DEN
      invariant given == SumTo(Floors(raw, STORAGE_DEN), index)
    {
      var floor := FloorWithSlack(raw[index], STORAGE_DEN);
      base[index] := floor;
      given := given + floor;
      rems := rems + [raw[index] - floor * STORAGE_DEN];
    }
  }

  /** Passes over the ranking, one cent each, until the target is reached. */
  method TopUpPasses(base: array<nat>, order: seq<nat>, floorSum: nat, target: nat)
    requires order != [] && Indices(order, base.Length)
    modifies base
    ensures base[..] == TopUp(old(base[..]), order, if floorSum < target then target - floorSum else 0)
  {
    var given, n := floorSum, |order|;
    ghost var was := base[..];
    while given < target
      invariant floorSum <= given && (given <= target || given == floorSum)
      invariant given < target ==> (given - floorSum) % n == 0
      invariant base[..] == TopUp(was, order, given - floorSum)
      decreases target - given
    {
      var k := 0;
      ghost var start := given;
      while k < n && given < target
        invariant k <= n && floorSum <= given <= target
        invariant (given - floorSum) % n == if k == n then 0 else k
        invariant given == start + k
        invariant base[..] == TopUp(was, order, given - floorSum)
      {
        NextIndex(given - floorSum, n);
        base[order[k]] := base[order[k]] + 1;
        given := given + 1;
        k := k + 1;
      }
    }
  }

  /** Floors first, then whole passes over the ranking until the target is reached. */
  method AllocateCurrency(raw: seq<nat>, target: nat) returns (amounts: seq<nat>)
    ensures amounts == Shares(raw, STORAGE_DEN, target)
  {
    if raw == [] {
      return [];
    }
    var base, rems, given := FloorShares(raw);
    TopUpPasses(base, Ranked(rems, |raw|), given, target);
    amounts := base[..];
  }

  /** Raw money of a list of pallet-days at a weekly rate, in units of 1 / STORAGE_DEN cents. */
  function RawMoney(days: seq<nat>, rate: nat): (r: seq<nat>)
    ensures |r| == |days|
  {
    seq(|days|, i requires 0 <= i < |days| => days[i] * rate)
  }

  lemma {:induction false} RawMoneySum(days: seq<nat>, rate: nat, n: nat)
    requires n <= |days|
    ensures SumTo(RawMoney(days, rate), n) == SumTo(days, n) * rate
  {
    if n > 0 {
      RawMoneySum(days, rate, n - 1);
      Distribute(rate, SumTo(days, n - 1), days[n - 1]);
    }
  }

  function PalletDays(s: seq<Segment>): (r: seq<nat>)
    ensures |r| == |s|
  {
    seq(|s|, i requires 0 <= i < |s| => s[i].palletDays)
  }

  function FreeDays(s: seq<Segment>): (r: seq<nat>)
    ensures |r| == |s|
  {
    seq(|s|, i requires 0 <= i < |s| => s[i].freePalletDays)
  }

  function BillableDays(s: seq<Segment>): (r: seq<nat>)
    ensures |r| == |s|
  {
    seq(|s|, i requires 0 <= i < |s| => s[i].billablePalletDays)
  }

  function Grosses(s: seq<Segment>): (r: seq<nat>)
    ensures |r| == |s|
  {
    seq(|s|, i requires 0 <= i < |s| => s[i].gross)
  }

  function Discounts(s: seq<Segment>): (r: seq<nat>)
    ensures |r| == |s|
  {
    seq(|s|, i requires 0 <= i < |s| => s[i].discount)
  }

  function Amounts(s: seq<Segment>): (r: seq<nat>)
    ensures |r| == |s|
  {
    seq(|s|, i requires 0 <= i < |s| => s[i].amount)
  }

  /** The money of a row, rounded once over all its days. */
  function RowGross(palletDays: nat, rate: nat): nat {
    Round(palletDays * rate, STORAGE_DEN)
  }

  ghost predicate Measures(segment: Segment, run: Run) {
    && segment.run == run
    && segment.palletDays == run.pallets * run.Days()
    && segment.freePalletDays == run.free * run.Days()
    && segment.freePalletDays + segment.billablePalletDays == segment.palletDays
  }

  ghost predicate Charged(s: seq<Segment>, rate: nat) {
    && (forall i :: 0 <= i < |s| ==> s[i].freePalletDays + s[i].billablePalletDays == s[i].palletDays)
    && (forall i :: 0 <= i < |s| ==> s[i].gross == s[i].discount + s[i].amount)
    && Sum(FreeDays(s)) >= 0 && Sum(PalletDays(s)) >= 0
    && var discountTotal := RowGross(Sum(FreeDays(s)), rate);
       var grossTotal := RowGross(Sum(PalletDays(s)), rate);
       && Discounts(s) == Shares(RawMoney(FreeDays(s), rate), STORAGE_DEN, discountTotal)
       && discountTotal <= grossTotal
       && Amounts(s) == Shares(RawMoney(BillableDays(s), rate), STORAGE_DEN, grossTotal - discountTotal)
  }

  lemma {:induction false} DaysAddUp(s: seq<Segment>, n: nat)
    requires n <= |s|
    requires forall i :: 0 <= i < |s| ==> s[i].freePalletDays + s[i].billablePalletDays == s[i].palletDays
    ensures SumTo(PalletDays(s), n) == SumTo(FreeDays(s), n) + SumTo(BillableDays(s), n)
    ensures SumTo(FreeDays(s), n) >= 0 && SumTo(BillableDays(s), n) >= 0
  {
    if n > 0 {
      DaysAddUp(s, n - 1);
    }
  }

  lemma {:induction false} MoneyAddsUp(s: seq<Segment>, n: nat)
    requires n <= |s|
    requires forall i :: 0 <= i < |s| ==> s[i].gross == s[i].discount + s[i].amount
    ensures SumTo(Grosses(s), n) == SumTo(Discounts(s), n) + SumTo(Amounts(s), n)
  {
    if n > 0 {
      MoneyAddsUp(s, n - 1);
    }
  }

  ghost predicate FairTarget(raw: seq<nat>, target: nat) {
    Sum(Floors(raw, STORAGE_DEN)) <= target && WithinCeiling(raw, STORAGE_DEN, target)
  }

  lemma DiscountIsFair(days: seq<nat>, rate: nat)
    ensures Sum(days) >= 0
    ensures FairTarget(RawMoney(days, rate), RowGross(Sum(days), rate))
  {
    NonNegative(days, |days|);
    RawMoneySum(days, rate, |days|);
    RoundedTotalIsFair(RawMoney(days, rate), STORAGE_DEN);
  }

  lemma NetIsFair(billable: seq<nat>, palletDays: nat, freeDays: nat, rate: nat)
    requires palletDays == freeDays + Sum(billable) && freeDays <= palletDays
    ensures RowGross(freeDays, rate) <= RowGross(palletDays, rate)
    ensures FairTarget(RawMoney(billable, rate), RowGross(palletDays, rate) - RowGross(freeDays, rate))
  {
    RawMoneySum(billable, rate, |billable|);
    Distribute(rate, freeDays, Sum(billable));
    RoundedDifferenceIsFair(RawMoney(billable, rate), palletDays * rate, freeDays * rate, STORAGE_DEN);
  }

  /** The raw discount and net of a measured list can both be shared out fairly. */
  lemma TargetsAreFair(s: seq<Segment>, rate: nat)
    requires forall i :: 0 <= i < |s| ==> s[i].freePalletDays + s[i].billablePalletDays == s[i].palletDays
    ensures 0 <= Sum(FreeDays(s)) <= Sum(PalletDays(s))
    ensures var discount, gross := RowGross(Sum(FreeDays(s)), rate), RowGross(Sum(PalletDays(s)), rate);
            && discount <= gross
            && FairTarget(RawMoney(FreeDays(s), rate), discount)
            && FairTarget(RawMoney(BillableDays(s), rate), gross - discount)
  {
    DaysAddUp(s, |s|);
    DiscountIsFair(FreeDays(s), rate);
    NetIsFair(BillableDays(s), Sum(PalletDays(s)), Sum(FreeDays(s)), rate);
  }

  /** The cents of some days at a rate: the exact amount's floor or one more, and no more if it is exact. */
  predicate FloorOrNext(days: nat, rate: nat, cents: nat) {
    var exact := days * rate;
    && exact / STORAGE_DEN <= cents <= exact / STORAGE_DEN + 1
    && (exact % STORAGE_DEN == 0 ==> cents == exact / STORAGE_DEN)
  }

  /** The shares of a list of days at a rate add up, and each is fair. */
  lemma DaysSharedFairly(days: seq<nat>, rate: nat, target: nat, shares: seq<nat>)
    requires FairTarget(RawMoney(days, rate), target) && shares == Shares(RawMoney(days, rate), STORAGE_DEN, target)
    ensures Sum(shares) == target && |shares| == |days|
    ensures forall i :: 0 <= i < |days| ==> FloorOrNext(days[i], rate, shares[i])
  {
    SharesAreFair(RawMoney(days, rate), STORAGE_DEN, target);
    forall i | 0 <= i < |days|
      ensures FloorOrNext(days[i], rate, shares[i])
    {
      assert RawMoney(days, rate)[i] == days[i] * rate;
    }
  }

  lemma DiscountsReconcile(s: seq<Segment>, rate: nat)
    requires Charged(s, rate)
    ensures Sum(Discounts(s)) == RowGross(Sum(FreeDays(s)), rate)
    ensures forall i :: 0 <= i < |s| ==> FloorOrNext(s[i].freePalletDays, rate, s[i].discount)
  {
    TargetsAreFair(s, rate);
    DaysSharedFairly(FreeDays(s), rate, RowGross(Sum(FreeDays(s)), rate), Discounts(s));
    forall i | 0 <= i < |s|
      ensures FloorOrNext(s[i].freePalletDays, rate, s[i].discount)
    {
      assert FreeDays(s)[i] == s[i].freePalletDays && Discounts(s)[i] == s[i].discount;
    }
  }

  lemma AmountsReconcile(s: seq<Segment>, rate: nat)
    requires Charged(s, rate)
    ensures Sum(Amounts(s)) == RowGross(Sum(PalletDays(s)), rate) - RowGross(Sum(FreeDays(s)), rate)
    ensures forall i :: 0 <= i < |s| ==> FloorOrNext(s[i].billablePalletDays, rate, s[i].amount)
  {
    TargetsAreFair(s, rate);
    var target := RowGross(Sum(PalletDays(s)), rate) - RowGross(Sum(FreeDays(s)), rate);
    DaysSharedFairly(BillableDays(s), rate, target, Amounts(s));
    forall i | 0 <= i < |s|
      ensures FloorOrNext(s[i].billablePalletDays, rate, s[i].amount)
    {
      assert BillableDays(s)[i] == s[i].billablePalletDays && Amounts(s)[i] == s[i].amount;
    }
  }

  /** Every cent of the row is on a segment, and every segment has its own money to the cent. */
  lemma SegmentsReconcile(s: seq<Segment>, rate: nat)
    requires Charged(s, rate)
    ensures Sum(Grosses(s)) == RowGross(Sum(PalletDays(s)), rate)
    ensures Sum(Discounts(s)) == RowGross(Sum(FreeDays(s)), rate)
    ensures Sum(Amounts(s)) == Sum(Grosses(s)) - Sum(Discounts(s))
    ensures forall i :: 0 <= i < |s| ==> FloorOrNext(s[i].freePalletDays, rate, s[i].discount)
    ensures forall i :: 0 <= i < |s| ==> FloorOrNext(s[i].billablePalletDays, rate, s[i].amount)
  {
    DiscountsReconcile(s, rate);
    AmountsReconcile(s, rate);
    MoneyAddsUp(s, |s|);
  }

  method MeasureRuns(runs: seq<Run>) returns (segments: seq<Segment>)
    requires forall i :: 0 <= i < |runs| ==> runs[i].free <= runs[i].pallets && runs[i].start <= runs[i].end
    ensures |segments| == |runs| && forall i :: 0 <= i < |runs| ==> Measures(segments[i], runs[i])
  {
    segments := [];
    for i := 0 to |runs|
      invariant |segments| == i && forall k :: 0 <= k < i ==> Measures(segments[k], runs[k])
    {
      var run := runs[i];
      Distribute(run.Days(), run.free, run.pallets - run.free);
      segments := segments + [Segment(run, run.pallets * run.Days(), run.free * run.Days(),
                                      (run.pallets - run.free) * run.Days(), 0, 0, 0)];
    }
  }

  /** The measured segments with these discounts and amounts, and gross as their sum. */
  ghost predicate Filled(segments: seq<Segment>, measured: seq<Segment>, discounts: seq<nat>, amounts: seq<nat>) {
    && |segments| == |measured| == |discounts| == |amounts|
    && forall k :: 0 <= k < |segments| ==> (
         segments[k] == measured[k].(gross := discounts[k] + amounts[k], discount := discounts[k], amount := amounts[k]))
  }

  method FillMoney(measured: seq<Segment>, discounts: seq<nat>, amounts: seq<nat>) returns (segments: seq<Segment>)
    requires |discounts| == |amounts| == |measured|
    ensures Filled(segments, measured, discounts, amounts)
  {
    segments := [];
    for i := 0 to |measured|
      invariant |segments| == i && Filled(segments, measured[..i], discounts[..i], amounts[..i])
    {
      segments := segments + [measured[i].(gross := discounts[i] + amounts[i], discount := discounts[i],
                                           amount := amounts[i])];
    }
    assert measured[..|measured|] == measured && discounts[..|measured|] == discounts && amounts[..|measured|] == amounts;
  }

  lemma FilledColumns(segments: seq<Segment>, measured: seq<Segment>, discounts: seq<nat>, amounts: seq<nat>)
    requires Filled(segments, measured, discounts, amounts)
    ensures PalletDays(segments) == PalletDays(measured) && FreeDays(segments) == FreeDays(measured)
    ensures BillableDays(segments) == BillableDays(measured)
    ensures Discounts(segments) == discounts && Amounts(segments) == amounts
    ensures RunsOf(segments) == RunsOf(measured)
  {
  }

  lemma FilledIsCharged(segments: seq<Segment>, measured: seq<Segment>, discounts: seq<nat>, amounts: seq<nat>, rate: nat)
    requires Filled(segments, measured, discounts, amounts)
    requires forall i :: 0 <= i < |measured| ==>
               measured[i].freePalletDays + measured[i].billablePalletDays == measured[i].palletDays
    requires 0 <= Sum(FreeDays(measured)) && 0 <= Sum(PalletDays(measured))
    requires var discount, gross := RowGross(Sum(FreeDays(measured)), rate), RowGross(Sum(PalletDays(measured)), rate);
             && discount <= gross
             && discounts == Shares(RawMoney(FreeDays(measured), rate), STORAGE_DEN, discount)
             && amounts == Shares(RawMoney(BillableDays(measured), rate), STORAGE_DEN, gross - discount)
    ensures Charged(segments, rate)
  {
    FilledColumns(segments, measured, discounts, amounts);
  }

  /** Shares the rounded discount and the rounded net over the segments; gross is their sum. */
  method ChargeSegments(measured: seq<Segment>, rate: nat) returns (segments: seq<Segment>)
    requires forall i :: 0 <= i < |measured| ==>
               measured[i].freePalletDays + measured[i].billablePalletDays == measured[i].palletDays
    ensures Filled(segments, measured, Discounts(segments), Amounts(segments))
    ensures PalletDays(segments) == PalletDays(measured) && FreeDays(segments) == FreeDays(measured)
    ensures RunsOf(segments) == RunsOf(measured)
    ensures Charged(segments, rate)
  {
    TargetsAreFair(measured, rate);
    var grossTotal := RowGross(Sum(PalletDays(measured)), rate);
    var discountTotal := RowGross(Sum(FreeDays(measured)), rate);
    var discounts := AllocateCurrency(RawMoney(FreeDays(measured), rate), discountTotal);
    var amounts := AllocateCurrency(RawMoney(BillableDays(measured), rate), grossTotal - discountTotal);
    segments := FillMoney(measured, discounts, amounts);
    FilledColumns(segments, measured, discounts, amounts);
    FilledIsCharged(segments, measured, discounts, amounts, rate);
  }

  function RunsOf(s: seq<Segment>): (r: seq<Run>)
    ensures |r| == |s|
  {
    seq(|s|, i requires 0 <= i < |s| => s[i].run)
  }

  lemma RunsAreMeasurable(runs: seq<Run>, daily: map<int, nat>, free: map<int, nat>, lo: int, hi: int)
    requires Codes(runs, daily, free, lo, hi)
    ensures forall i :: 0 <= i < |runs| ==> runs[i].free <= runs[i].pallets && runs[i].start <= runs[i].end
  {
    forall i | 0 <= i < |runs|
      ensures runs[i].free <= runs[i].pallets && runs[i].start <= runs[i].end
    {
      assert RunFits(runs[i], daily, free, lo, hi);
      assert PalletsOn(daily, runs[i].start) == runs[i].pallets;
      assert FreeOn(daily, free, runs[i].start) == runs[i].free;
    }
  }

  /** The segments of a container's row, with money that adds up to the row's own amounts. */
  method BuildStorageSegments(daily: map<int, nat>, free: map<int, nat>, start: int, endExclusive: int, rate: nat)
    returns (segments: seq<Segment>)
    requires start <= endExclusive
    ensures Codes(RunsOf(segments), daily, free, start, endExclusive)
    ensures forall i :: 0 <= i < |segments| ==> Measures(segments[i], segments[i].run)
    ensures Sum(PalletDays(segments)) == SumRange(d => PalletsOn(daily, d), start, endExclusive)
    ensures Sum(FreeDays(segments)) == SumRange(d => FreeOn(daily, free, d), start, endExclusive)
    ensures Charged(segments, rate)
  {
    var runs := BuildRuns(daily, free, start, endExclusive);
    RunsAreMeasurable(runs, daily, free, start, endExclusive);
    var measured := MeasureRuns(runs);
    SumToAgree(PalletDays(measured), RunPalletDays(runs), |runs|);
    SumToAgree(FreeDays(measured), RunFreeDays(runs), |runs|);
    segments := ChargeSegments(measured, rate);
    assert RunsOf(measured) == runs;
  }
}
