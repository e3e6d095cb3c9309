/**
  The storage row of one container for one period: its events are sorted, swept, coded into
  segments and charged, and its releases are listed.
 */
module ContainerStorage {
  import opened Wrappers
  import opened Sums
  import opened BillingMoney
  import opened Lifecycle
  import opened StorageSegments
  import opened StorageSweep
  import opened PalletRelease
  import opened PalletMovement
  import opened MovementCheck

  // ----- the order of events

  predicate NotAfter(d: Event, e: Event) {
    d.day < e.day || (d.day == e.day && d.id <= e.id)
  }

  function InsertEvent(e: Event, events: seq<Event>): seq<Event> {
    if events == [] || !NotAfter(events[0], e) then [e] + events
    else [events[0]] + InsertEvent(e, events[1..])
  }

  /** By date, then by ledger id. */
  function SortEvents(events: seq<Event>): seq<Event> {
    if events == [] then [] else InsertEvent(events[0], SortEvents(events[1..]))
  }

  ghost predicate Ordered(events: seq<Event>) {
    forall i, j :: 0 <= i < j < |events| ==> NotAfter(events[i], events[j])
  }

  lemma {:induction false} InsertMember(e: Event, events: seq<Event>, d: Event)
    ensures d in InsertEvent(e, events) <==> d == e || d in events
  {
    if events != [] && NotAfter(events[0], e) {
      InsertMember(e, events[1..], d);
      assert events == [events[0]] + events[1..];
    }
  }

  lemma {:induction false} InsertOrdered(e: Event, events: seq<Event>)
    requires Ordered(events)
    ensures Ordered(InsertEvent(e, events))
  {
    if events != [] && NotAfter(events[0], e) {
      InsertOrdered(e, events[1..]);
      var rest := InsertEvent(e, events[1..]);
      forall j | 0 <= j < |rest|
        ensures NotAfter(events[0], rest[j])
      {
        InsertMember(e, events[1..], rest[j]);
        assert rest[j] in rest;
      }
    }
  }

  lemma {:induction false} InsertTells(e: Event, events: seq<Event>, m: Measure, p: Position, day: int)
    ensures Balance(m, InsertEvent(e, events), p, day) == Delta(m, e, p, day) + Balance(m, events, p, day)
  {
    if events == [] || !NotAfter(events[0], e) {
      assert ([e] + events)[1..] == events;
    } else {
      InsertTells(e, events[1..], m, p, day);
    }
  }

  lemma {:induction false} InsertReleases(e: Event, events: seq<Event>, scope: Scope, period: Period,
                                          day: Option<int>, key: TransferKey)
    ensures Shipped(InsertEvent(e, events), scope, period, day)
         == ShippedBy(e, scope, period, day) + Shipped(events, scope, period, day)
    ensures TransferNet(InsertEvent(e, events), scope, period, key)
         == TransferBy(e, scope, period, key) + TransferNet(events, scope, period, key)
  {
    if events == [] || !NotAfter(events[0], e) {
      assert ([e] + events)[1..] == events;
    } else {
      InsertReleases(e, events[1..], scope, period, day, key);
    }
  }

  lemma {:induction false} SortedMembers(events: seq<Event>, d: Event)
    ensures d in SortEvents(events) <==> d in events
  {
    if events != [] {
      SortedMembers(events[1..], d);
      InsertMember(events[0], SortEvents(events[1..]), d);
      assert events == [events[0]] + events[1..];
    }
  }

  lemma {:induction false} SortedIsOrdered(events: seq<Event>)
    ensures Ordered(SortEvents(events))
  {
    if events != [] {
      SortedIsOrdered(events[1..]);
      InsertOrdered(events[0], SortEvents(events[1..]));
    }
  }

  lemma {:induction false} SortedBalances(events: seq<Event>, m: Measure, p: Position, day: int)
    ensures Balance(m, SortEvents(events), p, day) == Balance(m, events, p, day)
  {
    if events != [] {
      SortedBalances(events[1..], m, p, day);
      InsertTells(events[0], SortEvents(events[1..]), m, p, day);
    }
  }

  lemma {:induction false} SortedReleases(events: seq<Event>, scope: Scope, period: Period, day: Option<int>, key: TransferKey)
    ensures Shipped(SortEvents(events), scope, period, day) == Shipped(events, scope, period, day)
    ensures TransferNet(SortEvents(events), scope, period, key) == TransferNet(events, scope, period, key)
  {
    if events != [] {
      SortedReleases(events[1..], scope, period, day, key);
      InsertReleases(events[0], SortEvents(events[1..]), scope, period, day, key);
    }
  }

  lemma SameMembers(s: seq<Event>, t: seq<Event>, scope: Scope, period: Period)
    requires forall e :: e in s ==> e in t
    ensures Positions(s) <= Positions(t)
    ensures TransferKeys(s, scope, period) <= TransferKeys(t, scope, period)
  {
    forall i | 0 <= i < |s|
      ensures exists j :: 0 <= j < |t| && t[j] == s[i]
    {
      assert s[i] in s;
    }
  }

  /** Sorting changes none of the totals a row is made of. */
  lemma SortedTotals(events: seq<Event>, scope: Scope, rule: FillRule, graceDays: nat, day: int)
    ensures DayPallets(SortEvents(events), scope, rule, day) == DayPallets(events, scope, rule, day)
    ensures OnHand(SortEvents(events), scope, day) == OnHand(events, scope, day)
    ensures FreePallets(SortEvents(events), scope, rule, graceDays, day) == FreePallets(events, scope, rule, graceDays, day)
  {
    var sorted := SortEvents(events);
    forall e {
      SortedMembers(events, e);
    }
    SameMembers(sorted, events, scope, Period(0, 0));
    SameMembers(events, sorted, scope, Period(0, 0));
    assert Positions(sorted) == Positions(events);
    forall p
      ensures BillableAt(sorted, scope, rule, p, day) == BillableAt(events, scope, rule, p, day)
      ensures OnHandAt(sorted, scope, p, day) == OnHandAt(events, scope, p, day)
    {
      SortedBalances(events, Pallets, p, day);
      SortedBalances(events, Quantity, p, day);
    }
    FirstPositiveIsEarliest(events);
    FirstPositiveIsEarliest(sorted);
    SumOverEqual(Positions(events), p => BillableAt(sorted, scope, rule, p, day), p => BillableAt(events, scope, rule, p, day));
    SumOverEqual(Positions(events), p => OnHandAt(sorted, scope, p, day), p => OnHandAt(events, scope, p, day));
  }

  lemma SortedReleaseTotals(events: seq<Event>, scope: Scope, period: Period, day: int)
    ensures ReleasedInAll(SortEvents(events), scope, period) == ReleasedInAll(events, scope, period)
    ensures ReleasedOn(SortEvents(events), scope, period, day) == ReleasedOn(events, scope, period, day)
  {
    var sorted := SortEvents(events);
    forall e {
      SortedMembers(events, e);
    }
    SameMembers(sorted, events, scope, period);
    SameMembers(events, sorted, scope, period);
    assert TransferKeys(sorted, scope, period) == TransferKeys(events, scope, period);
    forall d {
      SortedReleases(events, scope, period, d, TransferKey(0, "", 0, 0));
    }
    forall k {
      SortedReleases(events, scope, period, None, k);
    }
    var keys := TransferKeys(events, scope, period);
    SumOverEqual(keys, k => NetOut(sorted, scope, period, k), k => NetOut(events, scope, period, k));
    SumOverEqual(keys, k => NetOutOn(sorted, scope, period, k, day), k => NetOutOn(events, scope, period, k, day));
  }

  // ----- the row

  datatype StorageRow = StorageRow(opening: nat, closing: nat, releases: seq<Release>, tracked: nat,
                                   palletDays: nat, freePalletDays: nat,
                                   gross: nat, discount: nat, amount: nat, segments: seq<Segment>)

  datatype StorageTerms = StorageTerms(scope: Scope, rule: FillRule, graceDays: nat, rate: nat)

  /** Exactly the days with an amount, in order. */
  ghost predicate ListsDays(releases: seq<Release>, amount: int -> int) {
    && ByDate(releases)
    && (forall i :: 0 <= i < |releases| ==> 0 < releases[i].pallets && releases[i].pallets == amount(releases[i].day))
    && (forall d {:trigger Listed(releases, d)} :: amount(d) != 0 ==> Listed(releases, d))
  }

  ghost predicate ListsReleases(releases: seq<Release>, events: seq<Event>, scope: Scope, period: Period) {
    && ListsDays(releases, d => ReleasedOn(events, scope, period, d))
    && Sum(Values(releases)) == ReleasedInAll(events, scope, period)
  }

  /** The most pallets billed on any day of the period. */
  ghost predicate IsMaximum(tracked: nat, events: seq<Event>, terms: StorageTerms, period: Period) {
    && (forall d :: period.Has(d) ==> DayPallets(events, terms.scope, terms.rule, d) <= tracked)
    && (tracked == 0 || exists d :: period.Has(d) && DayPallets(events, terms.scope, terms.rule, d) == tracked)
  }

  /** The counts of a row, from the container's events alone. */
  ghost predicate RowCounts(row: StorageRow, events: seq<Event>, terms: StorageTerms, period: Period)
    requires period.start <= period.endExclusive
  {
    && row.opening == OnHand(events, terms.scope, period.start - 1)
    && row.closing == OnHand(events, terms.scope, period.endExclusive - 1)
    && ListsReleases(row.releases, events, terms.scope, period)
    && IsMaximum(row.tracked, events, terms, period)
    && row.palletDays == PeriodPalletDays(events, terms.scope, terms.rule, period.start, period.endExclusive)
    && row.freePalletDays
       == PeriodFreeDays(events, terms.scope, terms.rule, terms.graceDays, period.start, period.endExclusive)
  }

  /** The money of a row is rounded once. */
  predicate RowRounded(row: StorageRow, rate: nat) {
    && row.freePalletDays <= row.palletDays
    && row.gross == RowGross(row.palletDays, rate)
    && row.discount == RowGross(row.freePalletDays, rate)
    && row.gross == row.discount + row.amount
  }

  /** The money of a row, and the same money again on its segments. */
  ghost predicate RowMoney(row: StorageRow, terms: StorageTerms) {
    && Charged(row.segments, terms.rate)
    && RowRounded(row, terms.rate)
    && Sum(Grosses(row.segments)) == row.gross
    && Sum(Discounts(row.segments)) == row.discount
    && Sum(Amounts(row.segments)) == row.amount
  }

  /** The segments are the maximal runs of the daily (pallets, free) series. */
  ghost predicate RowSegments(row: StorageRow, events: seq<Event>, terms: StorageTerms, period: Period) {
    && (forall i :: 0 <= i < |row.segments| ==> Measures(row.segments[i], row.segments[i].run))
    && exists daily, free ::
         && Codes(RunsOf(row.segments), daily, free, period.start, period.endExclusive)
         && forall d :: period.Has(d) ==>
              && PalletsOn(daily, d) == DayPallets(events, terms.scope, terms.rule, d)
              && FreeOn(daily, free, d) == FreePallets(events, terms.scope, terms.rule, terms.graceDays, d)
  }

  lemma SweptSums(s: Sweep, events: seq<Event>, terms: StorageTerms, period: Period)
    requires Swept(s, events, terms.scope, terms.rule, terms.graceDays, period.start, period.endExclusive)
    ensures forall d :: period.Has(d) ==>
              && PalletsOn(s.daily, d) == DayPallets(events, terms.scope, terms.rule, d)
              && FreeOn(s.daily, s.free, d) == FreePallets(events, terms.scope, terms.rule, terms.graceDays, d)
    ensures SumRange(d => PalletsOn(s.daily, d), period.start, period.endExclusive) == s.palletDays
    ensures SumRange(d => FreeOn(s.daily, s.free, d), period.start, period.endExclusive) == s.freePalletDays
  {
    SumRangeEqual(d => PalletsOn(s.daily, d), d => DayPallets(events, terms.scope, terms.rule, d),
                  period.start, period.endExclusive);
    SumRangeEqual(d => FreeOn(s.daily, s.free, d), d => FreePallets(events, terms.scope, terms.rule, terms.graceDays, d),
                  period.start, period.endExclusive);
  }

  lemma SortedPeriods(events: seq<Event>, terms: StorageTerms, period: Period)
    requires period.start <= period.endExclusive
    ensures PeriodPalletDays(SortEvents(events), terms.scope, terms.rule, period.start, period.endExclusive)
         == PeriodPalletDays(events, terms.scope, terms.rule, period.start, period.endExclusive)
    ensures PeriodFreeDays(SortEvents(events), terms.scope, terms.rule, terms.graceDays, period.start, period.endExclusive)
         == PeriodFreeDays(events, terms.scope, terms.rule, terms.graceDays, period.start, period.endExclusive)
  {
    var sorted := SortEvents(events);
    forall d
      ensures DayPallets(sorted, terms.scope, terms.rule, d) == DayPallets(events, terms.scope, terms.rule, d)
      ensures FreePallets(sorted, terms.scope, terms.rule, terms.graceDays, d)
           == FreePallets(events, terms.scope, terms.rule, terms.graceDays, d)
    {
      SortedTotals(events, terms.scope, terms.rule, terms.graceDays, d);
    }
    SumRangeEqual(d => DayPallets(sorted, terms.scope, terms.rule, d), d => DayPallets(events, terms.scope, terms.rule, d),
                  period.start, period.endExclusive);
    SumRangeEqual(d => FreePallets(sorted, terms.scope, terms.rule, terms.graceDays, d),
                  d => FreePallets(events, terms.scope, terms.rule, terms.graceDays, d), period.start, period.endExclusive);
  }

  lemma CountsOfSorted(row: StorageRow, events: seq<Event>, terms: StorageTerms, period: Period)
    requires period.start <= period.endExclusive
    requires RowCounts(row, SortEvents(events), terms, period)
    ensures RowCounts(row, events, terms, period)
  {
    SortedPeriods(events, terms, period);
    forall d {
      SortedTotals(events, terms.scope, terms.rule, terms.graceDays, d);
    }
    forall d {
      SortedReleaseTotals(events, terms.scope, period, d);
    }
    assert ListsReleases(row.releases, events, terms.scope, period);
    assert IsMaximum(row.tracked, events, terms, period);
  }

  lemma SegmentsOfSorted(row: StorageRow, events: seq<Event>, terms: StorageTerms, period: Period)
    requires RowSegments(row, SortEvents(events), terms, period)
    ensures RowSegments(row, events, terms, period)
  {
    forall d {
      SortedTotals(events, terms.scope, terms.rule, terms.graceDays, d);
    }
  }

  /** The money of a row from its day counts. */
  method ChargeRow(s: Sweep, releases: seq<Release>, ghost sorted: seq<Event>, terms: StorageTerms, period: Period)
    returns (row: StorageRow)
    requires Swept(s, sorted, terms.scope, terms.rule, terms.graceDays, period.start, period.endExclusive)
    ensures row == StorageRow(s.opening, s.closing, releases, s.maximum, s.palletDays, s.freePalletDays,
                              row.gross, row.discount, row.amount, row.segments)
    ensures RowMoney(row, terms) && RowSegments(row, sorted, terms, period)
  {
    SweptSums(s, sorted, terms, period);
    var segments := BuildStorageSegments(s.daily, s.free, period.start, period.endExclusive, terms.rate);
    SegmentsReconcile(segments, terms.rate);
    TargetsAreFair(segments, terms.rate);
    var gross, discount := RowGross(s.palletDays, terms.rate), RowGross(s.freePalletDays, terms.rate);
    row := StorageRow(s.opening, s.closing, releases, s.maximum, s.palletDays, s.freePalletDays,
                      gross, discount, gross - discount, segments);
  }

  /** No pallet was there, before, during or after, and none left. */
  ghost predicate NothingHappened(events: seq<Event>, terms: StorageTerms, period: Period)
    requires period.start <= period.endExclusive
  {
    && PeriodPalletDays(events, terms.scope, terms.rule, period.start, period.endExclusive) == 0
    && OnHand(events, terms.scope, period.start - 1) == 0
    && OnHand(events, terms.scope, period.endExclusive - 1) == 0
    && ReleasedInAll(events, terms.scope, period) == 0
  }

  /** The container's row, or none exactly when there was nothing at all. */
  ghost predicate IsRow(row: Option<StorageRow>, events: seq<Event>, terms: StorageTerms, period: Period)
    requires period.start <= period.endExclusive
  {
    && (row.None? <==> NothingHappened(events, terms, period))
    && (row.Some? ==>
          && RowCounts(row.value, events, terms, period)
          && RowMoney(row.value, terms)
          && RowSegments(row.value, events, terms, period))
  }

  lemma {:induction false} PositiveSum(values: seq<int>, n: nat)
    requires n <= |values| && forall i :: 0 <= i < n ==> 0 < values[i]
    ensures n <= SumTo(values, n)
  {
    if n > 0 {
      PositiveSum(values, n - 1);
    }
  }

  /** A row whose counts are all zero is one of a container in which nothing happened. */
  lemma EmptyExactly(row: StorageRow, events: seq<Event>, terms: StorageTerms, period: Period)
    requires period.start <= period.endExclusive && RowCounts(row, events, terms, period)
    ensures row.palletDays == 0 == row.opening == row.closing && row.releases == [] <==> NothingHappened(events, terms, period)
  {
    PositiveSum(Values(row.releases), |row.releases|);
  }

  method CalculateStorageRow(events: seq<Event>, terms: StorageTerms, period: Period) returns (row: Option<StorageRow>)
    requires period.start <= period.endExclusive
    ensures IsRow(row, events, terms, period)
  {
    var sorted := SortEvents(events);
    SortedIsOrdered(events);
    var s := SweepPeriod(sorted, terms.scope, terms.rule, terms.graceDays, period.start, period.endExclusive);
    var releases := BuildPalletReleases(sorted, terms.scope, period);
    ghost var counted := StorageRow(s.opening, s.closing, releases, s.maximum, s.palletDays, s.freePalletDays, 0, 0, 0, []);
    CountsOfSorted(counted, events, terms, period);
    EmptyExactly(counted, events, terms, period);
    if s.palletDays == 0 && s.opening == 0 && s.closing == 0 && releases == [] {
      return None;
    }
    var result := ChargeRow(s, releases, sorted, terms, period);
    SegmentsOfSorted(result, events, terms, period);
    assert RowCounts(result, events, terms, period);
    return Some(result);
  }

  // ----- a row is determined by the events

  /** There is only one list of the days with an amount. */
  lemma {:induction false} DaysAgree(s: seq<Release>, t: seq<Release>, amount: int -> int, i: nat)
    requires ListsDays(s, amount) && ListsDays(t, amount) && i <= |s|
    ensures i <= |t| && forall k :: 0 <= k < i ==> s[k] == t[k]
  {
    if i > 0 {
      var n := i - 1;
      DaysAgree(s, t, amount, n);
      assert Listed(t, s[n].day);
      var j :| 0 <= j < |t| && t[j].day == s[n].day;
      assert n <= j;
      assert Listed(s, t[n].day);
      var k :| 0 <= k < |s| && s[k].day == t[n].day;
      assert n <= k;
    }
  }

  lemma ReleasesAgree(s: seq<Release>, t: seq<Release>, events: seq<Event>, scope: Scope, period: Period)
    requires ListsReleases(s, events, scope, period) && ListsReleases(t, events, scope, period)
    ensures s == t
  {
    DaysAgree(s, t, d => ReleasedOn(events, scope, period, d), |s|);
    DaysAgree(t, s, d => ReleasedOn(events, scope, period, d), |t|);
  }

  /** A coding depends on the days of the period only. */
  lemma CodesOfPeriod(runs: seq<Run>, daily: map<int, nat>, free: map<int, nat>,
                      daily': map<int, nat>, free': map<int, nat>, lo: int, hi: int)
    requires Codes(runs, daily, free, lo, hi)
    requires forall d :: lo <= d < hi ==>
               PalletsOn(daily, d) == PalletsOn(daily', d) && FreeOn(daily, free, d) == FreeOn(daily', free', d)
    ensures Codes(runs, daily', free', lo, hi)
  {
    forall i | 0 <= i < |runs|
      ensures RunFits(runs[i], daily', free', lo, hi)
    {
      assert RunFits(runs[i], daily, free, lo, hi);
    }
  }

  lemma RunsAgree(a: StorageRow, b: StorageRow, events: seq<Event>, terms: StorageTerms, period: Period)
    requires RowSegments(a, events, terms, period) && RowSegments(b, events, terms, period)
    ensures RunsOf(a.segments) == RunsOf(b.segments)
  {
    var daily, free :| && Codes(RunsOf(a.segments), daily, free, period.start, period.endExclusive)
                       && forall d :: period.Has(d) ==>
                            && PalletsOn(daily, d) == DayPallets(events, terms.scope, terms.rule, d)
                            && FreeOn(daily, free, d) == FreePallets(events, terms.scope, terms.rule, terms.graceDays, d);
    var daily', free' :| && Codes(RunsOf(b.segments), daily', free', period.start, period.endExclusive)
                         && forall d :: period.Has(d) ==>
                              && PalletsOn(daily', d) == DayPallets(events, terms.scope, terms.rule, d)
                              && FreeOn(daily', free', d) == FreePallets(events, terms.scope, terms.rule, terms.graceDays, d);
    forall d | period.start <= d < period.endExclusive
      ensures PalletsOn(daily, d) == PalletsOn(daily', d) && FreeOn(daily, free, d) == FreeOn(daily', free', d)
    {
      assert period.Has(d);
    }
    CodesOfPeriod(RunsOf(a.segments), daily, free, daily', free', period.start, period.endExclusive);
    CodingIsUnique(RunsOf(a.segments), RunsOf(b.segments), daily', free', period.start, period.endExclusive);
  }

  /** The same runs at the same rate carry the same money. */
  lemma MoneyAgrees(s: seq<Segment>, t: seq<Segment>, rate: nat)
    requires RunsOf(s) == RunsOf(t) && Charged(s, rate) && Charged(t, rate)
    requires forall i :: 0 <= i < |s| ==> Measures(s[i], s[i].run)
    requires forall i :: 0 <= i < |t| ==> Measures(t[i], t[i].run)
    ensures s == t
  {
    assert |s| == |RunsOf(s)| == |t|;
    forall i | 0 <= i < |s|
      ensures s[i].run == t[i].run && s[i].palletDays == t[i].palletDays
      ensures s[i].freePalletDays == t[i].freePalletDays && s[i].billablePalletDays == t[i].billablePalletDays
    {
      assert RunsOf(s)[i] == RunsOf(t)[i];
    }
    assert PalletDays(s) == PalletDays(t) && FreeDays(s) == FreeDays(t) && BillableDays(s) == BillableDays(t);
    forall i | 0 <= i < |s|
      ensures s[i] == t[i]
    {
      assert Discounts(s)[i] == Discounts(t)[i] && Amounts(s)[i] == Amounts(t)[i];
    }
  }

  /** Everything on a row, releases and segments included, follows from the events and the terms. */
  lemma RowIsDetermined(a: Option<StorageRow>, b: Option<StorageRow>, events: seq<Event>, terms: StorageTerms, period: Period)
    requires period.start <= period.endExclusive
    requires IsRow(a, events, terms, period) && IsRow(b, events, terms, period)
    ensures a == b
  {
    if a.Some? && b.Some? {
      ReleasesAgree(a.value.releases, b.value.releases, events, terms.scope, period);
      MaximumIsUnique(a.value.tracked, b.value.tracked, events, terms, period);
      RunsAgree(a.value, b.value, events, terms, period);
      MoneyAgrees(a.value.segments, b.value.segments, terms.rate);
    }
  }

  lemma MaximumIsUnique(a: nat, b: nat, events: seq<Event>, terms: StorageTerms, period: Period)
    requires IsMaximum(a, events, terms, period) && IsMaximum(b, events, terms, period)
    ensures a == b
  {
  }

  /** An unedited row passes the movement check unless a SKU is short and stocked in scope at the start. */
  lemma RowPassesCheck(row: StorageRow, events: seq<Event>, terms: StorageTerms, period: Period)
    requires period.start <= period.endExclusive && RowCounts(row, events, terms, period)
    ensures Implied(row.opening, row.closing, row.releases) == Movement(events, terms.scope, period)
    ensures TransfersKeepSku(events) && !Mixes(events, terms.scope, period.start - 1) ==>
              Implied(row.opening, row.closing, row.releases) >= 0
  {
    if TransfersKeepSku(events) && !Mixes(events, terms.scope, period.start - 1) {
      SafeOpening(events, terms.scope, period);
    }
  }

  lemma MoneyOfParts(whole: nat, a: nat, b: nat, rate: nat)
    requires whole == a + b
    ensures -1 <= RowGross(whole, rate) - RowGross(a, rate) - RowGross(b, rate) <= 1
  {
    assert whole * rate == a * rate + b * rate;
    RoundedPartsDrift(a * rate, b * rate, STORAGE_DEN);
  }

  /** What of a row's counts adds up over periods. */
  ghost predicate DayCounts(row: StorageRow, events: seq<Event>, terms: StorageTerms, lo: int, hi: int)
    requires lo <= hi
  {
    && row.opening == OnHand(events, terms.scope, lo - 1)
    && row.closing == OnHand(events, terms.scope, hi - 1)
    && row.palletDays == PeriodPalletDays(events, terms.scope, terms.rule, lo, hi)
    && row.freePalletDays == PeriodFreeDays(events, terms.scope, terms.rule, terms.graceDays, lo, hi)
  }

  lemma CountsOfDays(row: StorageRow, events: seq<Event>, terms: StorageTerms, period: Period)
    requires period.start <= period.endExclusive && RowCounts(row, events, terms, period)
    ensures DayCounts(row, events, terms, period.start, period.endExclusive)
  {
  }

  /** Free days come before all others: if any follow a day, then everything before it is free. */
  lemma GraceComesFirst(events: seq<Event>, terms: StorageTerms, lo: int, cut: int, hi: int)
    requires lo <= cut <= hi
    ensures PeriodFreeDays(events, terms.scope, terms.rule, terms.graceDays, cut, hi) == 0
         || PeriodFreeDays(events, terms.scope, terms.rule, terms.graceDays, lo, cut)
            == PeriodPalletDays(events, terms.scope, terms.rule, lo, cut)
  {
    var free := d => FreePallets(events, terms.scope, terms.rule, terms.graceDays, d);
    if InGrace(FirstPositive(events), terms.graceDays, cut) {
      SumRangeEqual(free, d => DayPallets(events, terms.scope, terms.rule, d), lo, cut);
    } else {
      SumRangeEqual(free, d => 0, cut, hi);
      NothingInRange(cut, hi);
    }
  }

  lemma {:induction false} NothingInRange(lo: int, hi: int)
    requires lo <= hi
    ensures SumRange(d => 0, lo, hi) == 0
    decreases hi - lo
  {
    if lo < hi {
      NothingInRange(lo, hi - 1);
      SumRangeEqual(d => 0, d => 0, lo, hi - 1);
    }
  }

  lemma GraceOfCounts(row: StorageRow, events: seq<Event>, terms: StorageTerms, e: Event, lo: int, hi: int)
    requires lo <= hi && Arrives(events, e)
    requires DayCounts(row, events, terms, lo, hi) && RowRounded(row, terms.rate)
    ensures hi <= e.day + terms.graceDays ==> row.freePalletDays == row.palletDays && row.amount == 0
    ensures e.day + terms.graceDays <= lo ==> row.freePalletDays == 0 && row.discount == 0 && row.amount == row.gross
  {
    var free := d => FreePallets(events, terms.scope, terms.rule, terms.graceDays, d);
    forall d
      ensures free(d) == if d < e.day + terms.graceDays then DayPallets(events, terms.scope, terms.rule, d) else 0
    {
      FreeExactlyWhen(events, terms.scope, terms.rule, terms.graceDays, d);
      if a :| Arrives(events, a) && d < a.day + terms.graceDays {
        assert a.day <= e.day;
      }
    }
    if hi <= e.day + terms.graceDays {
      SumRangeEqual(free, d => DayPallets(events, terms.scope, terms.rule, d), lo, hi);
    }
    if e.day + terms.graceDays <= lo {
      SumRangeEqual(free, d => 0, lo, hi);
      NothingInRange(lo, hi);
      assert RowGross(0, terms.rate) == 0;
    }
  }

  /** Up to the end of the grace days after the first arrival nothing is charged, and from then on nothing is free. */
  lemma GraceDaysAreFree(row: StorageRow, events: seq<Event>, terms: StorageTerms, e: Event, period: Period)
    requires period.start <= period.endExclusive && Arrives(events, e)
    requires RowCounts(row, events, terms, period) && RowMoney(row, terms)
    ensures period.endExclusive <= e.day + terms.graceDays ==> row.freePalletDays == row.palletDays && row.amount == 0
    ensures e.day + terms.graceDays <= period.start ==> row.freePalletDays == 0 && row.discount == 0 && row.amount == row.gross
  {
    CountsOfDays(row, events, terms, period);
    GraceOfCounts(row, events, terms, e, period.start, period.endExclusive);
  }

  /** With all free days on one side of the cut, or nothing but free days before it, the net moves by one cent at most. */
  lemma NetOfParts(a: nat, b: nat, a': nat, b': nat, rate: nat)
    requires b' == 0 || a' == a
    ensures -1 <= (RowGross(a + b, rate) - RowGross(a' + b', rate)) - (RowGross(a, rate) - RowGross(a', rate))
                  - (RowGross(b, rate) - RowGross(b', rate)) <= 1
  {
    if b' == 0 {
      MoneyOfParts(a + b, a, b, rate);
      assert RowGross(0, rate) == 0;
    } else {
      assert (a + b) * rate == a * rate + b * rate && (a + b') * rate == a * rate + b' * rate;
      RoundedStep(a * rate, b * rate, STORAGE_DEN);
      RoundedStep(a * rate, b' * rate, STORAGE_DEN);
    }
  }

  lemma CutCounts(whole: StorageRow, first: StorageRow, second: StorageRow, events: seq<Event>,
                  terms: StorageTerms, lo: int, cut: int, hi: int)
    requires lo <= cut <= hi
    requires DayCounts(whole, Known(events, hi), terms, lo, hi)
    requires DayCounts(first, Known(events, cut), terms, lo, cut)
    requires DayCounts(second, Known(events, hi), terms, cut, hi)
    ensures whole.palletDays == first.palletDays + second.palletDays
    ensures whole.freePalletDays == first.freePalletDays + second.freePalletDays
    ensures first.closing == second.opening
    ensures second.freePalletDays == 0 || first.freePalletDays == first.palletDays
  {
    PeriodsAddUp(events, terms.scope, terms.rule, terms.graceDays, lo, cut, hi);
    PeriodKnown(events, cut, terms.scope, terms.rule, terms.graceDays, lo, cut);
    PeriodKnown(events, hi, terms.scope, terms.rule, terms.graceDays, cut, hi);
    GraceComesFirst(events, terms, lo, cut, hi);
  }

  lemma CutMoney(whole: StorageRow, first: StorageRow, second: StorageRow, rate: nat)
    requires RowRounded(whole, rate) && RowRounded(first, rate) && RowRounded(second, rate)
    requires whole.palletDays == first.palletDays + second.palletDays
    requires whole.freePalletDays == first.freePalletDays + second.freePalletDays
    requires second.freePalletDays == 0 || first.freePalletDays == first.palletDays
    ensures -1 <= whole.gross - first.gross - second.gross <= 1
    ensures -1 <= whole.discount - first.discount - second.discount <= 1
    ensures -1 <= whole.amount - first.amount - second.amount <= 1
  {
    MoneyOfParts(whole.palletDays, first.palletDays, second.palletDays, rate);
    MoneyOfParts(whole.freePalletDays, first.freePalletDays, second.freePalletDays, rate);
    NetOfParts(first.palletDays, second.palletDays, first.freePalletDays, second.freePalletDays, rate);
  }

  /**
    Cutting a period in two moves gross, discount and net amount of a container by at most one cent
    each: the drifts of gross and discount never add up, for grace days come first.
   */
  lemma CutMovesOneCent(whole: StorageRow, first: StorageRow, second: StorageRow, events: seq<Event>,
                        terms: StorageTerms, lo: int, cut: int, hi: int)
    requires lo <= cut <= hi
    requires RowMoney(whole, terms) && RowMoney(first, terms) && RowMoney(second, terms)
    requires RowCounts(whole, Known(events, hi), terms, Period(lo, hi))
    requires RowCounts(first, Known(events, cut), terms, Period(lo, cut))
    requires RowCounts(second, Known(events, hi), terms, Period(cut, hi))
    ensures whole.palletDays == first.palletDays + second.palletDays
    ensures whole.freePalletDays == first.freePalletDays + second.freePalletDays
    ensures first.closing == second.opening
    ensures -1 <= whole.gross - first.gross - second.gross <= 1
    ensures -1 <= whole.discount - first.discount - second.discount <= 1
    ensures -1 <= whole.amount - first.amount - second.amount <= 1
  {
    CountsOfDays(whole, Known(events, hi), terms, Period(lo, hi));
    CountsOfDays(first, Known(events, cut), terms, Period(lo, cut));
    CountsOfDays(second, Known(events, hi), terms, Period(cut, hi));
    CutCounts(whole, first, second, events, terms, lo, cut, hi);
    CutMoney(whole, first, second, terms.rate);
  }

  /** A pallet that stays from day 0 on, at half a cent a day. */
  const ONE_PALLET := [Event(1, Position(1, "A", 7), Receive, 0, UNITS, UNITS, "INBOUND", 1, 1)]

  const HALF_A_CENT := StorageTerms(Scope(None), FillRule(false, 0), 0, 35_000)

  lemma OnePalletADay(day: int)
    requires 0 <= day
    ensures DayPallets(ONE_PALLET, HALF_A_CENT.scope, HALF_A_CENT.rule, day) == UNITS
  {
    var events, p := ONE_PALLET, Position(1, "A", 7);
    assert events[0].position == p && events[1..] == [];
    assert Positions(events) == {p};
    assert Balance(Pallets, events, p, day) == UNITS;
    SumOverRemove({p}, q => BillableAt(events, HALF_A_CENT.scope, HALF_A_CENT.rule, q, day), p);
    assert {p} - {p} == {};
  }

  lemma {:induction false} OnePalletDays(lo: nat, hi: nat)
    requires lo <= hi
    ensures PeriodPalletDays(ONE_PALLET, HALF_A_CENT.scope, HALF_A_CENT.rule, lo, hi) == (hi - lo) * UNITS
    ensures PeriodFreeDays(ONE_PALLET, HALF_A_CENT.scope, HALF_A_CENT.rule, 0, lo, hi) == 0
  {
    if lo < hi {
      OnePalletDays(lo, hi - 1);
      OnePalletADay(hi - 1);
    }
  }

  lemma OnePalletRow(row: StorageRow, lo: nat, hi: nat)
    requires lo <= hi <= lo + 2 && DayCounts(row, ONE_PALLET, HALF_A_CENT, lo, hi) && RowRounded(row, HALF_A_CENT.rate)
    ensures lo < hi ==> row.amount == 1
  {
    OnePalletDays(lo, hi);
    assert row.freePalletDays == 0 && row.palletDays == (hi - lo) * UNITS;
    assert RowGross(0, 35_000) == 0 && RowGross(UNITS, 35_000) == 1 && RowGross(2 * UNITS, 35_000) == 1;
  }

  /** It does move by a cent: two days cost one cent together, and one cent each. */
  lemma CutCanMoveOneCent(whole: StorageRow, first: StorageRow, second: StorageRow)
    requires IsRow(Some(whole), ONE_PALLET, HALF_A_CENT, Period(0, 2))
    requires IsRow(Some(first), ONE_PALLET, HALF_A_CENT, Period(0, 1))
    requires IsRow(Some(second), ONE_PALLET, HALF_A_CENT, Period(1, 2))
    ensures whole.amount == 1 && first.amount == 1 && second.amount == 1
  {
    CountsOfDays(whole, ONE_PALLET, HALF_A_CENT, Period(0, 2));
    CountsOfDays(first, ONE_PALLET, HALF_A_CENT, Period(0, 1));
    CountsOfDays(second, ONE_PALLET, HALF_A_CENT, Period(1, 2));
    OnePalletRow(whole, 0, 2);
    OnePalletRow(first, 0, 1);
    OnePalletRow(second, 1, 2);
  }
}
