/**
  Splitting a whole number of units (pallets, or cents) in proportion to given quotas
  raw[i] / den: every index gets the floor of its quota, and the units that are left go to
  the largest remainders first, ties to the smaller index.
 */
module LargestRemainder {
  import opened Sums

  /** Rank i before j when it has the larger remainder, or the same one and the smaller index. */
  predicate Before(rems: seq<nat>, i: nat, j: nat)
    requires i < |rems| && j < |rems|
  {
    rems[i] > rems[j] || (rems[i] == rems[j] && i < j)
  }

  predicate Indices(order: seq<nat>, n: nat) {
    forall k :: 0 <= k < |order| ==> order[k] < n
  }

  /** Places a new index into an already ordered list, behind everything that ranks before it. */
  function Insert(rems: seq<nat>, order: seq<nat>, i: nat): (r: seq<nat>)
    requires Indices(order, |rems|) && i < |rems|
    ensures Indices(r, |rems|) && |r| == |order| + 1
  {
    if order == [] then [i]
    else if Before(rems, i, order[0]) then [i] + order
    else [order[0]] + Insert(rems, order[1..], i)
  }

  /** The stable sort of the first n indices by decreasing remainder. */
  function Ranked(rems: seq<nat>, n: nat): (r: seq<nat>)
    requires n <= |rems|
    ensures Indices(r, |rems|) && |r| == n
  {
    if n == 0 then [] else Insert(rems, Ranked(rems, n - 1), n - 1)
  }

  ghost predicate Sorted(rems: seq<nat>, order: seq<nat>)
    requires Indices(order, |rems|)
  {
    forall a, b :: 0 <= a < b < |order| ==> Before(rems, order[a], order[b])
  }

  lemma {:induction false} InsertMembers(rems: seq<nat>, order: seq<nat>, i: nat, j: nat)
    requires Indices(order, |rems|) && i < |rems|
    ensures j in Insert(rems, order, i) <==> j == i || j in order
  {
    if order != [] && !Before(rems, i, order[0]) {
      InsertMembers(rems, order[1..], i, j);
      assert order == [order[0]] + order[1..];
    }
  }

  lemma {:induction false} InsertSorted(rems: seq<nat>, order: seq<nat>, i: nat)
    requires Indices(order, |rems|) && i < |rems|
    requires Sorted(rems, order) && i !in order
    ensures Sorted(rems, Insert(rems, order, i))
  {
    if order != [] && !Before(rems, i, order[0]) {
      var rest := Insert(rems, order[1..], i);
      InsertSorted(rems, order[1..], i);
      forall b | 0 <= b < |rest|
        ensures Before(rems, order[0], rest[b])
      {
        InsertMembers(rems, order[1..], i, rest[b]);
        assert rest[b] in rest;
        if rest[b] != i {
          var k :| 0 <= k < |order[1..]| && order[1..][k] == rest[b];
          assert order[k + 1] == rest[b];
        }
      }
    }
  }

  lemma {:induction false} RankedProperties(rems: seq<nat>, n: nat)
    requires n <= |rems|
    ensures Sorted(rems, Ranked(rems, n))
    ensures forall j: nat :: j in Ranked(rems, n) <==> j < n
  {
    if n > 0 {
      RankedProperties(rems, n - 1);
      InsertSorted(rems, Ranked(rems, n - 1), n - 1);
      forall j: nat
        ensures j in Ranked(rems, n) <==> j < n
      {
        InsertMembers(rems, Ranked(rems, n - 1), n - 1, j);
      }
    }
  }

  /** The sum of the remainders listed in the given order. */
  function PickSum(rems: seq<nat>, order: seq<nat>): nat
    requires Indices(order, |rems|)
  {
    if order == [] then 0 else rems[order[0]] + PickSum(rems, order[1..])
  }

  lemma {:induction false} PickInsert(rems: seq<nat>, order: seq<nat>, i: nat)
    requires Indices(order, |rems|) && i < |rems|
    ensures PickSum(rems, Insert(rems, order, i)) == PickSum(rems, order) + rems[i]
  {
    if order != [] && !Before(rems, i, order[0]) {
      PickInsert(rems, order[1..], i);
    }
  }

  lemma {:induction false} PickRanked(rems: seq<nat>, n: nat)
    requires n <= |rems|
    ensures PickSum(rems, Ranked(rems, n)) == SumTo(rems, n)
  {
    if n > 0 {
      PickRanked(rems, n - 1);
      PickInsert(rems, Ranked(rems, n - 1), n - 1);
    }
  }

  lemma {:induction false} PickSumBound(rems: seq<nat>, order: seq<nat>, k: nat, bound: nat)
    requires Indices(order, |rems|) && k <= |order|
    requires forall i :: 0 <= i < |order| ==> rems[order[i]] <= (if i < k then bound else 0)
    ensures PickSum(rems, order) <= k * bound
  {
    if order != [] {
      PickSumBound(rems, order[1..], if k == 0 then 0 else k - 1, bound);
      assert k > 0 ==> k * bound == (k - 1) * bound + bound;
    }
  }

  /** base after k further units went round and round the given order, one each. */
  function TopUp(base: seq<nat>, order: seq<nat>, k: nat): (r: seq<nat>)
    requires Indices(order, |base|) && (k > 0 ==> order != [])
    ensures |r| == |base|
  {
    if k == 0 then base
    else
      var previous := TopUp(base, order, k - 1);
      var index := order[(k - 1) % |order|];
      previous[index := previous[index] + 1]
  }

  lemma {:induction false} TopUpSum(base: seq<nat>, order: seq<nat>, k: nat)
    requires Indices(order, |base|) && (k > 0 ==> order != [])
    ensures Sum(TopUp(base, order, k)) == Sum(base) + k
  {
    if k > 0 {
      TopUpSum(base, order, k - 1);
      var previous := TopUp(base, order, k - 1);
      var index := order[(k - 1) % |order|];
      SumUpdate(previous, index, previous[index] + 1, |previous|);
    }
  }

  ghost predicate Among(order: seq<nat>, k: nat, i: nat)
    requires k <= |order|
  {
    exists j :: 0 <= j < k && order[j] == i
  }

  /** Within one round an index gets one unit exactly when it is among the first k. */
  lemma {:induction false} TopUpWithinRound(base: seq<nat>, order: seq<nat>, k: nat, i: nat)
    requires Indices(order, |base|) && k <= |order| && i < |base|
    requires forall a, b :: 0 <= a < b < |order| ==> order[a] != order[b]
    ensures TopUp(base, order, k)[i] == base[i] + (if Among(order, k, i) then 1 else 0)
  {
    if k > 0 {
      TopUpWithinRound(base, order, k - 1, i);
      RoundStart(k - 1, |order|);
      assert Among(order, k, i) <==> Among(order, k - 1, i) || order[k - 1] == i;
    }
  }

  lemma RoundStart(k: nat, n: nat)
    requires k < n
    ensures k % n == k
  {
  }

  function Floors(raw: seq<nat>, den: nat): (r: seq<nat>)
    requires den > 0
    ensures |r| == |raw| && forall i :: 0 <= i < |raw| ==> r[i] == raw[i] / den
  {
    seq(|raw|, i requires 0 <= i < |raw| => raw[i] / den)
  }

  function Remainders(raw: seq<nat>, den: nat): (r: seq<nat>)
    requires den > 0
    ensures |r| == |raw| && forall i :: 0 <= i < |raw| ==> r[i] == raw[i] % den
  {
    seq(|raw|, i requires 0 <= i < |raw| => raw[i] % den)
  }

  lemma {:induction false} SplitSums(raw: seq<nat>, floors: seq<nat>, rems: seq<nat>, den: nat, n: nat)
    requires |floors| == |rems| == |raw| && n <= |raw|
    requires forall i :: 0 <= i < |raw| ==> raw[i] == den * floors[i] + rems[i]
    ensures SumTo(raw, n) == den * SumTo(floors, n) + SumTo(rems, n)
  {
    if n > 0 {
      SplitSums(raw, floors, rems, den, n - 1);
      Distribute(den, SumTo(floors, n - 1), floors[n - 1]);
    }
  }

  lemma Distribute(a: int, b: int, c: int)
    ensures a * (b + c) == a * b + a * c
  {
  }

  /** The quota total is the denominator times the floors, plus the remainders. */
  lemma FloorsAndRemainders(raw: seq<nat>, den: nat)
    requires den > 0
    ensures Sum(raw) == den * Sum(Floors(raw, den)) + Sum(Remainders(raw, den))
  {
    SplitSums(raw, Floors(raw, den), Remainders(raw, den), den, |raw|);
  }

  /** The units the floors leave over, never negative. */
  function Extra(raw: seq<nat>, den: nat, target: nat): nat
    requires den > 0
  {
    var floorSum := Sum(Floors(raw, den));
    if floorSum < target then target - floorSum else 0
  }

  /** What both allocation routines of the billing engine compute. */
  function Shares(raw: seq<nat>, den: nat, target: nat): (r: seq<nat>)
    requires den > 0
    ensures |r| == |raw|
  {
    if raw == [] then []
    else TopUp(Floors(raw, den), Ranked(Remainders(raw, den), |raw|), Extra(raw, den, target))
  }

  lemma LeftoverArithmetic(den: nat, target: nat, floorSum: int, rest: int, k: nat)
    requires den > 0 && target * den < den * floorSum + rest + den && rest <= k * (den - 1)
    ensures target - floorSum <= k
  {
    var over := target - floorSum;
    Distribute(den, target, -floorSum);
    Distribute(k, den, -1);
    MultiplesGrow(den, k, over);
  }

  /** The target is at most the quota total rounded up. */
  ghost predicate WithinCeiling(raw: seq<nat>, den: nat, target: nat) {
    target * den < Sum(raw) + den
  }

  lemma ExtraFitsOneRound(raw: seq<nat>, den: nat, target: nat)
    requires den > 0 && WithinCeiling(raw, den, target)
    ensures Extra(raw, den, target) <= |raw|
  {
    var rems := Remainders(raw, den);
    var order := Ranked(rems, |raw|);
    FloorsAndRemainders(raw, den);
    PickRanked(rems, |raw|);
    PickSumBound(rems, order, |order|, den - 1);
    LeftoverArithmetic(den, target, Sum(Floors(raw, den)), Sum(rems), |raw|);
  }

  /** The units left over never reach an index whose remainder is zero. */
  lemma LeftoverFindsRemainders(raw: seq<nat>, den: nat, target: nat, k: nat)
    requires den > 0 && WithinCeiling(raw, den, target) && k < |raw|
    requires Remainders(raw, den)[Ranked(Remainders(raw, den), |raw|)[k]] == 0
    ensures Extra(raw, den, target) <= k
  {
    var rems := Remainders(raw, den);
    var order := Ranked(rems, |raw|);
    FloorsAndRemainders(raw, den);
    RankedProperties(rems, |raw|);
    PickRanked(rems, |raw|);
    forall i | 0 <= i < |order|
      ensures rems[order[i]] <= (if i < k then den - 1 else 0)
    {
      assert i <= k || Before(rems, order[k], order[i]);
    }
    PickSumBound(rems, order, k, den - 1);
    LeftoverArithmetic(den, target, Sum(Floors(raw, den)), Sum(rems), k);
  }

  /** Each share is its floor, plus one for the first Extra indices of the ranking. */
  lemma ShareAt(raw: seq<nat>, den: nat, target: nat, i: nat)
    requires den > 0 && WithinCeiling(raw, den, target) && i < |raw|
    ensures Extra(raw, den, target) <= |raw|
    ensures Shares(raw, den, target)[i] == raw[i] / den
              + if Among(Ranked(Remainders(raw, den), |raw|), Extra(raw, den, target), i) then 1 else 0
    ensures raw[i] % den == 0 ==> Shares(raw, den, target)[i] == raw[i] / den
  {
    var rems, extra := Remainders(raw, den), Extra(raw, den, target);
    var order := Ranked(rems, |raw|);
    ExtraFitsOneRound(raw, den, target);
    RankedProperties(rems, |raw|);
    forall a, b | 0 <= a < b < |order|
      ensures order[a] != order[b]
    {
      assert Before(rems, order[a], order[b]);
    }
    TopUpWithinRound(Floors(raw, den), order, extra, i);
    if raw[i] % den == 0 && Among(order, extra, i) {
      var k :| 0 <= k < extra && order[k] == i;
      LeftoverFindsRemainders(raw, den, target, k);
    }
  }

  lemma MultiplesGrow(den: nat, p: int, q: int)
    ensures p < q ==> den * p + den <= den * q
  {
    if p < q {
      Distribute(den, p + 1, q - p - 1);
      Distribute(den, p, 1);
    }
  }

  lemma LargerQuota(den: nat, a: nat, b: nat)
    requires den > 0 && a > b
    ensures a / den >= b / den
    ensures a / den == b / den ==> a % den > b % den
  {
    MultiplesGrow(den, a / den, b / den);
  }

  lemma LargerQuotaFirst(raw: seq<nat>, den: nat, target: nat, i: nat, j: nat)
    requires den > 0 && WithinCeiling(raw, den, target) && i < |raw| && j < |raw| && raw[i] > raw[j]
    ensures Shares(raw, den, target)[i] >= Shares(raw, den, target)[j]
  {
    var rems, extra := Remainders(raw, den), Extra(raw, den, target);
    var order := Ranked(rems, |raw|);
    ShareAt(raw, den, target, i);
    ShareAt(raw, den, target, j);
    LargerQuota(den, raw[i], raw[j]);
    if raw[i] / den == raw[j] / den && Among(order, extra, j) {
      RankedProperties(rems, |raw|);
      var b :| 0 <= b < extra && order[b] == j;
      assert i in order;
      var a :| 0 <= a < |order| && order[a] == i;
      assert Among(order, extra, i);
    }
  }

  /**
    A unit beyond the floors never goes to an index before it goes to one whose quota leaves a
    larger remainder, or the same remainder at an earlier place.
   */
  lemma RemaindersDecide(raw: seq<nat>, den: nat, target: nat, i: nat, j: nat)
    requires den > 0 && WithinCeiling(raw, den, target) && i < |raw| && j < |raw|
    requires raw[i] % den > raw[j] % den || (raw[i] % den == raw[j] % den && i < j)
    ensures Shares(raw, den, target)[j] > raw[j] / den ==> Shares(raw, den, target)[i] == raw[i] / den + 1
  {
    var rems, extra := Remainders(raw, den), Extra(raw, den, target);
    var order := Ranked(rems, |raw|);
    ShareAt(raw, den, target, i);
    ShareAt(raw, den, target, j);
    if Among(order, extra, j) {
      RankedProperties(rems, |raw|);
      var b :| 0 <= b < extra && order[b] == j;
      assert i in order;
      var a :| 0 <= a < |order| && order[a] == i;
      assert b < a ==> Before(rems, order[b], order[a]);
      assert Among(order, extra, i);
    }
  }

  /**
    The split is exact and fair. The target may be anything from the sum of the floors up to
    the quota total rounded up; then the shares add up to it, every share is its quota rounded
    down or up, a whole quota is met exactly, a larger quota never gets a smaller share, and
    the units left over run out within one round.
   */
  lemma SharesAreFair(raw: seq<nat>, den: nat, target: nat)
    requires den > 0
    requires Sum(Floors(raw, den)) <= target && WithinCeiling(raw, den, target)
    ensures Sum(Shares(raw, den, target)) == target
    ensures forall i :: 0 <= i < |raw| ==>
              raw[i] / den <= Shares(raw, den, target)[i] <= raw[i] / den + 1
    ensures forall i :: 0 <= i < |raw| && raw[i] % den == 0 ==>
              Shares(raw, den, target)[i] == raw[i] / den
    ensures forall i, j :: 0 <= i < |raw| && 0 <= j < |raw| && raw[i] > raw[j] ==>
              Shares(raw, den, target)[i] >= Shares(raw, den, target)[j]
    ensures Extra(raw, den, target) <= |raw|
  {
    ExtraFitsOneRound(raw, den, target);
    if raw != [] {
      TopUpSum(Floors(raw, den), Ranked(Remainders(raw, den), |raw|), Extra(raw, den, target));
    }
    forall i | 0 <= i < |raw| {
      ShareAt(raw, den, target, i);
    }
    forall i, j | 0 <= i < |raw| && 0 <= j < |raw| && raw[i] > raw[j] {
      LargerQuotaFirst(raw, den, target, i, j);
    }
  }
}
