/**
  Fixed-point arithmetic of the billing engine. Pallets and quantities are whole
  ten-thousandths, rates are whole ten-thousandths of a cent, money is whole cents.
 */
module BillingMoney {
  import opened Sums
  import opened LargestRemainder

  const UNITS: nat := 10_000
  /** Pallet-days times a weekly rate, over this, are cents. */
  const STORAGE_DEN: nat := 700_000_000
  /** Pallets times a per-pallet rate, over this, are cents. */
  const FEE_DEN: nat := 100_000_000
  /** The slack added before a floor is one part in this many. */
  const SLACK: nat := 1_000_000_000

  /** Round half away from zero, on a non-negative fraction. */
  function Round(n: nat, den: nat): nat
    requires den > 0
  {
    (2 * n + den) / (2 * den)
  }

  /** floor(raw / den + 10^-9). */
  function FloorWithSlack(raw: nat, den: nat): nat
    requires den > 0
  {
    (raw * SLACK + den) / (den * SLACK)
  }

  lemma QuotientIs(n: nat, den: nat, q: nat)
    requires den > 0 && den * q <= n < den * q + den
    ensures n / den == q
  {
    MultiplesGrow(den, n / den, q);
    MultiplesGrow(den, q, n / den);
  }

  lemma SlackBelow(den: nat, q: nat, r: nat)
    requires 0 <= r < den < SLACK
    ensures FloorWithSlack(den * q + r, den) == q
  {
    var raw := den * q + r;
    assert raw * SLACK + den == (den * SLACK) * q + (r * SLACK + den);
    QuotientIs(raw * SLACK + den, den * SLACK, q);
  }

  lemma SlackAt(raw: nat, den: nat)
    requires 0 < den < SLACK
    ensures FloorWithSlack(raw, den) == raw / den
  {
    var q, r := raw / den, raw % den;
    assert raw == den * q + r;
    SlackBelow(den, q, r);
  }

  lemma SlackReached(den: nat)
    requires den >= SLACK
    ensures FloorWithSlack(den - 1, den) != (den - 1) / den
  {
    QuotientIs(den - 1, den, 0);
    QuotientIs((den - 1) * SLACK + den, den * SLACK, 1);
  }

  /** The slack before the floor changes nothing exactly when quotas are coarser than it. */
  lemma SlackIsHarmless(den: nat)
    requires den > 0
    ensures (forall raw: nat :: FloorWithSlack(raw, den) == raw / den) <==> den < SLACK
  {
    if den < SLACK {
      forall raw: nat
        ensures FloorWithSlack(raw, den) == raw / den
      {
        SlackAt(raw, den);
      }
    } else {
      SlackReached(den);
    }
  }

  /** Round is the one whole number within half a unit, halves going up. */
  lemma RoundIsNearest(n: nat, den: nat)
    requires den > 0
    ensures 2 * n < 2 * den * Round(n, den) + den
    ensures 2 * den * Round(n, den) <= 2 * n + den
  {
    var m := 2 * n + den;
    assert m == (2 * den) * (m / (2 * den)) + m % (2 * den);
  }

  lemma FloorSumAtMost(raw: seq<nat>, den: nat, target: nat)
    requires den > 0 && Sum(raw) < den * target + den
    ensures Sum(Floors(raw, den)) <= target
  {
    FloorsAndRemainders(raw, den);
    var rems := Remainders(raw, den);
    NonNegative(rems, |rems|);
    MultiplesGrow(den, target, Sum(Floors(raw, den)));
  }

  lemma {:induction false} NonNegative(s: seq<nat>, n: nat)
    requires n <= |s|
    ensures SumTo(s, n) >= 0
  {
    if n > 0 {
      NonNegative(s, n - 1);
    }
  }

  /** A rounded total is always a target that can be shared out fairly. */
  lemma RoundedTotalIsFair(raw: seq<nat>, den: nat)
    requires den > 0 && Sum(raw) >= 0
    ensures Sum(Floors(raw, den)) <= Round(Sum(raw), den)
    ensures WithinCeiling(raw, den, Round(Sum(raw), den))
  {
    RoundIsNearest(Sum(raw), den);
    FloorSumAtMost(raw, den, Round(Sum(raw), den));
  }

  /** So is the difference of two rounded totals, for the difference of the raw ones. */
  lemma RoundedDifferenceIsFair(raw: seq<nat>, gross: nat, discount: nat, den: nat)
    requires den > 0 && Sum(raw) == gross - discount && discount <= gross
    ensures Round(gross, den) >= Round(discount, den)
    ensures Sum(Floors(raw, den)) <= Round(gross, den) - Round(discount, den)
    ensures WithinCeiling(raw, den, Round(gross, den) - Round(discount, den))
  {
    RoundIsNearest(gross, den);
    RoundIsNearest(discount, den);
    RoundMonotone(discount, gross, den);
    var target := Round(gross, den) - Round(discount, den);
    assert 2 * den * Round(gross, den) - 2 * den * Round(discount, den) == 2 * den * target;
    FloorSumAtMost(raw, den, target);
  }

  lemma RoundMonotone(a: nat, b: nat, den: nat)
    requires den > 0 && a <= b
    ensures Round(a, den) <= Round(b, den)
  {
    RoundIsNearest(a, den);
    RoundIsNearest(b, den);
    MultiplesGrow(2 * den, Round(b, den), Round(a, den));
  }

  lemma MultipleWithin(d: nat, e: int)
    requires -2 * d < d * e < 2 * d
    ensures -1 <= e <= 1
  {
    MultiplesGrow(d, 1, e);
    MultiplesGrow(d, e, -1);
  }

  lemma DriftBound(d: nat, x: int, y: int, z: int, a: int, b: int, dx: int, dy: int, dz: int)
    requires dx == d * x && dy == d * y && dz == d * z
    requires 2 * a - d < 2 * dx <= 2 * a + d
    requires 2 * b - d < 2 * dy <= 2 * b + d
    requires 2 * (a + b) - d < 2 * dz <= 2 * (a + b) + d
    ensures -1 <= z - x - y <= 1
  {
    assert d * (z - x - y) == dz - dx - dy;
    MultipleWithin(d, z - x - y);
  }

  /** Rounding two parts separately moves the total by at most one unit. */
  lemma RoundedPartsDrift(a: nat, b: nat, den: nat)
    requires den > 0
    ensures -1 <= Round(a + b, den) - Round(a, den) - Round(b, den) <= 1
  {
    RoundIsNearest(a, den);
    RoundIsNearest(b, den);
    RoundIsNearest(a + b, den);
    var x, y, z := Round(a, den), Round(b, den), Round(a + b, den);
    DriftBound(2 * den, x, y, z, 2 * a, 2 * b, 2 * den * x, 2 * den * y, 2 * den * z);
  }

  lemma RoundShift(n: nat, q: nat, den: nat)
    requires den > 0
    ensures Round(n + den * q, den) == Round(n, den) + q
  {
    var m := 2 * n + den;
    assert m == (2 * den) * (m / (2 * den)) + m % (2 * den);
    assert 2 * (n + den * q) + den == (2 * den) * (m / (2 * den) + q) + m % (2 * den);
    QuotientIs(2 * (n + den * q) + den, 2 * den, m / (2 * den) + q);
  }

  /** Adding x moves a rounded amount by x rounded down or up, whatever the amount. */
  lemma RoundedStep(x: nat, y: nat, den: nat)
    requires den > 0
    ensures x / den <= Round(x + y, den) - Round(y, den) <= x / den + 1
  {
    var q, r := x / den, x % den;
    assert x + y == r + y + den * q;
    RoundShift(r + y, q, den);
    RoundMonotone(y, r + y, den);
    RoundMonotone(r + y, y + den, den);
    RoundShift(y, 1, den);
  }
}
