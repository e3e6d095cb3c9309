/** Finite sums: over a sequence, over a range of days, and over a set in no particular order. */
module Sums {

  /** The sum of the first n elements. */
  function SumTo(s: seq<int>, n: nat): int
    requires n <= |s|
  {
    if n == 0 then 0 else SumTo(s, n - 1) + s[n - 1]
  }

  function Sum(s: seq<int>): int {
    SumTo(s, |s|)
  }

  lemma {:induction false} SumToAgree(s: seq<int>, t: seq<int>, n: nat)
    requires n <= |s| && n <= |t|
    requires forall i :: 0 <= i < n ==> s[i] == t[i]
    ensures SumTo(s, n) == SumTo(t, n)
  {
    if n > 0 {
      SumToAgree(s, t, n - 1);
    }
  }

  lemma SumAppend(s: seq<int>, x: int)
    ensures Sum(s + [x]) == Sum(s) + x
  {
    SumToAgree(s + [x], s, |s|);
  }

  lemma {:induction false} SumUpdate(s: seq<int>, i: nat, x: int, n: nat)
    requires i < n <= |s|
    ensures SumTo(s[i := x], n) == SumTo(s, n) - s[i] + x
  {
    if i == n - 1 {
      SumToAgree(s[i := x], s, n - 1);
    } else {
      SumUpdate(s, i, x, n - 1);
    }
  }

  /** The sum of f(d) over the days lo <= d < hi. */
  ghost function SumRange(f: int -> int, lo: int, hi: int): int
    requires lo <= hi
    decreases hi - lo
  {
    if lo == hi then 0 else SumRange(f, lo, hi - 1) + f(hi - 1)
  }

  lemma {:induction false} SumRangeSplit(f: int -> int, lo: int, cut: int, hi: int)
    requires lo <= cut <= hi
    ensures SumRange(f, lo, hi) == SumRange(f, lo, cut) + SumRange(f, cut, hi)
    decreases hi - cut
  {
    if cut < hi {
      SumRangeSplit(f, lo, cut, hi - 1);
    }
  }

  lemma {:induction false} SumRangeEqual(f: int -> int, g: int -> int, lo: int, hi: int)
    requires lo <= hi
    requires forall d :: lo <= d < hi ==> f(d) == g(d)
    ensures SumRange(f, lo, hi) == SumRange(g, lo, hi)
    decreases hi - lo
  {
    if lo < hi {
      SumRangeEqual(f, g, lo, hi - 1);
    }
  }

  /** The sum of f over the elements of s; the order in which they are taken does not matter. */
  ghost function SumOver<K(!new)>(s: set<K>, f: K -> int): int {
    if s == {} then 0 else var k :| k in s; f(k) + SumOver(s - {k}, f)
  }

  lemma {:induction false} SumOverRemove<K(!new)>(s: set<K>, f: K -> int, k: K)
    requires k in s
    ensures SumOver(s, f) == f(k) + SumOver(s - {k}, f)
    decreases |s|
  {
    var j :| j in s && SumOver(s, f) == f(j) + SumOver(s - {j}, f);
    if j != k {
      SumOverRemove(s - {j}, f, k);
      SumOverRemove(s - {k}, f, j);
      assert s - {j} - {k} == s - {k} - {j};
    }
  }

  lemma SumOverAdd<K(!new)>(s: set<K>, f: K -> int, k: K)
    requires k !in s
    ensures SumOver(s + {k}, f) == SumOver(s, f) + f(k)
  {
    SumOverRemove(s + {k}, f, k);
    assert s + {k} - {k} == s;
  }

  lemma {:induction false} SumOverEqual<K(!new)>(s: set<K>, f: K -> int, g: K -> int)
    requires forall k :: k in s ==> f(k) == g(k)
    ensures SumOver(s, f) == SumOver(s, g)
    decreases |s|
  {
    if s != {} {
      var k :| k in s;
      SumOverRemove(s, f, k);
      SumOverRemove(s, g, k);
      SumOverEqual(s - {k}, f, g);
    }
  }

  lemma {:induction false} SumOverPlus<K(!new)>(s: set<K>, f: K -> int, g: K -> int, h: K -> int)
    requires forall k :: k in s ==> h(k) == f(k) + g(k)
    ensures SumOver(s, h) == SumOver(s, f) + SumOver(s, g)
    decreases |s|
  {
    if s != {} {
      var k :| k in s;
      SumOverRemove(s, f, k);
      SumOverRemove(s, g, k);
      SumOverRemove(s, h, k);
      SumOverPlus(s - {k}, f, g, h);
    }
  }

  lemma {:induction false} SumOverAtMost<K(!new)>(s: set<K>, f: K -> int, g: K -> int)
    requires forall k :: k in s ==> f(k) <= g(k)
    ensures SumOver(s, f) <= SumOver(s, g)
    decreases |s|
  {
    if s != {} {
      var k :| k in s;
      SumOverRemove(s, f, k);
      SumOverRemove(s, g, k);
      SumOverAtMost(s - {k}, f, g);
    }
  }

  /** Elements on which f is zero can be added or left out. */
  lemma {:induction false} SumOverSuperset<K(!new)>(s: set<K>, t: set<K>, f: K -> int)
    requires s <= t
    requires forall k :: k in t - s ==> f(k) == 0
    ensures SumOver(s, f) == SumOver(t, f)
    decreases |t - s|
  {
    if t - s != {} {
      var k :| k in t - s;
      SumOverRemove(t, f, k);
      assert (t - {k}) - s == (t - s) - {k};
      SumOverSuperset(s, t - {k}, f);
    } else {
      assert s == t;
    }
  }

  /** When f and g differ at one element only, so do their sums, by the same amount. */
  lemma SumOverUpdate<K(!new)>(s: set<K>, f: K -> int, g: K -> int, k: K)
    requires k in s
    requires forall j :: j in s && j != k ==> f(j) == g(j)
    ensures SumOver(s, g) == SumOver(s, f) - f(k) + g(k)
  {
    SumOverRemove(s, f, k);
    SumOverRemove(s, g, k);
    SumOverEqual(s - {k}, f, g);
  }

  lemma TimesSum(a: int, b: int, n: int)
    ensures (a + b) * n == a * n + b * n
  {
  }

  lemma {:induction false} SumOverTimes<K(!new)>(s: set<K>, f: K -> int, n: int, g: K -> int)
    requires forall k :: k in s ==> g(k) == f(k) * n
    ensures SumOver(s, g) == SumOver(s, f) * n
    decreases |s|
  {
    if s != {} {
      var k :| k in s;
      SumOverRemove(s, f, k);
      SumOverRemove(s, g, k);
      SumOverTimes(s - {k}, f, n, g);
      TimesSum(f(k), SumOver(s - {k}, f), n);
    }
  }
}
