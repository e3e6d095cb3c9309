/** Taking the elements of a set of numbers in ascending order. */
module SortedSets {

  method PickOne<K>(s: set<K>) returns (k: K)
    requires s != {}
    ensures k in s
  {
    k :| k in s;
  }

  method Earliest(s: set<int>) returns (least: int)
    requires s != {}
    ensures least in s && forall d :: d in s ==> least <= d
  {
    least := PickOne(s);
    var rest := s;
    while rest != {}
      invariant rest <= s && least in s
      invariant forall d :: d in s ==> d in rest || least <= d
      decreases rest
    {
      var d := PickOne(rest);
      rest := rest - {d};
      if d < least {
        least := d;
      }
    }
  }

  ghost predicate Ascending(keys: seq<int>) {
    forall i, j :: 0 <= i < j < |keys| ==> keys[i] < keys[j]
  }

  /** The keys are exactly the elements of the set, in ascending order. */
  ghost predicate Enumerates(keys: seq<int>, s: set<int>) {
    Ascending(keys) && forall k :: k in keys <==> k in s
  }

  lemma {:induction false} EnumerationIsUnique(a: seq<int>, b: seq<int>, s: set<int>)
    requires Enumerates(a, s) && Enumerates(b, s)
    ensures a == b
    decreases |a|
  {
    EmptyEnumeration(a, s);
    EmptyEnumeration(b, s);
    if a != [] {
      assert a[0] in a && a[0] in b && b[0] in b && b[0] in a;
      assert a[0] == b[0];
      var k := a[0];
      TailEnumerates(a, s);
      TailEnumerates(b, s);
      EnumerationIsUnique(a[1..], b[1..], s - {k});
    }
  }

  lemma EmptyEnumeration(a: seq<int>, s: set<int>)
    requires Enumerates(a, s)
    ensures a == [] <==> s == {}
  {
    if a != [] {
      assert a[0] in a && a[0] in s;
    } else {
      forall k
        ensures k !in s
      {
        assert k !in a;
      }
    }
  }

  lemma TailEnumerates(a: seq<int>, s: set<int>)
    requires Enumerates(a, s) && a != []
    ensures Enumerates(a[1..], s - {a[0]})
  {
    forall k
      ensures k in a[1..] <==> k in s - {a[0]}
    {
      assert k in a <==> k == a[0] || k in a[1..];
      if k in a[1..] {
        var i :| 0 <= i < |a[1..]| && a[1..][i] == k;
        assert a[i + 1] == k;
      }
    }
  }

  method SortSet(s: set<int>) returns (keys: seq<int>)
    ensures Enumerates(keys, s)
  {
    keys := [];
    var rest := s;
    while rest != {}
      invariant rest <= s && Ascending(keys)
      invariant forall i, d :: 0 <= i < |keys| && d in rest ==> keys[i] < d
      invariant forall k :: k in s <==> k in rest || k in keys
      decreases rest
    {
      var least := Earliest(rest);
      rest := rest - {least};
      keys := keys + [least];
    }
  }
}
