/** Steps that may fail, taken for one item after another; the first failure ends them. */
module Folds {
  import opened Wrappers

  function Fold<S, T>(step: (S, T) -> Result<S>, start: S, items: seq<T>, n: nat): Result<S>
    requires n <= |items|
  {
    if n == 0 then Ok(start)
    else
      match Fold(step, start, items, n - 1)
      case Err(error) => Err(error)
      case Ok(before) => step(before, items[n - 1])
  }

  lemma FoldStep<S, T>(step: (S, T) -> Result<S>, start: S, items: seq<T>, i: nat, before: S)
    requires i < |items| && Fold(step, start, items, i) == Ok(before)
    ensures Fold(step, start, items, i + 1) == step(before, items[i])
  {
  }

  lemma {:induction false} FoldFails<S, T>(step: (S, T) -> Result<S>, start: S, items: seq<T>, i: nat)
    requires i <= |items| && Fold(step, start, items, i).Err?
    ensures Fold(step, start, items, |items|) == Fold(step, start, items, i)
    decreases |items| - i
  {
    if i < |items| {
      FoldFails(step, start, items, i + 1);
    }
  }

  /** What holds at the start, and is kept by every step, holds in the end. */
  lemma {:induction false} FoldKeeps<S(!new), T>(step: (S, T) -> Result<S>, start: S, items: seq<T>, n: nat,
                                                 inv: (nat, S) -> bool)
    requires n <= |items| && inv(0, start)
    requires forall k: nat, s :: k < |items| && inv(k, s) && step(s, items[k]).Ok? ==> inv(k + 1, step(s, items[k]).value)
    ensures Fold(step, start, items, n).Ok? ==> inv(n, Fold(step, start, items, n).value)
  {
    if n > 0 {
      FoldKeeps(step, start, items, n - 1, inv);
    }
  }

  /** When every step succeeds exactly for the items that are fine, all of them together succeed exactly when all are. */
  lemma {:induction false} FoldSucceedsExactlyWhen<S(!new), T>(step: (S, T) -> Result<S>, start: S, items: seq<T>, n: nat,
                                                               inv: S -> bool, fine: T -> bool)
    requires n <= |items| && inv(start)
    requires forall k: nat, s {:trigger step(s, items[k])} :: k < |items| && inv(s) ==>
               (step(s, items[k]).Ok? <==> fine(items[k])) && (step(s, items[k]).Ok? ==> inv(step(s, items[k]).value))
    ensures Fold(step, start, items, n).Ok? <==> forall i :: 0 <= i < n ==> fine(items[i])
    ensures Fold(step, start, items, n).Ok? ==> inv(Fold(step, start, items, n).value)
  {
    if n > 0 {
      FoldSucceedsExactlyWhen(step, start, items, n - 1, inv, fine);
    }
  }

  /** Steps taken from the front, as a loop that has the rest of its items before it. */
  function Each<S, T>(step: (S, T) -> Result<S>, start: S, items: seq<T>): Result<S> {
    if items == [] then Ok(start)
    else
      match step(start, items[0])
      case Err(error) => Err(error)
      case Ok(after) => Each(step, after, items[1..])
  }

  lemma EachStep<S, T>(step: (S, T) -> Result<S>, start: S, first: T, rest: seq<T>)
    ensures var after := step(start, first);
            Each(step, start, [first] + rest) == if after.Ok? then Each(step, after.value, rest) else Err(after.error)
  {
    assert ([first] + rest)[1..] == rest;
  }
}
