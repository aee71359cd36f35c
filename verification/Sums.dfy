/** Weighted sums and folds over sequences. */
module Sums {
  function Sum<T>(f: T -> nat, xs: seq<T>): nat {
    if xs == [] then 0 else Sum(f, xs[..|xs| - 1]) + f(xs[|xs| - 1])
  }

  lemma SumAppend<T>(f: T -> nat, xs: seq<T>, x: T)
    ensures Sum(f, xs + [x]) == Sum(f, xs) + f(x)
  {
    assert (xs + [x])[..|xs|] == xs;
  }

  lemma {:induction false} SumUpdate<T>(f: T -> nat, xs: seq<T>, i: nat, x: T)
    requires i < |xs|
    ensures Sum(f, xs[i := x]) + f(xs[i]) == Sum(f, xs) + f(x)
  {
    var ys := xs[i := x];
    if i == |xs| - 1 {
      assert ys[..|ys| - 1] == xs[..|xs| - 1];
    } else {
      SumUpdate(f, xs[..|xs| - 1], i, x);
      assert ys[..|ys| - 1] == xs[..|xs| - 1][i := x];
    }
  }

  lemma {:induction false} SumMember<T>(f: T -> nat, xs: seq<T>, i: nat)
    requires i < |xs|
    ensures f(xs[i]) <= Sum(f, xs)
  {
    if i < |xs| - 1 {
      SumMember(f, xs[..|xs| - 1], i);
    }
  }

  lemma {:induction false} SumPair<T>(f: T -> nat, xs: seq<T>, i: nat, k: nat)
    requires i < k < |xs|
    ensures f(xs[i]) + f(xs[k]) <= Sum(f, xs)
  {
    if k == |xs| - 1 {
      SumMember(f, xs[..k], i);
    } else {
      SumPair(f, xs[..|xs| - 1], i, k);
    }
  }

  lemma {:induction false} SumZero<T>(f: T -> nat, xs: seq<T>)
    requires forall i :: 0 <= i < |xs| ==> f(xs[i]) == 0
    ensures Sum(f, xs) == 0
  {
    if xs != [] {
      SumZero(f, xs[..|xs| - 1]);
    }
  }

  lemma {:induction false} SumSplit<T>(f: T -> nat, g: T -> nat, h: T -> nat, xs: seq<T>)
    requires forall i :: 0 <= i < |xs| ==> f(xs[i]) == g(xs[i]) + h(xs[i])
    ensures Sum(f, xs) == Sum(g, xs) + Sum(h, xs)
  {
    if xs != [] {
      SumSplit(f, g, h, xs[..|xs| - 1]);
    }
  }

  function FoldLeft<V, E>(f: (V, E) -> V, v: V, es: seq<E>): V {
    if es == [] then v else f(FoldLeft(f, v, es[..|es| - 1]), es[|es| - 1])
  }

  lemma FoldAppend<V, E>(f: (V, E) -> V, v: V, es: seq<E>, e: E)
    ensures FoldLeft(f, v, es + [e]) == f(FoldLeft(f, v, es), e)
  {
    assert (es + [e])[..|es|] == es;
  }

  lemma FoldAppendTwo<V, E>(f: (V, E) -> V, v: V, es: seq<E>, a: E, b: E)
    ensures FoldLeft(f, v, es + [a, b]) == f(f(FoldLeft(f, v, es), a), b)
  {
    FoldAppend(f, v, es, a);
    FoldAppend(f, v, es + [a], b);
    assert es + [a] + [b] == es + [a, b];
  }
}
