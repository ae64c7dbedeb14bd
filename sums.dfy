/** Exact sums of a real-valued measure over a sequence, with the algebra
    the conservation proofs of the cost-basis engine rely on. */
module Sums {

  /** The sum of f over xs, from the front. */
  function Sum<T>(xs: seq<T>, f: T -> real): real
  {
    if xs == [] then 0.0 else f(xs[0]) + Sum(xs[1..], f)
  }

  /** Summing distributes over concatenation. */
  lemma {:induction false} SumAppend<T>(xs: seq<T>, ys: seq<T>, f: T -> real)
    ensures Sum(xs + ys, f) == Sum(xs, f) + Sum(ys, f)
  {
    if xs == [] {
      assert xs + ys == ys;
    } else {
      assert (xs + ys)[1..] == xs[1..] + ys;
      SumAppend(xs[1..], ys, f);
    }
  }

  /** The sum of a sequence with one element in front. */
  lemma SumCons<T>(x: T, xs: seq<T>, f: T -> real)
    ensures Sum([x] + xs, f) == f(x) + Sum(xs, f)
  {
    assert ([x] + xs)[1..] == xs;
  }

  /** Dropping the last element removes exactly its measure. */
  lemma SumDropLast<T>(xs: seq<T>, f: T -> real)
    requires xs != []
    ensures Sum(xs, f) == Sum(xs[..|xs| - 1], f) + f(xs[|xs| - 1])
  {
    var n := |xs| - 1;
    assert xs == xs[..n] + [xs[n]];
    SumAppend(xs[..n], [xs[n]], f);
  }

  /** Replacing one element changes the sum by the difference of the two measures. */
  lemma {:induction false} SumUpdate<T>(xs: seq<T>, i: nat, x: T, f: T -> real)
    requires i < |xs|
    ensures Sum(xs[i := x], f) == Sum(xs, f) - f(xs[i]) + f(x)
  {
    if i > 0 {
      assert xs[i := x][1..] == xs[1..][i - 1 := x];
      SumUpdate(xs[1..], i - 1, x, f);
    }
  }

  /** A sum of non-negative measures is non-negative. */
  lemma {:induction false} SumNonNegative<T>(xs: seq<T>, f: T -> real)
    requires forall j :: 0 <= j < |xs| ==> f(xs[j]) >= 0.0
    ensures Sum(xs, f) >= 0.0
  {
    if xs != [] {
      SumNonNegative(xs[1..], f);
    }
  }

  /** Two measures that add up pointwise to a third add up in sum as well. */
  lemma {:induction false} SumSplit<T>(xs: seq<T>, f: T -> real, g: T -> real, h: T -> real)
    requires forall j :: 0 <= j < |xs| ==> f(xs[j]) + g(xs[j]) == h(xs[j])
    ensures Sum(xs, f) + Sum(xs, g) == Sum(xs, h)
  {
    if xs != [] {
      SumSplit(xs[1..], f, g, h);
    }
  }

  /** A measure that is pointwise a constant multiple of another sums to that multiple. */
  lemma {:induction false} SumScale<T>(xs: seq<T>, f: T -> real, g: T -> real, c: real)
    requires forall j :: 0 <= j < |xs| ==> f(xs[j]) == c * g(xs[j])
    ensures Sum(xs, f) == c * Sum(xs, g)
  {
    if xs != [] {
      SumScale(xs[1..], f, g, c);
    }
  }
}
