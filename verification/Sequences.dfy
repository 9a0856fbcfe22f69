/** Sums over sequences. */
module Sequences {

  function Sum<T>(xs: seq<T>, f: T -> int): int {
    if xs == [] then 0 else Sum(xs[..|xs| - 1], f) + f(xs[|xs| - 1])
  }

  lemma {:induction false} SumAppend<T>(xs: seq<T>, x: T, f: T -> int)
    ensures Sum(xs + [x], f) == Sum(xs, f) + f(x)
  {
    assert (xs + [x])[..|xs|] == xs;
  }

  lemma {:induction false} SumConcat<T>(xs: seq<T>, ys: seq<T>, f: T -> int)
    ensures Sum(xs + ys, f) == Sum(xs, f) + Sum(ys, f)
  {
    if ys == [] {
      assert xs + ys == xs;
    } else {
      var last := |ys| - 1;
      SumConcat(xs, ys[..last], f);
      assert xs + ys == (xs + ys[..last]) + [ys[last]];
      SumAppend(xs + ys[..last], ys[last], f);
    }
  }

  lemma {:induction false} SumNonNegative<T>(xs: seq<T>, f: T -> int)
    requires forall i :: 0 <= i < |xs| ==> f(xs[i]) >= 0
    ensures Sum(xs, f) >= 0
  {
    if xs != [] { SumNonNegative(xs[..|xs| - 1], f); }
  }

  /** A prefix of non-negative summands never exceeds the whole. */
  lemma {:induction false} SumPrefix<T>(xs: seq<T>, n: nat, f: T -> int)
    requires n <= |xs|
    requires forall i :: 0 <= i < |xs| ==> f(xs[i]) >= 0
    ensures 0 <= Sum(xs[..n], f) <= Sum(xs, f)
  {
    assert xs == xs[..n] + xs[n..];
    SumConcat(xs[..n], xs[n..], f);
    SumNonNegative(xs[..n], f);
    SumNonNegative(xs[n..], f);
  }

  /** A sum does not depend on the order of its summands. */
  lemma {:induction false} SumPermutation<T>(xs: seq<T>, ys: seq<T>, f: T -> int)
    requires multiset(xs) == multiset(ys)
    ensures Sum(xs, f) == Sum(ys, f)
  {
    assert |multiset(xs)| == |xs| && |multiset(ys)| == |ys|;
    if xs != [] {
      var last := |xs| - 1;
      assert xs == xs[..last] + [xs[last]];
      assert xs[last] in multiset(ys);
      var i :| 0 <= i < |ys| && ys[i] == xs[last];
      assert ys == ys[..i] + [ys[i]] + ys[i + 1..];
      var rest := ys[..i] + ys[i + 1..];
      assert multiset(rest) == multiset(ys) - multiset{xs[last]};
      SumPermutation(xs[..last], rest, f);
      SumConcat(ys[..i], ys[i + 1..], f);
      SumConcat(ys[..i] + [ys[i]], ys[i + 1..], f);
      SumAppend(ys[..i], ys[i], f);
    }
  }

  lemma {:induction false} TakeNext<T>(xs: seq<T>, i: nat)
    requires i < |xs|
    ensures xs[..i + 1] == xs[..i] + [xs[i]]
  {
  }

  lemma {:induction false} SumEqual<T>(xs: seq<T>, f: T -> int, g: T -> int)
    requires forall i :: 0 <= i < |xs| ==> f(xs[i]) == g(xs[i])
    ensures Sum(xs, f) == Sum(xs, g)
  {
    if xs != [] { SumEqual(xs[..|xs| - 1], f, g); }
  }

  lemma {:induction false} SumNonPositive<T>(xs: seq<T>, f: T -> int)
    requires forall i :: 0 <= i < |xs| ==> f(xs[i]) <= 0
    ensures Sum(xs, f) <= 0
  {
    if xs != [] { SumNonPositive(xs[..|xs| - 1], f); }
  }

  /** When the summands from n on are not positive, the first n sum to at least the whole. */
  lemma {:induction false} SumSuffix<T>(xs: seq<T>, n: nat, f: T -> int)
    requires n <= |xs|
    requires forall i :: n <= i < |xs| ==> f(xs[i]) <= 0
    ensures Sum(xs[..n], f) >= Sum(xs, f)
  {
    assert xs == xs[..n] + xs[n..];
    SumConcat(xs[..n], xs[n..], f);
    SumNonPositive(xs[n..], f);
  }
}
