/** Steps applied to a state one item after the other until one of them fails. */
module Folds {
  import opened Checked

  /** From `st`, the items start, ..., end - 1. */
  function Fold<S, X>(step: (S, X) -> Result<S>, st: S, xs: seq<X>, start: nat, end: nat): Result<S>
    requires start <= end <= |xs|
    decreases end
  {
    if end == start then Ok(st)
    else
      var before :- Fold(step, st, xs, start, end - 1);
      step(before, xs[end - 1])
  }

  /** An error stops a run for good. */
  lemma {:induction false} FoldStops<S, X>(step: (S, X) -> Result<S>, st: S, xs: seq<X>, start: nat, k: nat, end: nat)
    requires start <= k <= end <= |xs|
    requires Fold(step, st, xs, start, k).Err?
    ensures Fold(step, st, xs, start, end) == Fold(step, st, xs, start, k)
  {
    if k < end { FoldStops(step, st, xs, start, k, end - 1); }
  }

  /** One iteration of a loop over a fold. */
  lemma {:induction false} FoldNext<S, X>(step: (S, X) -> Result<S>, st: S, xs: seq<X>, start: nat, i: nat, end: nat,
      at: S)
    requires start <= i < end <= |xs| && Fold(step, st, xs, start, i) == Ok(at)
    ensures Fold(step, st, xs, start, i + 1) == step(at, xs[i])
    ensures step(at, xs[i]).Err? ==> Fold(step, st, xs, start, end) == step(at, xs[i])
  {
    if step(at, xs[i]).Err? { FoldStops(step, st, xs, start, i + 1, end); }
  }

  /** A run may be interrupted anywhere and taken up again. */
  lemma {:induction false} FoldComposes<S, X>(step: (S, X) -> Result<S>, st: S, xs: seq<X>, start: nat, middle: nat,
      end: nat)
    requires start <= middle <= end <= |xs|
    requires Fold(step, st, xs, start, middle).Ok?
    ensures Fold(step, st, xs, start, end)
            == Fold(step, Fold(step, st, xs, start, middle).value, xs, middle, end)
  {
    if end > middle { FoldComposes(step, st, xs, start, middle, end - 1); }
  }

  ghost predicate KeptByStep<S(!new), X>(step: (S, X) -> Result<S>, xs: seq<X>, inv: (S, nat) -> bool) {
    forall st: S, i: nat {:trigger inv(st, i)} |
      i < |xs| && inv(st, i) && step(st, xs[i]).Ok? :: inv(step(st, xs[i]).value, i + 1)
  }

  /** What holds at the start and is kept by every step holds after any number of them. */
  lemma {:induction false} FoldInduction<S(!new), X>(step: (S, X) -> Result<S>, st: S, xs: seq<X>, n: nat,
      inv: (S, nat) -> bool)
    requires n <= |xs| && inv(st, 0) && KeptByStep(step, xs, inv)
    requires Fold(step, st, xs, 0, n).Ok?
    ensures inv(Fold(step, st, xs, 0, n).value, n)
  {
    if n > 0 { FoldInduction(step, st, xs, n - 1, inv); }
  }

  /** A run that passed had passed at each of its steps. */
  lemma {:induction false} FoldPassedAt<S, X>(step: (S, X) -> Result<S>, st: S, xs: seq<X>, n: nat, i: nat)
    requires i < n <= |xs|
    requires Fold(step, st, xs, 0, n).Ok?
    ensures Fold(step, st, xs, 0, i).Ok?
    ensures step(Fold(step, st, xs, 0, i).value, xs[i]).Ok?
  {
    if i + 1 < n { FoldPassedAt(step, st, xs, n - 1, i); }
  }

  /** Only the items folded over matter. */
  lemma {:induction false} FoldSameItems<S, X>(step: (S, X) -> Result<S>, st: S, xs: seq<X>, ys: seq<X>, n: nat)
    requires n <= |xs| && n <= |ys|
    requires forall i :: 0 <= i < n ==> xs[i] == ys[i]
    ensures Fold(step, st, xs, 0, n) == Fold(step, st, ys, 0, n)
  {
    if n > 0 { FoldSameItems(step, st, xs, ys, n - 1); }
  }

  lemma {:induction false} FoldAppend<S, X>(step: (S, X) -> Result<S>, st: S, xs: seq<X>, x: X)
    ensures Fold(step, st, xs + [x], 0, |xs| + 1) ==
            match Fold(step, st, xs, 0, |xs|)
            case Ok(before) => step(before, x)
            case Err(e) => Err(e)
  {
    FoldSameItems(step, st, xs, xs + [x], |xs|);
  }

  /** Two steps that agree on every item fold alike. */
  lemma {:induction false} FoldSameStep<S(!new), X>(f: (S, X) -> Result<S>, g: (S, X) -> Result<S>, st: S, xs: seq<X>,
      n: nat)
    requires n <= |xs|
    requires forall s: S, i :: 0 <= i < n ==> f(s, xs[i]) == g(s, xs[i])
    ensures Fold(f, st, xs, 0, n) == Fold(g, st, xs, 0, n)
  {
    if n > 0 { FoldSameStep(f, g, st, xs, n - 1); }
  }

  ghost predicate NeverFails<S(!new), X>(step: (S, X) -> Result<S>, xs: seq<X>, inv: (S, nat) -> bool, error: Error) {
    forall st: S, i: nat {:trigger inv(st, i)} | i < |xs| && inv(st, i) :: step(st, xs[i]) != Err(error)
  }

  /** An error no step can raise from a state of the invariant is never the outcome. */
  lemma {:induction false} FoldNeverFails<S(!new), X>(step: (S, X) -> Result<S>, st: S, xs: seq<X>, n: nat,
      inv: (S, nat) -> bool, error: Error)
    requires n <= |xs| && inv(st, 0) && KeptByStep(step, xs, inv) && NeverFails(step, xs, inv, error)
    ensures Fold(step, st, xs, 0, n) != Err(error)
  {
    if n > 0 {
      FoldNeverFails(step, st, xs, n - 1, inv, error);
      if Fold(step, st, xs, 0, n - 1).Ok? { FoldInduction(step, st, xs, n - 1, inv); }
    }
  }
}
