/** A run cut into batches of equal size: where its steps begin, and how many it takes. */
module Batches {
  import opened Checked

  /** How much of `total` is done after k steps. */
  function CursorAfter(total: nat, batch: nat, k: nat): (cursor: nat)
    ensures cursor <= total
  {
    Min(k * batch, total)
  }

  lemma {:induction false} CursorStep(total: nat, batch: nat, k: nat)
    requires k > 0
    ensures CursorAfter(total, batch, k) == Min(CursorAfter(total, batch, k - 1) + batch, total)
    ensures CursorAfter(total, batch, k - 1) <= CursorAfter(total, batch, k)
  {
    assert k * batch == (k - 1) * batch + batch;
  }

  /** The number of steps a run takes: the total divided by the batch, rounded up. */
  function StepsNeeded(total: nat, batch: nat): nat
    requires batch > 0
  {
    CeilDiv(total, batch)
  }

  lemma {:induction false} CursorReachesEnd(total: nat, batch: nat, k: nat)
    requires batch > 0
    ensures CursorAfter(total, batch, k) == total <==> k >= StepsNeeded(total, batch)
  {
    CeilDivLeast(total, batch);
    if k >= StepsNeeded(total, batch) { MulMonotone(StepsNeeded(total, batch), k, batch); }
  }

  /** A step done k times, until one fails. */
  function Repeat<T>(step: T -> Result<T>, start: Result<T>, k: nat): Result<T> {
    if k == 0 then start
    else
      var before :- Repeat(step, start, k - 1);
      step(before)
  }

  lemma {:induction false} RepeatNeedsStart<T>(step: T -> Result<T>, start: Result<T>, k: nat)
    requires Repeat(step, start, k).Ok?
    ensures start.Ok?
  {
    if k > 0 { RepeatNeedsStart(step, start, k - 1); }
  }

  /** One more step; none once a step has failed. */
  function Continue<T>(step: T -> Result<T>, r: Result<T>): Result<T> {
    var at :- r;
    step(at)
  }

  lemma {:induction false} RepeatIs<T>(step: T -> Result<T>, start: Result<T>, k: nat, at: nat -> Result<T>)
    requires start == at(0) && forall j: nat :: j < k ==> Continue(step, at(j)) == at(j + 1)
    ensures Repeat(step, start, k) == at(k)
  {
    if k > 0 {
      RepeatIs(step, start, k - 1, at);
      assert Continue(step, at(k - 1)) == at(k - 1 + 1);
    }
  }
}
