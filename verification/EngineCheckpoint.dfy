/** Resumable v1 runs. A checkpoint is believed only after its records have been
    validated against the input. What holds of the chain of steps holds for any
    digests and any validators, of inputs and of states, so they are parameters here. */
module EngineCheckpoint {
  import opened Batches
  import opened Checked
  import opened Contexts
  import opened Folds
  import opened Engine
  import opened EngineMachine

  datatype Protocol = Protocol(
    ofInput: Input -> int,
    ofPrefix: seq<Bar> -> int,
    ofState: (nat, nat, State) -> int,
    accepts: Input -> bool,
    validate: (Input, nat, State) -> Result<()>)

  datatype Checkpoint = Checkpoint(
    model: Model,
    context: string,
    inputDigest: int,
    prefixDigest: int,
    totalBars: nat,
    cursor: nat,
    batch: nat,
    complete: bool,
    stateDigest: int,
    state: State)

  function Make(p: Protocol, input: Input, context: string, batch: nat, cursor: nat, st: State): Result<Checkpoint> {
    if cursor > |input.bars| then Err(Inconsistent)
    else Ok(Checkpoint(input.account.model, context, p.ofInput(input), p.ofPrefix(input.bars[..cursor]),
                       |input.bars|, cursor, batch, cursor == |input.bars|, p.ofState(batch, cursor, st), st))
  }

  predicate GoodHeader(p: Protocol, input: Input, context: string, c: Checkpoint) {
    && c.context == context && c.inputDigest == p.ofInput(input) && c.model == input.account.model
    && c.totalBars == |input.bars| && c.batch != 0 && c.cursor <= |input.bars|
    && c.prefixDigest == p.ofPrefix(input.bars[..c.cursor])
    && c.stateDigest == p.ofState(c.batch, c.cursor, c.state)
  }

  function Decode(p: Protocol, input: Input, context: string, c: Checkpoint): Result<Checkpoint> {
    if !ValidContext(context) then Err(BadContext)
    else if !p.accepts(input) then Err(InvalidInput)
    else if !GoodHeader(p, input, context, c) then Err(Inconsistent)
    else
      var valid :- p.validate(input, c.cursor, c.state);
      if c.complete != (c.cursor == |input.bars|) then Err(Inconsistent) else Ok(c)
  }

  function Start(p: Protocol, input: Input, context: string, batch: nat): Result<Checkpoint> {
    if !ValidContext(context) then Err(BadContext)
    else if batch == 0 then Err(BatchSizeZero)
    else if !p.accepts(input) then Err(InvalidInput)
    else Make(p, input, context, batch, 0, InitialState(input.account))
  }

  /** The next batch of a checkpoint that is believed. Whatever stops its bars is
      reported as an inconsistent state. */
  function Advance(p: Protocol, input: Input, context: string, c: Checkpoint): Result<Checkpoint>
    requires c.cursor <= |input.bars|
  {
    if c.complete then Ok(c)
    else
      var end := Min(c.cursor + c.batch, |input.bars|);
      var st :- OrInconsistent(BarsFrom(input, c.state, c.cursor, end));
      Make(p, input, context, c.batch, end, st)
  }

  function Step(p: Protocol, input: Input, context: string, c: Checkpoint): Result<Checkpoint> {
    var decoded :- Decode(p, input, context, c);
    Advance(p, input, context, c)
  }

  function Finalize(p: Protocol, input: Input, context: string, c: Checkpoint): Result<Output> {
    var decoded :- Decode(p, input, context, c);
    if !decoded.complete then Err(Incomplete) else OrInconsistent(Finish(input, c.state))
  }

  method StepCheckpoint(p: Protocol, input: Input, context: string, c: Checkpoint) returns (r: Result<Checkpoint>)
    ensures r == Step(p, input, context, c)
  {
    var decoded :- Decode(p, input, context, c);
    if decoded.complete { return Ok(c); }
    var state := new ExecutionState.FromCheckpoint(c.state);
    var end := Min(c.cursor + c.batch, |input.bars|);
    var done := RunBatch(state, input, c.cursor, end);
    if done.Err? { return Err(Inconsistent); }
    var st := state.ToCheckpoint();
    return Make(p, input, context, c.batch, end, st);
  }

  method FinalizeCheckpoint(p: Protocol, input: Input, context: string, c: Checkpoint) returns (r: Result<Output>)
    ensures r == Finalize(p, input, context, c)
  {
    var decoded :- Decode(p, input, context, c);
    if !decoded.complete { return Err(Incomplete); }
    var state := new ExecutionState.FromCheckpoint(c.state);
    var finished := state.FinishRun(input);
    return OrInconsistent(finished);
  }

  // ---- a chain of steps ----

  function StepOf(p: Protocol, input: Input, context: string): Checkpoint -> Result<Checkpoint> {
    (c: Checkpoint) => Step(p, input, context, c)
  }

  function Chain(p: Protocol, input: Input, context: string, batch: nat, k: nat): Result<Checkpoint> {
    Repeat(StepOf(p, input, context), Start(p, input, context, batch), k)
  }

  /** The validators believe the engine's own state after `cursor` bars. */
  predicate Believed(p: Protocol, input: Input, cursor: nat)
    requires cursor <= |input.bars|
  {
    Replay(input, cursor).Ok? && p.validate(input, cursor, Replay(input, cursor).value).Ok?
  }

  /** The checkpoint of the one-shot run at a cursor. */
  function CheckpointAt(p: Protocol, input: Input, context: string, batch: nat, cursor: nat): Result<Checkpoint>
    requires cursor <= |input.bars|
  {
    var st :- OrInconsistent(Replay(input, cursor));
    Make(p, input, context, batch, cursor, st)
  }

  lemma {:induction false} MadeIsDecoded(p: Protocol, input: Input, context: string, batch: nat, cursor: nat, st: State)
    requires p.accepts(input) && ValidContext(context) && batch > 0 && cursor <= |input.bars|
    ensures Make(p, input, context, batch, cursor, st).Ok?
    ensures var c := Make(p, input, context, batch, cursor, st).value;
            && c.complete == (cursor == |input.bars|) && c.cursor == cursor && c.batch == batch && c.state == st
            && Decode(p, input, context, c).Ok? == p.validate(input, cursor, st).Ok?
            && (Decode(p, input, context, c).Ok? ==> Decode(p, input, context, c) == Ok(c))
  {
  }

  /** Stepping the engine's own checkpoint moves it along the run exactly when the
      validators believe it. */
  lemma {:induction false} StepAdvances(p: Protocol, input: Input, context: string, batch: nat, cursor: nat)
    requires p.accepts(input) && ValidContext(context) && batch > 0 && cursor <= |input.bars|
    requires Replay(input, cursor).Ok?
    ensures var c := CheckpointAt(p, input, context, batch, cursor).value;
            Step(p, input, context, c) ==
            if Believed(p, input, cursor) then CheckpointAt(p, input, context, batch, Min(cursor + batch, |input.bars|))
            else Decode(p, input, context, c)
    ensures var c := CheckpointAt(p, input, context, batch, cursor).value;
            Believed(p, input, cursor) <==> Decode(p, input, context, c).Ok?
  {
    var st := Replay(input, cursor).value;
    var c, end := Make(p, input, context, batch, cursor, st).value, Min(cursor + batch, |input.bars|);
    MadeIsDecoded(p, input, context, batch, cursor, st);
    assert CheckpointAt(p, input, context, batch, cursor) == Ok(c);
    if Decode(p, input, context, c).Ok? {
      BatchContinues(input, cursor, end);
      BelievedSteps(p, input, context, c);
      BelievedAdvances(p, input, context, c, end);
    }
  }

  lemma {:induction false} BatchContinues(input: Input, cursor: nat, end: nat)
    requires cursor <= end <= |input.bars| && Replay(input, cursor).Ok?
    ensures BarsFrom(input, Replay(input, cursor).value, cursor, end) == Replay(input, end)
  {
    FoldComposes(BarStep(input), InitialState(input.account), input.bars, 0, cursor, end);
  }

  lemma {:induction false} BelievedAdvances(p: Protocol, input: Input, context: string, c: Checkpoint, end: nat)
    requires c.cursor <= |input.bars|
    requires c.complete == (c.cursor == |input.bars|) && end == Min(c.cursor + c.batch, |input.bars|)
    requires Replay(input, c.cursor) == Ok(c.state)
    requires BarsFrom(input, c.state, c.cursor, end) == Replay(input, end)
    requires c == Make(p, input, context, c.batch, c.cursor, c.state).value
    ensures Advance(p, input, context, c) == CheckpointAt(p, input, context, c.batch, end)
  {
  }

  lemma {:induction false} BelievedSteps(p: Protocol, input: Input, context: string, c: Checkpoint)
    requires Decode(p, input, context, c) == Ok(c)
    ensures c.cursor <= |input.bars| && Step(p, input, context, c) == Advance(p, input, context, c)
  {
  }

  /** The run reaches the cursor of step k, and every state on the way is believed. */
  predicate GoesThrough(p: Protocol, input: Input, batch: nat, k: nat) {
    && Replay(input, CursorAfter(|input.bars|, batch, k)).Ok?
    && forall j: nat {:trigger CursorAfter(|input.bars|, batch, j)} ::
         j < k ==> Believed(p, input, CursorAfter(|input.bars|, batch, j))
  }

  lemma {:induction false} GoesThroughNext(p: Protocol, input: Input, batch: nat, k: nat)
    requires k > 0
    ensures GoesThrough(p, input, batch, k) <==>
              (GoesThrough(p, input, batch, k - 1) && Believed(p, input, CursorAfter(|input.bars|, batch, k - 1))
               && Replay(input, CursorAfter(|input.bars|, batch, k)).Ok?)
  {
  }

  lemma {:induction false} StepFrom(p: Protocol, input: Input, context: string, batch: nat, before: nat, after: nat,
      c: Checkpoint)
    requires p.accepts(input) && ValidContext(context) && batch > 0 && before <= |input.bars|
    requires after == Min(before + batch, |input.bars|)
    requires Replay(input, before).Ok? && CheckpointAt(p, input, context, batch, before) == Ok(c)
    ensures Step(p, input, context, c).Ok? <==> (Believed(p, input, before) && Replay(input, after).Ok?)
    ensures Step(p, input, context, c).Ok? ==>
              Step(p, input, context, c) == CheckpointAt(p, input, context, batch, after)
  {
    StepAdvances(p, input, context, batch, before);
    StepOutcome(Step(p, input, context, c), Believed(p, input, before), CheckpointAt(p, input, context, batch, after),
                Decode(p, input, context, c));
    AtIsOk(p, input, context, batch, after);
  }

  lemma {:induction false} ChainStep(p: Protocol, input: Input, context: string, batch: nat, k: nat)
    requires p.accepts(input) && ValidContext(context) && batch > 0 && k > 0
    requires Replay(input, CursorAfter(|input.bars|, batch, k - 1)).Ok?
    requires Chain(p, input, context, batch, k - 1)
             == CheckpointAt(p, input, context, batch, CursorAfter(|input.bars|, batch, k - 1))
    ensures Chain(p, input, context, batch, k).Ok? <==>
              (Believed(p, input, CursorAfter(|input.bars|, batch, k - 1))
               && Replay(input, CursorAfter(|input.bars|, batch, k)).Ok?)
    ensures Chain(p, input, context, batch, k).Ok? ==>
              Chain(p, input, context, batch, k)
              == CheckpointAt(p, input, context, batch, CursorAfter(|input.bars|, batch, k))
  {
    var before, after := CursorAfter(|input.bars|, batch, k - 1), CursorAfter(|input.bars|, batch, k);
    CursorStep(|input.bars|, batch, k);
    AtIsOk(p, input, context, batch, before);
    var c := CheckpointAt(p, input, context, batch, before).value;
    ChainNext(p, input, context, batch, k, c);
    StepFrom(p, input, context, batch, before, after, c);
  }

  lemma {:induction false} StepOutcome(r: Result<Checkpoint>, believed: bool, next: Result<Checkpoint>,
      decoded: Result<Checkpoint>)
    requires r == (if believed then next else decoded) && (believed <==> decoded.Ok?)
    ensures r.Ok? <==> believed && next.Ok?
    ensures r.Ok? ==> r == next
  {
  }

  lemma {:induction false} ChainNext(p: Protocol, input: Input, context: string, batch: nat, k: nat, c: Checkpoint)
    requires k > 0 && Chain(p, input, context, batch, k - 1) == Ok(c)
    ensures Chain(p, input, context, batch, k) == Step(p, input, context, c)
  {
  }

  lemma {:induction false} AtIsOk(p: Protocol, input: Input, context: string, batch: nat, cursor: nat)
    requires cursor <= |input.bars|
    ensures CheckpointAt(p, input, context, batch, cursor).Ok? <==> Replay(input, cursor).Ok?
  {
  }

  /** A chain of k steps succeeds exactly when the run goes through, and then holds
      the one-shot state. */
  lemma {:induction false} ChainIs(p: Protocol, input: Input, context: string, batch: nat, k: nat)
    requires p.accepts(input) && ValidContext(context) && batch > 0
    ensures Chain(p, input, context, batch, k).Ok? <==> GoesThrough(p, input, batch, k)
    ensures Chain(p, input, context, batch, k).Ok? ==>
              Chain(p, input, context, batch, k)
              == CheckpointAt(p, input, context, batch, CursorAfter(|input.bars|, batch, k))
  {
    if k == 0 {
      assert CursorAfter(|input.bars|, batch, 0) == 0;
    } else {
      ChainIs(p, input, context, batch, k - 1);
      GoesThroughNext(p, input, batch, k);
      if GoesThrough(p, input, batch, k - 1) {
        ChainStep(p, input, context, batch, k);
      }
    }
  }

  lemma {:induction false} StartNeedsValid(p: Protocol, input: Input, context: string, batch: nat)
    requires Start(p, input, context, batch).Ok?
    ensures p.accepts(input) && ValidContext(context) && batch > 0
  {
  }

  lemma {:induction false} ChainNeedsStart(p: Protocol, input: Input, context: string, batch: nat, k: nat)
    requires Chain(p, input, context, batch, k).Ok?
    ensures Start(p, input, context, batch).Ok?
  {
    RepeatNeedsStart(StepOf(p, input, context), Start(p, input, context, batch), k);
  }

  lemma {:induction false} ChainNeedsValid(p: Protocol, input: Input, context: string, batch: nat, k: nat)
    requires Chain(p, input, context, batch, k).Ok?
    ensures p.accepts(input) && ValidContext(context) && batch > 0
  {
    ChainNeedsStart(p, input, context, batch, k);
    StartNeedsValid(p, input, context, batch);
  }

  /** For every batch size: when start, the steps and finalize all succeed, the
      output is the one-shot output. */
  lemma {:induction false} CheckpointedRunIsOneShot(p: Protocol, input: Input, context: string, batch: nat, k: nat)
    requires p.accepts(input) ==> ValidInput(input)
    requires Chain(p, input, context, batch, k).Ok?
    requires Finalize(p, input, context, Chain(p, input, context, batch, k).value).Ok?
    ensures Finalize(p, input, context, Chain(p, input, context, batch, k).value) == RunEngine(input)
  {
    ChainNeedsValid(p, input, context, batch, k);
    ChainIs(p, input, context, batch, k);
  }

  /** And it succeeds exactly when the one-shot run does and the validators believe
      the engine at every cursor where the run was interrupted, the last included. */
  lemma {:induction false} CheckpointedRunSucceeds(p: Protocol, input: Input, context: string, batch: nat, k: nat)
    requires p.accepts(input) && ValidInput(input) && ValidContext(context) && batch > 0
    requires CursorAfter(|input.bars|, batch, k) == |input.bars|
    ensures (Chain(p, input, context, batch, k).Ok?
             && Finalize(p, input, context, Chain(p, input, context, batch, k).value).Ok?)
            <==> (RunEngine(input).Ok? && GoesThrough(p, input, batch, k) && Believed(p, input, |input.bars|))
  {
    ChainIs(p, input, context, batch, k);
    if GoesThrough(p, input, batch, k) {
      MadeIsDecoded(p, input, context, batch, |input.bars|, Replay(input, |input.bars|).value);
    }
  }
}
