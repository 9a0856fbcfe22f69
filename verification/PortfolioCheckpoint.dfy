/** Resumable v2 runs: a checkpoint carries the state between batches of sessions.
    The digests are arbitrary functions; only their determinism is used. */
module PortfolioCheckpoint {
  import opened Batches
  import opened Checked
  import opened Contexts
  import opened Folds
  import opened Portfolio
  import opened PortfolioMachine

  datatype Digests = Digests(
    ofInput: Input -> int,
    ofPrefix: seq<Session> -> int,
    ofState: (nat, nat, State) -> int)

  datatype Checkpoint = Checkpoint(
    context: string,
    inputDigest: int,
    prefixDigest: int,
    totalSessions: nat,
    cursor: nat,
    batch: nat,
    complete: bool,
    stateDigest: int,
    state: State)

  function Make(d: Digests, input: Input, context: string, batch: nat, cursor: nat, st: State): Result<Checkpoint> {
    if cursor > |input.sessions| then Err(Inconsistent)
    else Ok(Checkpoint(context, d.ofInput(input), d.ofPrefix(input.sessions[..cursor]), |input.sessions|,
                       cursor, batch, cursor == |input.sessions|, d.ofState(batch, cursor, st), st))
  }

  /** A checkpoint is believed when every recomputed field agrees. */
  function Decode(d: Digests, input: Input, context: string, c: Checkpoint): Result<Checkpoint> {
    if !ValidContext(context) then Err(BadContext)
    else if !ValidInput(input) then Err(InvalidInput)
    else if c.context != context || c.inputDigest != d.ofInput(input)
            || c.totalSessions != |input.sessions| || c.batch == 0 || c.cursor > |input.sessions|
            || c.prefixDigest != d.ofPrefix(input.sessions[..c.cursor])
            || c.stateDigest != d.ofState(c.batch, c.cursor, c.state)
            || c.complete != (c.cursor == |input.sessions|)
    then Err(Inconsistent)
    else Ok(c)
  }

  function Start(d: Digests, input: Input, context: string, batch: nat): Result<Checkpoint> {
    if !ValidContext(context) then Err(BadContext)
    else if batch == 0 then Err(BatchSizeZero)
    else if !ValidInput(input) then Err(InvalidInput)
    else Make(d, input, context, batch, 0, InitialState(input.account))
  }

  /** The next batch of a checkpoint that is believed. Whatever stops its sessions is
      reported as an inconsistent state. */
  function Advance(d: Digests, input: Input, context: string, c: Checkpoint): Result<Checkpoint>
    requires c.cursor <= |input.sessions|
  {
    if c.complete then Ok(c)
    else
      var end := Min(c.cursor + c.batch, |input.sessions|);
      AfterBatch(d, input, context, c.batch, end, SessionsFrom(input, c.state, c.cursor, end))
  }

  function AfterBatch(d: Digests, input: Input, context: string, batch: nat, end: nat,
      r: Result<State>): Result<Checkpoint> {
    var st :- OrInconsistent(r);
    Make(d, input, context, batch, end, st)
  }

  function Step(d: Digests, input: Input, context: string, c: Checkpoint): Result<Checkpoint> {
    var decoded :- Decode(d, input, context, c);
    Advance(d, input, context, c)
  }

  function Finalize(d: Digests, input: Input, context: string, c: Checkpoint): Result<Output> {
    var decoded :- Decode(d, input, context, c);
    if !decoded.complete then Err(Incomplete) else OrInconsistent(Finish(input, c.state))
  }

  lemma {:induction false} BelievedSteps(d: Digests, input: Input, context: string, c: Checkpoint)
    requires Decode(d, input, context, c).Ok?
    ensures c.cursor <= |input.sessions| && Step(d, input, context, c) == Advance(d, input, context, c)
  {
  }

  lemma {:induction false} AdvanceIs(d: Digests, input: Input, context: string, c: Checkpoint, end: nat,
      r: Result<State>)
    requires !c.complete && c.cursor <= |input.sessions| && end == Min(c.cursor + c.batch, |input.sessions|)
    requires r == SessionsFrom(input, c.state, c.cursor, end)
    ensures Advance(d, input, context, c) == AfterBatch(d, input, context, c.batch, end, r)
  {
  }

  lemma {:induction false} StepIs(d: Digests, input: Input, context: string, c: Checkpoint, end: nat, r: Result<State>)
    requires Decode(d, input, context, c).Ok? && !c.complete
    requires c.cursor <= |input.sessions| && end == Min(c.cursor + c.batch, |input.sessions|)
    requires r == SessionsFrom(input, c.state, c.cursor, end)
    ensures Step(d, input, context, c) == AfterBatch(d, input, context, c.batch, end, r)
  {
    BelievedSteps(d, input, context, c);
    AdvanceIs(d, input, context, c, end, r);
  }

  lemma {:induction false} CompleteStays(d: Digests, input: Input, context: string, c: Checkpoint)
    requires Decode(d, input, context, c).Ok? && c.complete
    ensures Step(d, input, context, c) == Ok(c)
  {
  }

  /** A batch of sessions run on the object, as the step of the program does it. */
  method StepCheckpoint(d: Digests, input: Input, context: string, c: Checkpoint) returns (r: Result<Checkpoint>)
    ensures r == Step(d, input, context, c)
  {
    var decoded := Decode(d, input, context, c);
    if decoded.Err? { return Err(decoded.error); }
    BelievedSteps(d, input, context, c);
    if c.complete {
      CompleteStays(d, input, context, c);
      return Ok(c);
    }
    var state := new PortfolioState.FromCheckpoint(c.state);
    var end := Min(c.cursor + c.batch, |input.sessions|);
    StepIs(d, input, context, c, end, SessionsFrom(input, c.state, c.cursor, end));
    var done := RunBatch(state, input, c.cursor, end);
    if done.Err? { return Err(Inconsistent); }
    var st := state.ToCheckpoint();
    return Make(d, input, context, c.batch, end, st);
  }

  method FinalizeCheckpoint(d: Digests, input: Input, context: string, c: Checkpoint) returns (r: Result<Output>)
    ensures r == Finalize(d, input, context, c)
  {
    var decoded :- Decode(d, input, context, c);
    if !decoded.complete { return Err(Incomplete); }
    var state := new PortfolioState.FromCheckpoint(c.state);
    var finished := state.FinishRun(input);
    return OrInconsistent(finished);
  }

  // ---- a chain of steps refines the one-shot run ----

  function StepOf(d: Digests, input: Input, context: string): Checkpoint -> Result<Checkpoint> {
    (c: Checkpoint) => Step(d, input, context, c)
  }

  function Chain(d: Digests, input: Input, context: string, batch: nat, k: nat): Result<Checkpoint> {
    Repeat(StepOf(d, input, context), Start(d, input, context, batch), k)
  }

  /** The checkpoint at a cursor of the one-shot run. */
  function CheckpointAt(d: Digests, input: Input, context: string, batch: nat, cursor: nat): Result<Checkpoint>
    requires cursor <= |input.sessions|
  {
    AfterBatch(d, input, context, batch, cursor, RunSessions(input, cursor))
  }

  lemma {:induction false} MadeIsBelieved(d: Digests, input: Input, context: string, batch: nat, cursor: nat, st: State)
    requires ValidInput(input) && ValidContext(context) && batch > 0 && cursor <= |input.sessions|
    ensures Make(d, input, context, batch, cursor, st).Ok?
    ensures var c := Make(d, input, context, batch, cursor, st).value;
            Decode(d, input, context, c) == Ok(c)
  {
  }

  lemma {:induction false} BatchContinues(input: Input, cursor: nat, end: nat)
    requires cursor <= end <= |input.sessions| && RunSessions(input, cursor).Ok?
    ensures SessionsFrom(input, RunSessions(input, cursor).value, cursor, end) == RunSessions(input, end)
  {
    FoldComposes(SessionStep(input), InitialState(input.account), input.sessions, 0, cursor, end);
  }

  lemma {:induction false} BatchAdvances(d: Digests, input: Input, context: string, c: Checkpoint, end: nat,
      r: Result<State>)
    requires Decode(d, input, context, c).Ok? && !c.complete
    requires c.cursor <= |input.sessions| && end == Min(c.cursor + c.batch, |input.sessions|)
    requires r == SessionsFrom(input, c.state, c.cursor, end)
    requires r == RunSessions(input, end)
    ensures Step(d, input, context, c) == CheckpointAt(d, input, context, c.batch, end)
  {
    StepIs(d, input, context, c, end, r);
  }

  lemma {:induction false} StepAdvances(d: Digests, input: Input, context: string, batch: nat, cursor: nat, st: State)
    requires ValidInput(input) && ValidContext(context) && batch > 0 && cursor <= |input.sessions|
    requires RunSessions(input, cursor) == Ok(st)
    ensures Step(d, input, context, Make(d, input, context, batch, cursor, st).value)
            == CheckpointAt(d, input, context, batch, Min(cursor + batch, |input.sessions|))
  {
    MadeIsBelieved(d, input, context, batch, cursor, st);
    var c, end := Make(d, input, context, batch, cursor, st).value, Min(cursor + batch, |input.sessions|);
    if c.complete {
      CompleteStays(d, input, context, c);
    } else {
      BatchContinues(input, cursor, end);
      BatchAdvances(d, input, context, c, end, RunSessions(input, end));
    }
  }

  /** One step moves from the checkpoint of a cursor to that of the next; a run that
      was stopped before stays stopped. */
  lemma {:induction false} NextCheckpoint(d: Digests, input: Input, context: string, batch: nat, cursor: nat, end: nat)
    requires ValidInput(input) && ValidContext(context) && batch > 0 && cursor <= |input.sessions|
    requires end == Min(cursor + batch, |input.sessions|)
    ensures Continue(StepOf(d, input, context), CheckpointAt(d, input, context, batch, cursor))
            == CheckpointAt(d, input, context, batch, end)
  {
    var reached := RunSessions(input, cursor);
    if reached.Ok? {
      StepAdvances(d, input, context, batch, cursor, reached.value);
    } else {
      FoldStops(SessionStep(input), InitialState(input.account), input.sessions, 0, cursor, end);
    }
  }

  /** After k steps the checkpoint holds exactly the one-shot state of its cursor, or,
      when the one-shot run stopped before it, the chain has an inconsistent state. */
  lemma {:induction false} ChainIsPrefix(d: Digests, input: Input, context: string, batch: nat, k: nat)
    requires ValidInput(input) && ValidContext(context) && batch > 0
    ensures Chain(d, input, context, batch, k)
            == CheckpointAt(d, input, context, batch, CursorAfter(|input.sessions|, batch, k))
  {
    var total := |input.sessions|;
    var at := (j: nat) => CheckpointAt(d, input, context, batch, CursorAfter(total, batch, j));
    assert CursorAfter(total, batch, 0) == 0;
    forall j: nat | j < k ensures Continue(StepOf(d, input, context), at(j)) == at(j + 1) {
      CursorStep(total, batch, j + 1);
      NextCheckpoint(d, input, context, batch, CursorAfter(total, batch, j), CursorAfter(total, batch, j + 1));
    }
    RepeatIs(StepOf(d, input, context), Start(d, input, context, batch), k, at);
  }

  /** What a chain is worth that has come to the end: a complete checkpoint, which a step does
      not change and which finalizes to the output of the one-shot run, if there is one. */
  ghost predicate FinishesAs(d: Digests, input: Input, context: string, r: Result<Checkpoint>) {
    match r
    case Ok(c) =>
      c.complete && Step(d, input, context, c) == Ok(c)
      && Finalize(d, input, context, c) == OrInconsistent(RunEngine(input))
    case Err(e) => e == Inconsistent && RunEngine(input).Err?
  }

  /** And one that has not: a checkpoint at its cursor that cannot be finalized. */
  ghost predicate StillRuns(d: Digests, input: Input, context: string, cursor: nat, r: Result<Checkpoint>) {
    match r
    case Ok(c) => !c.complete && c.cursor == cursor && Finalize(d, input, context, c) == Err(Incomplete)
    case Err(e) => e == Inconsistent && RunEngine(input).Err?
  }

  lemma {:induction false} CompleteIsFinal(d: Digests, input: Input, context: string, batch: nat)
    requires ValidInput(input) && ValidContext(context) && batch > 0
    ensures FinishesAs(d, input, context, CheckpointAt(d, input, context, batch, |input.sessions|))
  {
    var reached := RunSessions(input, |input.sessions|);
    if reached.Ok? {
      MadeIsBelieved(d, input, context, batch, |input.sessions|, reached.value);
    }
  }

  lemma {:induction false} RunningIsIncomplete(d: Digests, input: Input, context: string, batch: nat, cursor: nat)
    requires ValidInput(input) && ValidContext(context) && batch > 0 && cursor < |input.sessions|
    ensures StillRuns(d, input, context, cursor, CheckpointAt(d, input, context, batch, cursor))
  {
    var reached := RunSessions(input, cursor);
    if reached.Ok? {
      MadeIsBelieved(d, input, context, batch, cursor, reached.value);
    } else {
      FoldStops(SessionStep(input), InitialState(input.account), input.sessions, 0, cursor, |input.sessions|);
    }
  }

  lemma {:induction false} CursorMoves(total: nat, batch: nat, k: nat)
    requires batch > 0 && k < StepsNeeded(total, batch)
    ensures CursorAfter(total, batch, k) < total && CursorAfter(total, batch, k) < CursorAfter(total, batch, k + 1)
  {
    CursorReachesEnd(total, batch, k);
    CursorStep(total, batch, k + 1);
  }

  /** For every batch size the chain of start, steps and finalize hands out what the
      one-shot run hands out, in exactly the steps needed: earlier it is incomplete and
      its cursor still advances, later nothing changes. When the one-shot run has an
      error, whichever it is, the chain reports an inconsistent state. */
  lemma {:induction false} ChainRefinesRun(d: Digests, input: Input, context: string, batch: nat, k: nat)
    requires ValidInput(input) && ValidContext(context) && batch > 0
    ensures k >= StepsNeeded(|input.sessions|, batch) ==>
              FinishesAs(d, input, context, Chain(d, input, context, batch, k))
    ensures var cursor, next := CursorAfter(|input.sessions|, batch, k), CursorAfter(|input.sessions|, batch, k + 1);
            k < StepsNeeded(|input.sessions|, batch) ==>
              cursor < next && StillRuns(d, input, context, cursor, Chain(d, input, context, batch, k))
  {
    ChainIsPrefix(d, input, context, batch, k);
    if k >= StepsNeeded(|input.sessions|, batch) {
      CursorReachesEnd(|input.sessions|, batch, k);
      CompleteIsFinal(d, input, context, batch);
    } else {
      CursorMoves(|input.sessions|, batch, k);
      RunningIsIncomplete(d, input, context, batch, CursorAfter(|input.sessions|, batch, k));
    }
  }
}
