/** The v1 checkpoint protocol with its own validators: what a believed checkpoint is
    worth, whoever wrote it, and when a run survives being interrupted. */
module EngineTrust {
  import opened Batches
  import opened Checked
  import opened Contexts
  import opened Events
  import opened Engine
  import opened EngineInduction
  import opened EngineCheckpoint
  import opened Validator
  import opened ValidatorLedger
  import opened ValidatorMachine
  import opened ValidatorSoundness
  import opened ValidatorExact
  import opened ValidatorCompleteness
  import Mirror = ValidatorMirror
  import Order = EngineOrder
  import opened Lots
  import Sorting

  datatype Hashes = Hashes(ofInput: Input -> int, ofPrefix: seq<Bar> -> int, ofState: (nat, nat, State) -> int)

  function Genuine(h: Hashes): Protocol {
    Protocol(h.ofInput, h.ofPrefix, h.ofState, (input: Input) => ValidInput(input),
             (input: Input, cursor: nat, st: State) => ValidateState(input, cursor, st))
  }

  /** Decoding with the loops of the validators. */
  method DecodeCheckpoint(h: Hashes, input: Input, context: string, c: Checkpoint) returns (r: Result<Checkpoint>)
    ensures r == Decode(Genuine(h), input, context, c)
  {
    if !ValidContext(context) { return Err(BadContext); }
    if !ValidInput(input) { return Err(InvalidInput); }
    if !GoodHeader(Genuine(h), input, context, c) { return Err(Inconsistent); }
    var valid := ValidateAuthoritativeState(input, c.cursor, c.state);
    assert Genuine(h).validate(input, c.cursor, c.state) == ValidateState(input, c.cursor, c.state);
    if valid.Err? { return Err(valid.error); }
    if c.complete != (c.cursor == |input.bars|) { return Err(Inconsistent); }
    return Ok(c);
  }

  lemma {:induction false} BelievedState(h: Hashes, input: Input, context: string, c: Checkpoint)
    requires Decode(Genuine(h), input, context, c).Ok?
    ensures ValidInput(input) && ValidateState(input, c.cursor, c.state).Ok?
    ensures c.complete <==> c.cursor == |input.bars|
    ensures Decode(Genuine(h), input, context, c) == Ok(c)
  {
    assert Genuine(h).validate(input, c.cursor, c.state) == ValidateState(input, c.cursor, c.state);
  }

  lemma {:induction false} FinalizeDecodes(p: Protocol, input: Input, context: string, c: Checkpoint)
    requires Finalize(p, input, context, c).Ok?
    ensures Decode(p, input, context, c).Ok?
    ensures Decode(p, input, context, c) == Ok(c) ==>
              c.complete && Finish(input, c.state).Ok? && Finalize(p, input, context, c) == Finish(input, c.state)
  {
  }

  /** Whoever wrote the checkpoint: finalizing it on a well-ordered tape hands out the
      one-shot output if and only if its trades fit; otherwise the one-shot run stops at
      an overflow or at the cap. */
  lemma {:induction false} FinalizedIsOneShot(h: Hashes, input: Input, context: string, c: Checkpoint)
    requires Order.WellOrdered(input.intents)
    requires Finalize(Genuine(h), input, context, c).Ok?
    ensures var fits := EngineFits(input.account, c.state.book.trades, c.state.book.cashLedger);
            && (fits <==> RunEngine(input) == Finalize(Genuine(h), input, context, c))
            && (!fits <==> RunEngine(input).Err?)
    ensures RunEngine(input).Err? ==> Mirror.Excused(input.account, RunEngine(input).error)
  {
    FinalizeDecodes(Genuine(h), input, context, c);
    BelievedState(h, input, context, c);
    AcceptedIsReachedExactly(input, c.cursor, c.state);
  }

  // ---- when a run may be interrupted ----

  /** Every fill came on the first bar that could have filled it, and the ledger of a
      perpetual account adds up in 128 bits. */
  predicate Resumable(input: Input, k: nat)
    requires k <= |input.bars|
  {
    && Replay(input, k).Ok?
    && AllAtOnce(input, Replay(input, k).value.book.trades, k)
    && (input.account.model == LinearPerp ==> AllFit(Replay(input, k).value.book.cashLedger))
  }

  lemma {:induction false} BelievedExactly(h: Hashes, input: Input, k: nat)
    requires ValidInput(input) && Order.WellOrdered(input.intents) && k <= |input.bars|
    ensures Believed(Genuine(h), input, k) <==> Resumable(input, k)
  {
    if Replay(input, k).Ok? {
      ReachedIsAcceptedExactly(input, k);
      var st := Replay(input, k).value;
      assert Genuine(h).validate(input, k, st) == ValidateState(input, k, st);
    }
  }

  /** What is resumable in the end was resumable all along. */
  lemma {:induction false} ResumableBefore(input: Input, i: nat, k: nat)
    requires UniqueIds(input.intents) && IncreasingBars(input.bars) && i <= k <= |input.bars|
    requires Resumable(input, k)
    ensures Resumable(input, i)
  {
    RunGrows(input, i, k);
    var xs, ys := Replay(input, i).value.book.trades, Replay(input, k).value.book.trades;
    forall j | 0 <= j < i ensures FilledAtOnce(input.intents, xs, input.bars[j]) {
      assert FilledAtOnce(input.intents, ys, input.bars[j]);
      AtOnceBefore(input.intents, xs, ys, input.bars[j]);
    }
    if input.account.model == LinearPerp {
      FitsPrefix(Replay(input, i).value.book.cashLedger, Replay(input, k).value.book.cashLedger);
    }
  }

  lemma {:induction false} AtOnceBefore(intents: seq<Intent>, xs: seq<TradeRecord>, ys: seq<TradeRecord>, bar: Bar)
    requires xs <= ys && FilledAtOnce(intents, ys, bar)
    ensures FilledAtOnce(intents, xs, bar)
  {
    forall i | 0 <= i < |xs|
      ensures IntentById(intents, xs[i].id).Some? && Live(IntentById(intents, xs[i].id).value, bar.seqNo) ==>
                xs[i].session <= bar.seqNo
    {
      assert ys[i] == xs[i];
    }
  }

  lemma {:induction false} GoesThroughExactly(h: Hashes, input: Input, batch: nat, k: nat)
    requires ValidInput(input) && Order.WellOrdered(input.intents)
    requires CursorAfter(|input.bars|, batch, k) == |input.bars|
    ensures GoesThrough(Genuine(h), input, batch, k) && Believed(Genuine(h), input, |input.bars|)
            <==> Resumable(input, |input.bars|)
  {
    BelievedExactly(h, input, |input.bars|);
    if Resumable(input, |input.bars|) {
      forall j: nat | j < k ensures Believed(Genuine(h), input, CursorAfter(|input.bars|, batch, j)) {
        ResumableBefore(input, CursorAfter(|input.bars|, batch, j), |input.bars|);
        BelievedExactly(h, input, CursorAfter(|input.bars|, batch, j));
      }
    }
  }

  /** With the genuine validators, start, the steps to the end and finalize succeed for
      one batch size if and only if they do for every batch size: exactly when the
      one-shot run succeeds and every fill came on its first live bar. */
  lemma {:induction false} InterruptedRunSucceeds(h: Hashes, input: Input, context: string, batch: nat, k: nat)
    requires ValidInput(input) && ValidContext(context) && batch > 0 && Order.WellOrdered(input.intents)
    requires CursorAfter(|input.bars|, batch, k) == |input.bars|
    ensures (Chain(Genuine(h), input, context, batch, k).Ok?
             && Finalize(Genuine(h), input, context, Chain(Genuine(h), input, context, batch, k).value).Ok?)
            <==> (RunEngine(input).Ok? && Resumable(input, |input.bars|))
  {
    CheckpointedRunSucceeds(Genuine(h), input, context, batch, k);
    GoesThroughExactly(h, input, batch, k);
  }

  /** A tape of A-share day orders can be interrupted anywhere. */
  lemma {:induction false} DayRunSucceeds(h: Hashes, input: Input, context: string, batch: nat, k: nat)
    requires ValidInput(input) && ValidContext(context) && batch > 0 && Order.WellOrdered(input.intents)
    requires CursorAfter(|input.bars|, batch, k) == |input.bars|
    requires AllDay(input.intents) && input.account.model == AShareCash
    ensures (Chain(Genuine(h), input, context, batch, k).Ok?
             && Finalize(Genuine(h), input, context, Chain(Genuine(h), input, context, batch, k).value).Ok?)
            <==> RunEngine(input).Ok?
  {
    InterruptedRunSucceeds(h, input, context, batch, k);
    if RunEngine(input).Ok? {
      RunParts(input);
      DayTapesAreAccepted(input, |input.bars|);
    }
  }

  // ---- a run that cannot be interrupted ----

  const PLAIN := Account(AShareCash, 1, 1, 1, 10000, 1000000, 100, false, 3, 5, 0, 0, 0)

  const PATIENT := Intent(1, 1, 1, Buy, Open, 100, Limit, EventKey(0, AtClose, 0), EventKey(1, AtOpen, 0),
                          Some(10), None, Gtc, None)

  const ABOVE := Bar(1, 1, 20, 20, 15, 20, true, true)

  const BELOW := Bar(2, 2, 9, 20, 9, 20, true, true)

  /** A limit order that rests on the first bar and fills on the second. */
  const RESTING := Input(PLAIN, [ABOVE, BELOW], [], [PATIENT])

  const RESTED := State(OrderLog([], {}, {}), InitialBook(1000000),
                        Curve([EquityPoint(1, 1, 20, 1000000, 0, 1000000)], [DrawdownPoint(1, 1000000, 1000000, 0, 0)],
                              1000000, 0, 0))

  lemma {:induction false} RestingSchedule(completed: set<Id>, session: nat)
    requires completed == {} && session >= 1
    ensures Schedule(RESTING.intents, completed, session) == [PATIENT]
  {
    assert RESTING.intents[1..] == [];
    assert LiveIntents(RESTING.intents, completed, session) == [PATIENT];
    assert Sorting.Sort([PATIENT], ExecutesBefore) == [PATIENT] by { assert [PATIENT][1..] == []; }
  }

  lemma {:induction false} OneIntent(bar: Bar, st: State)
    ensures ProcessIntents(PLAIN, bar, st, [PATIENT], 1) == ProcessIntent(PLAIN, bar, st, PATIENT)
  {
    assert ProcessIntents(PLAIN, bar, st, [PATIENT], 0) == Ok(st);
  }

  lemma {:induction false} RestsAbove()
    ensures ProcessBar(RESTING, ABOVE, InitialState(PLAIN)) == Ok(RESTED)
  {
    var st := InitialState(PLAIN);
    RestingSchedule(st.log.completed, 1);
    OneIntent(ABOVE, st);
    assert ProcessIntent(PLAIN, ABOVE, st, PATIENT) == Ok(st);
    assert [] + RESTED.curve.equity == RESTED.curve.equity && [] + RESTED.curve.drawdown == RESTED.curve.drawdown;
    assert MarkedPosition(PLAIN, st.book, ABOVE.close) == Ok(0) && CheckedDiv(0, 1000000) == Ok(0);
    assert MarkCurve(PLAIN, ABOVE, st.book, st.curve) == Ok(RESTED.curve);
  }

  lemma {:induction false} FillsBelow()
    ensures ProcessBar(RESTING, BELOW, RESTED).Ok?
    ensures ProcessBar(RESTING, BELOW, RESTED).value.book.trades
            == [TradeRecord(FillId(1), 1, 2, Buy, Open, 100, 9, 900, 1, 0, 0, Taker)]
  {
    RestingSchedule(RESTED.log.completed, 2);
    OneIntent(BELOW, RESTED);
    var fill := Fill(9, 0, Taker, AtOpen);
    assert FillDecision(PLAIN, BELOW, PATIENT) == Ok(Some(fill));
    assert CostsOf(PLAIN, PATIENT, fill) == Ok(Costs(900, 0, 1, 0));
    var booked := BookFill(PLAIN, 2, RESTED.book, PATIENT, fill);
    assert CheckedEligible([Lot(100, 2)], 2, 0) == Ok(0) by { assert [Lot(100, 2)][1..] == []; }
    assert RESTED.book.longLots + [Lot(100, 2)] == [Lot(100, 2)];
    assert booked.Ok? && booked.value.quantity == 100 && booked.value.cash == 999099;
    assert MarkCurve(PLAIN, BELOW, booked.value, RESTED.curve).Ok?;
  }

  lemma {:induction false} RestingIsValid()
    ensures ValidInput(RESTING) && Order.WellOrdered(RESTING.intents)
  {
  }

  lemma {:induction false} RestingReplay()
    ensures Replay(RESTING, 2) == ProcessBar(RESTING, BELOW, RESTED)
  {
    RestsAbove();
    assert Replay(RESTING, 0) == Ok(InitialState(PLAIN));
    NextReplay(RESTING, 0);
    NextReplay(RESTING, 1);
  }

  /** The engine runs it, its own validators refuse the state that results. */
  lemma {:induction false} RestingFillIsRefused()
    ensures ValidInput(RESTING) && Order.WellOrdered(RESTING.intents) && Replay(RESTING, 2).Ok?
    ensures ValidateState(RESTING, 2, Replay(RESTING, 2).value).Err?
  {
    RestingIsValid();
    RestingReplay();
    FillsBelow();
    ReachedIsAcceptedExactly(RESTING, 2);
    var trades := Replay(RESTING, 2).value.book.trades;
    assert IntentById(RESTING.intents, trades[0].id) == Some(PATIENT);
    assert !FilledAtOnce(RESTING.intents, trades, RESTING.bars[0]);
  }
}
