/** Concrete valid v1 runs for what can go wrong: states that are accepted although the
    engine stops, a run its own validators refuse for a sum that does not fit, a fill
    at a price below zero, negative cash, and an output that does not reconcile. */
module EngineWitnesses {
  import opened Checked
  import opened Events
  import opened Lots
  import opened Folds
  import opened Engine
  import opened EngineInduction
  import opened Validator
  import opened ValidatorLedger
  import opened ValidatorCompleteness
  import opened EngineCash
  import opened ValidatorSoundness
  import opened ValidatorExact
  import Sorting
  import Order = EngineOrder
  import R = Report
  import RE = ReportEngine

  const KNOWN := EventKey(0, AtClose, 0)

  /** A day order of session n. */
  function DayOrder(id: Id, seqNo: nat, side: Side, effect: Effect, quantity: int, orderType: OrderType,
      limit: Option<int>, stop: Option<int>, session: nat): Intent
  {
    Intent(id, seqNo, 1, side, effect, quantity, orderType, KNOWN, EventKey(session, AtOpen, 0), limit, stop, Day, None)
  }

  // ---- evaluating a run ----

  lemma {:induction false} AllLive(intents: seq<Intent>, completed: set<Id>, session: nat)
    requires forall i :: 0 <= i < |intents| ==> intents[i].id !in completed && Live(intents[i], session)
    ensures LiveIntents(intents, completed, session) == intents
  {
    if intents != [] {
      AllLive(intents[1..], completed, session);
      assert intents == [intents[0]] + intents[1..];
    }
  }

  lemma {:induction false} OnlyLive(intents: seq<Intent>, completed: set<Id>, session: nat, t: Intent)
    requires LiveIntents(intents, completed, session) == [t]
    ensures Schedule(intents, completed, session) == [t]
  {
    Sorting.SortedStays([t], ExecutesBefore);
  }

  lemma {:induction false} OneIntent(account: Account, bar: Bar, st: State, t: Intent)
    ensures ProcessIntents(account, bar, st, [t], 1) == ProcessIntent(account, bar, st, t)
  {
    assert ProcessIntents(account, bar, st, [t], 0) == Ok(st);
  }

  lemma {:induction false} FirstBar(input: Input)
    requires |input.bars| >= 1
    ensures Replay(input, 1) == ProcessBar(input, input.bars[0], InitialState(input.account))
  {
    assert Replay(input, 0) == Ok(InitialState(input.account));
    NextReplay(input, 0);
  }

  /** A bar with one live intent and no funding. */
  lemma {:induction false} OneIntentBar(input: Input, bar: Bar, st: State, t: Intent)
    requires LiveIntents(input.intents, st.log.completed, bar.seqNo) == [t] && input.funding == []
    ensures ProcessBar(input, bar, st) ==
            match ProcessIntent(input.account, bar, st, t)
            case Err(e) => Err(e)
            case Ok(traded) =>
              match MarkCurve(input.account, bar, traded.book, traded.curve)
              case Err(e) => Err(e)
              case Ok(curve) => Ok(State(traded.log, CloseBook(input.account, traded.book), curve))
  {
    OnlyLive(input.intents, st.log.completed, bar.seqNo, t);
    OneIntent(input.account, bar, st, t);
  }

  // ---- a fill below zero ----

  const SLIPPERY := Account(LinearPerp, 1, 1, 1, 1, 1000, 1, false, 0, 0, 0, 0, 10)

  const DIPPING := Bar(1, 1, 20, 20, 5, 20, true, true)

  const BREAKDOWN := DayOrder(1, 1, Sell, Open, 1, Stop, None, Some(5), 1)

  const STOPPED := Input(SLIPPERY, [DIPPING], [], [BREAKDOWN])

  const BELOW_ZERO := Fill(-5, 10, Taker, Intrabar)

  lemma {:induction false} StoppedIsValid()
    ensures ValidInput(STOPPED) && Order.WellOrdered(STOPPED.intents)
  {
  }

  lemma {:induction false} StopFills(b: Book)
    requires b == InitialState(SLIPPERY).book
    ensures FillDecision(SLIPPERY, DIPPING, BREAKDOWN) == Ok(Some(BELOW_ZERO))
    ensures var booked := BookFill(SLIPPERY, 1, b, BREAKDOWN, BELOW_ZERO);
            && booked.Ok? && booked.value.quantity == -1 && booked.value.entry == Some(-5)
            && booked.value.wallet == 1000
            && |booked.value.trades| == 1 && booked.value.trades[0].price == -5
  {
    assert CostsOf(SLIPPERY, BREAKDOWN, BELOW_ZERO) == Ok(Costs(-5, 10, 0, 0));
  }

  lemma {:induction false} StopMarks(b: Book)
    requires b.quantity == -1 && b.entry == Some(-5) && b.wallet == 1000
    ensures MarkCurve(SLIPPERY, DIPPING, b, InitialState(SLIPPERY).curve).Ok?
  {
    assert MarkedPosition(SLIPPERY, b, 20) == Ok(-25);
    assert CheckedDiv(-25, 1000) == Ok(0);
  }

  /** An intrabar sell stop within the slippage: a valid run fills it at -5. */
  lemma {:induction false} FillsBelowZero()
    ensures ValidInput(STOPPED) && Order.WellOrdered(STOPPED.intents) && Replay(STOPPED, 1).Ok?
    ensures var trades := Replay(STOPPED, 1).value.book.trades; |trades| == 1 && trades[0].price == -5
  {
    var st := InitialState(SLIPPERY);
    StoppedIsValid();
    AllLive([BREAKDOWN], {}, 1);
    OneIntentBar(STOPPED, DIPPING, st, BREAKDOWN);
    FirstBar(STOPPED);
    StopFills(st.book);
    StopMarks(BookFill(SLIPPERY, 1, st.book, BREAKDOWN, BELOW_ZERO).value);
  }

  // ---- negative cash ----

  const POOR := Account(AShareCash, 1, 1, 1, 1000000, 100, 100, false, 0, 0, 0, 0, 0)

  const FLAT_BAR := Bar(1, 1, 10, 10, 10, 10, true, true)

  const OVERBUY := DayOrder(1, 1, Buy, Open, 100, Market, None, None, 1)

  const OVERDRAWN := Input(POOR, [FLAT_BAR], [], [OVERBUY])

  /** A valid A-share run that buys for 1000 with 100. */
  lemma {:induction false} CashGoesNegative()
    ensures ValidInput(OVERDRAWN) && Order.WellOrdered(OVERDRAWN.intents) && Replay(OVERDRAWN, 1).Ok?
    ensures Replay(OVERDRAWN, 1).value.book.cash == -900
  {
    var st := InitialState(POOR);
    AllLive([OVERBUY], {}, 1);
    OneIntentBar(OVERDRAWN, FLAT_BAR, st, OVERBUY);
    FirstBar(OVERDRAWN);
    var fill := Fill(10, 0, Taker, AtOpen);
    assert FillDecision(POOR, FLAT_BAR, OVERBUY) == Ok(Some(fill));
    assert CostsOf(POOR, OVERBUY, fill) == Ok(Costs(1000, 0, 0, 0));
    var booked := BookFill(POOR, 1, st.book, OVERBUY, fill);
    assert [] + [Lot(100, 1)] == [Lot(100, 1)];
    assert CheckedEligible([Lot(100, 1)], 1, 0) == Ok(0) by { assert [Lot(100, 1)][1..] == []; }
    assert booked.Ok? && booked.value.quantity == 100 && booked.value.cash == -900;
    assert MarkedPosition(POOR, booked.value, 10) == Ok(1000) && CheckedDiv(0, 100) == Ok(0);
    assert MarkCurve(POOR, FLAT_BAR, booked.value, st.curve).Ok?;
  }

  // ---- a ledger record that does not fit ----

  const HUGE: int := 100_000_000_000_000_000_000_000_000_000_000_000_000

  const TIGHT := Account(LinearPerp, 1, 1, 1, 1, 2, 1, false, 0, 0, 0, 1, 0)

  const SPIKE := Bar(1, 1, 1, HUGE, 1, 1, true, true)

  const BUY_LOW := DayOrder(1, 1, Buy, Open, 1, Market, None, None, 1)

  const SELL_HIGH := DayOrder(2, 2, Sell, Close, 1, Limit, Some(HUGE), None, 1)

  const SELL_LOW := DayOrder(3, 3, Sell, Open, 1, Market, None, None, 1)

  const BUY_HIGH := DayOrder(4, 4, Buy, Close, 1, Stop, None, Some(HUGE), 1)

  const WHIPSAW := [BUY_LOW, SELL_HIGH, SELL_LOW, BUY_HIGH]

  const WHIPSAWED := Input(TIGHT, [SPIKE], [], WHIPSAW)

  lemma {:induction false} FilledIntent(account: Account, bar: Bar, st: State, t: Intent, fill: Fill, book: Book)
    requires t.oco.None? && FillDecision(account, bar, t) == Ok(Some(fill))
    requires BookFill(account, bar.seqNo, st.book, t, fill) == Ok(book)
    ensures ProcessIntent(account, bar, st, t) == Ok(State(LogFill(st.log, t, bar.seqNo, fill), book, st.curve))
  {
  }

  /** A perpetual fill whose move and totals are known. */
  lemma {:induction false} PerpBooks(account: Account, session: nat, b: Book, t: Intent, fill: Fill, c: Costs, m: Move)
    requires account.model == LinearPerp && CostsOf(account, t, fill) == Ok(c) && PerpMove(b, t, fill, c) == Ok(m)
    requires InI128(b.totalFees + c.fee) && InI128(b.totalSlippage + c.slippage)
    ensures BookFill(account, session, b, t, fill).Ok?
    ensures var next := BookFill(account, session, b, t, fill).value;
            && next.wallet == next.cash == m.cash && next.quantity == m.quantity && next.entry == m.entry
            && next.longLots == m.longLots && next.shortLots == m.shortLots
            && next.totalFees == b.totalFees + c.fee && next.totalSlippage == b.totalSlippage + c.slippage
            && next.cashLedger == b.cashLedger + [FillCashRecord(t, session, c, m.notionalDelta, m.realized, m.cash)]
  {
  }

  /** The wallet, the position and the last record after the first n of the orders. */
  ghost predicate Whipped(b: Book, n: nat, wallet: int, quantity: int, entry: Option<int>, fees: int) {
    && b.wallet == wallet && b.quantity == quantity && b.entry == entry && b.longLots == [] && b.shortLots == []
    && b.totalFees == fees && b.totalSlippage == 0 && |b.cashLedger| == n
  }

  lemma {:induction false} BuysLow(b: Book)
    requires Whipped(b, 0, 2, 0, None, 0)
    ensures BookFill(TIGHT, 1, b, BUY_LOW, Fill(1, 0, Taker, AtOpen)).Ok?
    ensures Whipped(BookFill(TIGHT, 1, b, BUY_LOW, Fill(1, 0, Taker, AtOpen)).value, 1, 1, 1, Some(1), 1)
  {
    var fill, c := Fill(1, 0, Taker, AtOpen), Costs(1, 0, 1, 0);
    assert CostsOf(TIGHT, BUY_LOW, fill) == Ok(c);
    PerpBooks(TIGHT, 1, b, BUY_LOW, fill, c, Move(1, 1, Some(1), [], [], 0, 0, false));
  }

  lemma {:induction false} SellsHigh(b: Book)
    requires Whipped(b, 1, 1, 1, Some(1), 1)
    ensures BookFill(TIGHT, 1, b, SELL_HIGH, Fill(HUGE, 0, Maker, Intrabar)).Ok?
    ensures Whipped(BookFill(TIGHT, 1, b, SELL_HIGH, Fill(HUGE, 0, Maker, Intrabar)).value, 2, HUGE, 0, None, 1)
  {
    var fill, c := Fill(HUGE, 0, Maker, Intrabar), Costs(HUGE, 0, 0, 0);
    assert CostsOf(TIGHT, SELL_HIGH, fill) == Ok(c);
    PerpBooks(TIGHT, 1, b, SELL_HIGH, fill, c, Move(HUGE, 0, None, [], [], 0, HUGE - 1, true));
  }

  lemma {:induction false} SellsLow(b: Book)
    requires Whipped(b, 2, HUGE, 0, None, 1)
    ensures BookFill(TIGHT, 1, b, SELL_LOW, Fill(1, 0, Taker, AtOpen)).Ok?
    ensures Whipped(BookFill(TIGHT, 1, b, SELL_LOW, Fill(1, 0, Taker, AtOpen)).value, 3, HUGE - 1, -1, Some(1), 2)
  {
    var fill, c := Fill(1, 0, Taker, AtOpen), Costs(1, 0, 1, 0);
    assert CostsOf(TIGHT, SELL_LOW, fill) == Ok(c);
    PerpBooks(TIGHT, 1, b, SELL_LOW, fill, c, Move(HUGE - 1, -1, Some(1), [], [], 0, 0, false));
  }

  /** The loss and the fee of the last fill add up to less than 128 bits can hold. */
  lemma {:induction false} BuysHigh(b: Book)
    requires Whipped(b, 3, HUGE - 1, -1, Some(1), 2)
    ensures BookFill(TIGHT, 1, b, BUY_HIGH, Fill(HUGE, 0, Taker, Intrabar)).Ok?
    ensures var next := BookFill(TIGHT, 1, b, BUY_HIGH, Fill(HUGE, 0, Taker, Intrabar)).value;
            Whipped(next, 4, -HUGE, 0, None, HUGE + 2) && !RecordFits(next.cashLedger[3])
  {
    var fill, c := Fill(HUGE, 0, Taker, Intrabar), Costs(HUGE, 0, HUGE, 0);
    assert CostsOf(TIGHT, BUY_HIGH, fill) == Ok(c);
    PerpBooks(TIGHT, 1, b, BUY_HIGH, fill, c, Move(-HUGE, 0, None, [], [], 0, 1 - HUGE, true));
  }

  lemma {:induction false} WhipsawSchedule()
    ensures Schedule(WHIPSAW, {}, 1) == WHIPSAW
  {
    AllLive(WHIPSAW, {}, 1);
    Sorting.SortedStays(WHIPSAW, ExecutesBefore);
  }

  lemma {:induction false} FirstWhip(st: State) returns (next: State)
    requires Whipped(st.book, 0, 2, 0, None, 0)
    ensures ProcessIntent(TIGHT, SPIKE, st, BUY_LOW) == Ok(next)
    ensures Whipped(next.book, 1, 1, 1, Some(1), 1) && next.curve == st.curve
  {
    var fill := Fill(1, 0, Taker, AtOpen);
    BuysLow(st.book);
    FilledIntent(TIGHT, SPIKE, st, BUY_LOW, fill, BookFill(TIGHT, 1, st.book, BUY_LOW, fill).value);
    next := ProcessIntent(TIGHT, SPIKE, st, BUY_LOW).value;
  }

  lemma {:induction false} SecondWhip(st: State) returns (next: State)
    requires Whipped(st.book, 1, 1, 1, Some(1), 1)
    ensures ProcessIntent(TIGHT, SPIKE, st, SELL_HIGH) == Ok(next)
    ensures Whipped(next.book, 2, HUGE, 0, None, 1) && next.curve == st.curve
  {
    var fill := Fill(HUGE, 0, Maker, Intrabar);
    SellsHigh(st.book);
    FilledIntent(TIGHT, SPIKE, st, SELL_HIGH, fill, BookFill(TIGHT, 1, st.book, SELL_HIGH, fill).value);
    next := ProcessIntent(TIGHT, SPIKE, st, SELL_HIGH).value;
  }

  lemma {:induction false} ThirdWhip(st: State) returns (next: State)
    requires Whipped(st.book, 2, HUGE, 0, None, 1)
    ensures ProcessIntent(TIGHT, SPIKE, st, SELL_LOW) == Ok(next)
    ensures Whipped(next.book, 3, HUGE - 1, -1, Some(1), 2) && next.curve == st.curve
  {
    var fill := Fill(1, 0, Taker, AtOpen);
    SellsLow(st.book);
    FilledIntent(TIGHT, SPIKE, st, SELL_LOW, fill, BookFill(TIGHT, 1, st.book, SELL_LOW, fill).value);
    next := ProcessIntent(TIGHT, SPIKE, st, SELL_LOW).value;
  }

  lemma {:induction false} FourthWhip(st: State) returns (next: State)
    requires Whipped(st.book, 3, HUGE - 1, -1, Some(1), 2)
    ensures ProcessIntent(TIGHT, SPIKE, st, BUY_HIGH) == Ok(next)
    ensures Whipped(next.book, 4, -HUGE, 0, None, HUGE + 2) && next.curve == st.curve
            && !RecordFits(next.book.cashLedger[3])
  {
    var fill := Fill(HUGE, 0, Taker, Intrabar);
    BuysHigh(st.book);
    FilledIntent(TIGHT, SPIKE, st, BUY_HIGH, fill, BookFill(TIGHT, 1, st.book, BUY_HIGH, fill).value);
    next := ProcessIntent(TIGHT, SPIKE, st, BUY_HIGH).value;
  }

  lemma {:induction false} FourIntents(account: Account, bar: Bar, due: seq<Intent>, s0: State, s1: State, s2: State,
      s3: State, s4: State)
    requires |due| == 4
    requires ProcessIntent(account, bar, s0, due[0]) == Ok(s1) && ProcessIntent(account, bar, s1, due[1]) == Ok(s2)
    requires ProcessIntent(account, bar, s2, due[2]) == Ok(s3) && ProcessIntent(account, bar, s3, due[3]) == Ok(s4)
    ensures ProcessIntents(account, bar, s0, due, 4) == Ok(s4)
  {
    assert ProcessIntents(account, bar, s0, due, 0) == Ok(s0);
    assert ProcessIntents(account, bar, s0, due, 1) == Ok(s1);
    assert ProcessIntents(account, bar, s0, due, 2) == Ok(s2);
    assert ProcessIntents(account, bar, s0, due, 3) == Ok(s3);
  }

  lemma {:induction false} WhipsawTrades() returns (st: State)
    ensures ProcessIntents(TIGHT, SPIKE, InitialState(TIGHT), WHIPSAW, 4) == Ok(st)
    ensures Whipped(st.book, 4, -HUGE, 0, None, HUGE + 2) && !RecordFits(st.book.cashLedger[3])
    ensures st.curve == InitialState(TIGHT).curve
  {
    var s0 := InitialState(TIGHT);
    var s1 := FirstWhip(s0);
    var s2 := SecondWhip(s1);
    var s3 := ThirdWhip(s2);
    st := FourthWhip(s3);
    FourIntents(TIGHT, SPIKE, WHIPSAW, s0, s1, s2, s3, st);
  }

  lemma {:induction false} WhipsawMarks(b: Book)
    requires Whipped(b, 4, -HUGE, 0, None, HUGE + 2)
    ensures MarkCurve(TIGHT, SPIKE, b, InitialState(TIGHT).curve).Ok?
  {
    assert MarkedPosition(TIGHT, b, 1) == Ok(0);
    assert CheckedDiv(-HUGE - 2, 2).Ok?;
  }

  lemma {:induction false} WhipsawIsValid()
    ensures ValidInput(WHIPSAWED)
  {
  }

  lemma {:induction false} WhipsawIsOrdered()
    ensures Order.WellOrdered(WHIPSAW)
  {
  }

  /** A valid perpetual run whose ledger the engine can add up and its validators cannot. */
  lemma {:induction false} UnfitLedgerIsRefused()
    ensures ValidInput(WHIPSAWED) && Order.WellOrdered(WHIPSAWED.intents) && Replay(WHIPSAWED, 1).Ok?
    ensures !AllFit(Replay(WHIPSAWED, 1).value.book.cashLedger)
    ensures ValidateLedgers(WHIPSAWED, WHIPSAWED.bars[..1], Replay(WHIPSAWED, 1).value.book).Err?
    ensures ValidateState(WHIPSAWED, 1, Replay(WHIPSAWED, 1).value).Err?
  {
    WhipsawIsValid();
    WhipsawIsOrdered();
    WhipsawSchedule();
    var st := WhipsawTrades();
    WhipsawMarks(st.book);
    FirstBar(WHIPSAWED);
    LedgersPassExactly(WHIPSAWED, 1);
    ReachedIsAcceptedExactly(WHIPSAWED, 1);
  }

  // ---- an output that does not reconcile ----

  const STEADY := Account(AShareCash, 1, 1, 1, 1000000, 10000, 100, false, 0, 0, 0, 0, 0)

  const NEXT_BAR := Bar(2, 2, 10, 10, 10, 10, true, true)

  const BUY_TWO := DayOrder(1, 1, Buy, Open, 200, Market, None, None, 1)

  const SELL_ONE := DayOrder(2, 2, Sell, Close, 100, Market, None, None, 2)

  const HALVED := Input(STEADY, [FLAT_BAR, NEXT_BAR], [], [BUY_TWO, SELL_ONE])

  ghost predicate HoldsTwo(st: State) {
    && st.book.cash == 8000 && st.book.quantity == 200 && st.book.longLots == [Lot(200, 1)]
    && st.book.totalFees == st.book.totalStampDuty == st.book.totalSlippage == 0
    && |st.book.trades| == 1 && |st.book.positions| == 1 && st.log.completed == {1}
    && st.curve.peak == 10000 && |st.curve.equity| == 1
  }

  const AT_TEN := Fill(10, 0, Taker, AtOpen)

  /** A book marked at its bar's close of 10, worth what the account started with. */
  lemma {:induction false} MarksSteady(bar: Bar, b: Book, curve: Curve)
    requires bar.close == 10 && 0 <= b.quantity <= 200 && b.cash == 10000 - 10 * b.quantity && curve.peak == 10000
    ensures MarkCurve(STEADY, bar, b, curve).Ok?
    ensures var next := MarkCurve(STEADY, bar, b, curve).value;
            && next.peak == 10000 && |next.equity| == |curve.equity| + 1 && next.equity[|curve.equity|].equity == 10000
  {
    assert MarkedPosition(STEADY, b, 10) == Ok(10 * b.quantity) && CheckedDiv(0, 10000) == Ok(0);
  }

  lemma {:induction false} TwoFill(b: Book)
    requires b == InitialState(STEADY).book
    ensures FillDecision(STEADY, FLAT_BAR, BUY_TWO) == Ok(Some(AT_TEN)) && BookFill(STEADY, 1, b, BUY_TWO, AT_TEN).Ok?
    ensures var next := BookFill(STEADY, 1, b, BUY_TWO, AT_TEN).value;
            && next.cash == 8000 && next.quantity == 200 && next.longLots == [Lot(200, 1)]
            && next.totalFees == next.totalStampDuty == next.totalSlippage == 0
            && |next.trades| == 1 && |next.positions| == 1
  {
    assert CostsOf(STEADY, BUY_TWO, AT_TEN) == Ok(Costs(2000, 0, 0, 0));
    assert [] + [Lot(200, 1)] == [Lot(200, 1)];
    assert CheckedEligible([Lot(200, 1)], 1, 0) == Ok(0) by { assert [Lot(200, 1)][1..] == []; }
  }

  lemma {:induction false} BuysTwo()
    ensures Replay(HALVED, 1).Ok? && HoldsTwo(Replay(HALVED, 1).value)
  {
    var st := InitialState(STEADY);
    assert HALVED.intents[1..] == [SELL_ONE] && [SELL_ONE][1..] == [];
    assert LiveIntents([SELL_ONE], {}, 1) == [];
    assert LiveIntents(HALVED.intents, {}, 1) == [BUY_TWO];
    OneIntentBar(HALVED, FLAT_BAR, st, BUY_TWO);
    FirstBar(HALVED);
    TwoFill(st.book);
    MarksSteady(FLAT_BAR, BookFill(STEADY, 1, st.book, BUY_TWO, AT_TEN).value, st.curve);
  }

  lemma {:induction false} OneConsumed()
    ensures Consume([Lot(200, 1)], 100, 2) == Ok([Lot(100, 1)]) && CheckedEligible([Lot(100, 1)], 2, 0) == Ok(100)
  {
    var held := [Lot(200, 1)];
    assert held[1..] == [] && [Lot(100, 1)][1..] == [];
    assert CheckedEligible(held, 2, 0) == Ok(200);
    assert Deplete(held, 100, 2) == [Lot(100, 1)];
  }

  lemma {:induction false} OneFillSold(b: Book)
    requires b.cash == 8000 && b.quantity == 200 && b.longLots == [Lot(200, 1)]
    requires b.totalFees == b.totalStampDuty == b.totalSlippage == 0 && |b.trades| == |b.positions| == 1
    ensures FillDecision(STEADY, NEXT_BAR, SELL_ONE) == Ok(Some(AT_TEN)) && BookFill(STEADY, 2, b, SELL_ONE, AT_TEN).Ok?
    ensures var next := BookFill(STEADY, 2, b, SELL_ONE, AT_TEN).value;
            && next.cash == 9000 && next.quantity == 100
            && |next.trades| == 2 && next.trades[1].effect == Close && |next.positions| == 2
            && next.positions[1].quantity == 100
  {
    assert CostsOf(STEADY, SELL_ONE, AT_TEN) == Ok(Costs(1000, 0, 0, 0));
    OneConsumed();
  }

  lemma {:induction false} SellsOne(st: State)
    requires HoldsTwo(st)
    ensures ProcessBar(HALVED, NEXT_BAR, st).Ok?
    ensures var next := ProcessBar(HALVED, NEXT_BAR, st).value;
            && |next.book.trades| == 2 && next.book.trades[1].effect == Close
            && |next.book.positions| == 2 && next.book.positions[1].quantity == 100
            && |next.curve.equity| == 2 && next.curve.equity[1].equity == 10000
  {
    assert HALVED.intents[1..] == [SELL_ONE] && [SELL_ONE][1..] == [];
    assert LiveIntents([SELL_ONE], {1}, 2) == [SELL_ONE];
    assert LiveIntents(HALVED.intents, {1}, 2) == [SELL_ONE];
    OneIntentBar(HALVED, NEXT_BAR, st, SELL_ONE);
    OneFillSold(st.book);
    MarksSteady(NEXT_BAR, BookFill(STEADY, 2, st.book, SELL_ONE, AT_TEN).value, st.curve);
  }

  /** A valid A-share run that sells half of what it holds: the report counts a closed
      trade, the engine does not. */
  lemma {:induction false} PartialCloseDoesNotReconcile()
    ensures ValidInput(HALVED) && RunEngine(HALVED).Ok? && !R.Reconciles(RE.ResultOf(RunEngine(HALVED).value))
  {
    HalvedIsValid();
    BuysTwo();
    SellsOne(Replay(HALVED, 1).value);
    NextReplay(HALVED, 1);
    HalvedFinishes(Replay(HALVED, 2).value);
    RunParts(HALVED);
    RE.ReconcilesExactly(HALVED);
    var out := RunEngine(HALVED).value;
    assert out.trades[1].effect == Close && out.positions[1].quantity != 0;
  }

  lemma {:induction false} HalvedIsValid()
    ensures ValidInput(HALVED)
  {
  }

  lemma {:induction false} HalvedFinishes(st: State)
    requires |st.curve.equity| == 2 && st.curve.equity[1].equity == 10000
    ensures Finish(HALVED, st).Ok?
  {
    assert CheckedDiv(0, 10000) == Ok(0);
  }

  // ---- accepted states on which the engine stops ----

  lemma {:induction false} OneFold<S, X>(step: (S, X) -> Result<S>, st: S, x: X)
    ensures Fold(step, st, [x], 0, 1) == step(st, x)
  {
    assert Fold(step, st, [x], 0, 0) == Ok(st);
  }

  /** A state after one bar and one fill. */
  ghost predicate OneFill(input: Input, bar: Bar, t: Intent, fill: Fill, c: Costs, st: State) {
    && input.bars == [bar] && input.intents == [t] && input.funding == [] && t.oco == None && Live(t, bar.seqNo)
    && FillDecision(input.account, bar, t) == Ok(Some(fill)) && CostsOf(input.account, t, fill) == Ok(c)
    && st.log == LogFill(OrderLog([], {}, {}), t, bar.seqNo, fill)
    && st.book.trades == [TradeOf(t, bar.seqNo, fill, c)] && |st.book.positions| == 1 && |st.book.cashLedger| == 1
    && st.book.fundingLedger == [] && st.book.totalFunding == 0
    && |st.curve.equity| == 1 && |st.curve.drawdown| == 1
  }

  lemma {:induction false} OneTradeChecks(input: Input, bar: Bar, t: Intent, fill: Fill, c: Costs, st: State,
      moved: TradeScan, eligible: int)
    requires OneFill(input, bar, t, fill, c, st)
    requires ScanMove(input.account, bar.seqNo, EMPTY_SCAN, t, fill) == Ok(moved)
    requires ScanEligible(input.account, bar.seqNo, moved) == Ok(eligible)
    requires st.book.positions[0] == PositionRecord(t.id, bar.seqNo, moved.quantity, eligible)
    ensures CheckTrade(input, [bar], EMPTY_SCAN, st.book.trades[0], st.book.positions[0])
            == Ok(moved.(seen := moved.seen + {t.id}))
  {
    var trade := st.book.trades[0];
    assert trade == TradeOf(t, bar.seqNo, fill, c);
    assert IntentById(input.intents, trade.id) == Some(t) && BarBySession([bar], trade.session) == Some(bar);
  }

  lemma {:induction false} OneTradePasses(input: Input, bar: Bar, t: Intent, fill: Fill, c: Costs, st: State,
      scan: TradeScan)
    requires OneFill(input, bar, t, fill, c, st)
    requires CheckTrade(input, [bar], EMPTY_SCAN, st.book.trades[0], st.book.positions[0]) == Ok(scan)
    requires input.account.model == LinearPerp ==> scan.quantity == st.book.quantity
    ensures ValidateTrades(input, [bar], st.book) == Ok(())
  {
    var b := st.book;
    assert Zip(b.trades, b.positions) == [(b.trades[0], b.positions[0])];
    OneFold(TradeCheck(input, [bar]), EMPTY_SCAN, (b.trades[0], b.positions[0]));
  }

  lemma {:induction false} OneLotPasses(input: Input, bar: Bar, t: Intent, fill: Fill, c: Costs, st: State)
    requires OneFill(input, bar, t, fill, c, st)
    requires if input.account.model == LinearPerp then st.book.longLots == [] && st.book.shortLots == []
             else LotStep(input.account, [bar], LotScan(0, [], []), st.book.trades[0])
                  == Ok(LotScan(st.book.quantity, st.book.longLots, st.book.shortLots))
    ensures ValidateLots(input.account, [bar], st.book) == Ok(())
  {
    if input.account.model == AShareCash {
      OneFold(LotCheck(input.account, [bar]), LotScan(0, [], []), st.book.trades[0]);
    }
  }

  lemma {:induction false} OneOrderScans(input: Input, bar: Bar, t: Intent, fill: Fill, c: Costs, st: State)
    requires OneFill(input, bar, t, fill, c, st)
    ensures ScanIntent(input.account, bar, st.book.trades, EMPTY_ORDER_SCAN, t) == Ok(OrderScan(st.log, {t.id}))
  {
    var trade := st.book.trades[0];
    assert trade == TradeOf(t, bar.seqNo, fill, c) && TradeById(st.book.trades, t.id) == Some(trade);
    assert {} + {t.id} == {t.id};
  }

  lemma {:induction false} OneBarScans(input: Input, bar: Bar, trades: seq<TradeRecord>, t: Intent, next: OrderScan)
    requires input.intents == [t] && Live(t, bar.seqNo)
    requires ScanIntent(input.account, bar, trades, EMPTY_ORDER_SCAN, t) == Ok(next)
    ensures Fold(BarCheck(input, trades), EMPTY_ORDER_SCAN, [bar], 0, 1) == Ok(next)
  {
    AllLive([t], {}, bar.seqNo);
    OnlyLive([t], {}, bar.seqNo, t);
    OneFold(IntentCheck(input.account, bar, trades), EMPTY_ORDER_SCAN, t);
    OneFold(BarCheck(input, trades), EMPTY_ORDER_SCAN, bar);
  }

  lemma {:induction false} OneOrderPasses(input: Input, bar: Bar, t: Intent, fill: Fill, c: Costs, st: State)
    requires OneFill(input, bar, t, fill, c, st)
    ensures ValidateOrders(input, [bar], st) == Ok(())
  {
    OneOrderScans(input, bar, t, fill, c, st);
    OneBarScans(input, bar, st.book.trades, t, OrderScan(st.log, {t.id}));
  }

  lemma {:induction false} OneRecord(account: Account, trade: TradeRecord, m: (int, int, int, Option<int>), cash: int)
    requires LedgerMove(account, EmptyLedger(account), trade) == Ok(m)
    requires InI128(-trade.fee) && InI128(m.0 - trade.fee) && InI128(-trade.stampDuty)
    requires InI128(m.0 - trade.fee - trade.stampDuty)
    requires InI128(m.0 - trade.fee - trade.stampDuty + m.1) && InI128(cash)
    requires cash == account.startingBalance + m.0 - trade.fee - trade.stampDuty + m.1
    ensures LedgerTrade(account, EmptyLedger(account), trade)
            == Ok(LedgerScan(cash, m.2, m.3,
                    [CashRecord(FromIntent(trade.id), trade.session, m.0, -trade.fee, -trade.stampDuty, m.1, 0, cash)],
                    [], 0))
  {
    var r := CashRecord(FromIntent(trade.id), trade.session, m.0, -trade.fee, -trade.stampDuty, m.1, 0, cash);
    assert [] + [r] == [r];
  }

  lemma {:induction false} OneLedgerPasses(input: Input, bar: Bar, t: Intent, fill: Fill, c: Costs, st: State,
      s: LedgerScan)
    requires OneFill(input, bar, t, fill, c, st)
    requires LedgerTrade(input.account, EmptyLedger(input.account), st.book.trades[0]) == Ok(s)
    requires s.cashLedger == st.book.cashLedger && s.fundingLedger == [] && s.totalFunding == 0
    requires RunningCash(input.account.startingBalance, st.book.cashLedger[0]) == Ok(st.book.cash)
    ensures ValidateLedgers(input, [bar], st.book) == Ok(())
  {
    var trades, start := st.book.trades, EmptyLedger(input.account);
    assert trades[..0] == [] && TradesOf(trades, bar.seqNo) == [] + [trades[0]] == trades;
    OneFold(LedgerTradeStep(input.account), start, trades[0]);
    assert LedgerBar(input, trades, start, bar) == Ok(s);
    OneFold(LedgerBarStep(input, trades), start, bar);
    OneFold(RunningCash, input.account.startingBalance, st.book.cashLedger[0]);
    assert st.book.cashLedger == [st.book.cashLedger[0]];
  }

  lemma {:induction false} OneTotalPasses(input: Input, bar: Bar, t: Intent, fill: Fill, c: Costs, st: State)
    requires OneFill(input, bar, t, fill, c, st)
    requires st.book.totalFees == c.fee && st.book.totalStampDuty == c.stampDuty && st.book.totalSlippage == c.slippage
    requires InI128(c.fee) && InI128(c.stampDuty) && InI128(c.slippage)
    ensures ValidateTotals(st.book) == Ok(())
  {
    var trade := st.book.trades[0];
    OneFold(AddFee, 0, trade);
    OneFold(AddStampDuty, 0, trade);
    OneFold(AddSlippage, 0, trade);
  }

  lemma {:induction false} OnePointPasses(input: Input, bar: Bar, t: Intent, fill: Fill, c: Costs, st: State, peak: int)
    requires OneFill(input, bar, t, fill, c, st)
    requires CheckPoints(input.account, st.book, input.account.startingBalance,
                         (bar, (st.curve.equity[0], st.curve.drawdown[0]))) == Ok(peak)
    ensures ValidateCurves(input.account, [bar], st) == Ok(())
  {
    var x := (bar, (st.curve.equity[0], st.curve.drawdown[0]));
    assert ZipPoints([bar], st.curve) == [x];
    OneFold(PointCheck(input.account, st.book), input.account.startingBalance, x);
  }

  /** A state all of whose parts pass is accepted. */
  lemma {:induction false} PartsAccept(input: Input, bar: Bar, st: State)
    requires input.bars == [bar] && ShapeChecks(input, [bar], st) && ExtremeChecks(input.account, st)
    requires SetChecks(input, st)
    requires ValidateTrades(input, [bar], st.book).Ok? && ValidateLots(input.account, [bar], st.book).Ok?
    requires ValidateOrders(input, [bar], st).Ok? && ValidateLedgers(input, [bar], st.book).Ok?
    requires ValidateTotals(st.book).Ok? && ValidateCurves(input.account, [bar], st) == Ok(())
    requires ValidateHoldings(input.account, st.book).Ok?
    ensures ValidateState(input, 1, st) == Ok(())
  {
    assert input.bars[..1] == [bar];
  }

  // ---- the cap ----

  const MODEST := Account(LinearPerp, 1, 1, 1, 1, 100, 1, false, 0, 0, 0, 0, 0)

  const BUY_TWENTY := DayOrder(1, 1, Buy, Open, 20, Market, None, None, 1)

  const UNCAPPED := Input(MODEST, [FLAT_BAR], [], [BUY_TWENTY])

  const NOTIONAL_200 := Costs(200, 0, 0, 0)

  const ABOVE_CAP := State(
    LogFill(OrderLog([], {}, {}), BUY_TWENTY, 1, AT_TEN),
    Book(100, 100, 20, Some(10), [], [], [TradeOf(BUY_TWENTY, 1, AT_TEN, NOTIONAL_200)], [PositionRecord(1, 1, 20, 0)],
         [FillCashRecord(BUY_TWENTY, 1, NOTIONAL_200, 0, 0, 100)], [], 0, 0, 0, 0, 0),
    Curve([EquityPoint(1, 1, 10, 100, 20, 100)], [DrawdownPoint(1, 100, 100, 0, 0)], 100, 0, 0))

  lemma {:induction false} AboveCapIsOneFill()
    ensures OneFill(UNCAPPED, FLAT_BAR, BUY_TWENTY, AT_TEN, NOTIONAL_200, ABOVE_CAP)
  {
    assert FillDecision(MODEST, FLAT_BAR, BUY_TWENTY) == Ok(Some(AT_TEN));
    assert CostsOf(MODEST, BUY_TWENTY, AT_TEN) == Ok(NOTIONAL_200);
  }

  lemma {:induction false} AboveCapScans()
    ensures ValidateTrades(UNCAPPED, [FLAT_BAR], ABOVE_CAP.book) == Ok(())
    ensures ValidateLots(MODEST, [FLAT_BAR], ABOVE_CAP.book) == Ok(())
    ensures ValidateOrders(UNCAPPED, [FLAT_BAR], ABOVE_CAP) == Ok(())
  {
    AboveCapIsOneFill();
    var moved := TradeScan(20, [], [], Some(10), {});
    OneTradeChecks(UNCAPPED, FLAT_BAR, BUY_TWENTY, AT_TEN, NOTIONAL_200, ABOVE_CAP, moved, 0);
    OneTradePasses(UNCAPPED, FLAT_BAR, BUY_TWENTY, AT_TEN, NOTIONAL_200, ABOVE_CAP, moved.(seen := {} + {1}));
    OneLotPasses(UNCAPPED, FLAT_BAR, BUY_TWENTY, AT_TEN, NOTIONAL_200, ABOVE_CAP);
    OneOrderPasses(UNCAPPED, FLAT_BAR, BUY_TWENTY, AT_TEN, NOTIONAL_200, ABOVE_CAP);
  }

  lemma {:induction false} AboveCapRecord(trade: TradeRecord)
    requires trade == TradeOf(BUY_TWENTY, 1, AT_TEN, NOTIONAL_200)
    ensures LedgerTrade(MODEST, EmptyLedger(MODEST), trade)
            == Ok(LedgerScan(100, 20, Some(10), [CashRecord(FromIntent(1), 1, 0, 0, 0, 0, 0, 100)], [], 0))
  {
    OneRecord(MODEST, trade, (0, 0, 20, Some(10)), 100);
  }

  lemma {:induction false} CapLedgerPasses(st: State)
    requires OneFill(UNCAPPED, FLAT_BAR, BUY_TWENTY, AT_TEN, NOTIONAL_200, st)
    requires st.book.cash == 100 && st.book.cashLedger == [CashRecord(FromIntent(1), 1, 0, 0, 0, 0, 0, 100)]
    ensures ValidateLedgers(UNCAPPED, [FLAT_BAR], st.book) == Ok(())
  {
    AboveCapRecord(st.book.trades[0]);
    OneLedgerPasses(UNCAPPED, FLAT_BAR, BUY_TWENTY, AT_TEN, NOTIONAL_200, st,
                    LedgerScan(100, 20, Some(10), st.book.cashLedger, [], 0));
  }

  lemma {:induction false} AboveCapLedger()
    ensures ValidateLedgers(UNCAPPED, [FLAT_BAR], ABOVE_CAP.book) == Ok(())
  {
    AboveCapIsOneFill();
    CapLedgerPasses(ABOVE_CAP);
  }

  lemma {:induction false} AboveCapAddsUp()
    ensures ValidateTotals(ABOVE_CAP.book) == Ok(())
    ensures ValidateHoldings(MODEST, ABOVE_CAP.book).Ok?
  {
    AboveCapIsOneFill();
    OneTotalPasses(UNCAPPED, FLAT_BAR, BUY_TWENTY, AT_TEN, NOTIONAL_200, ABOVE_CAP);
  }

  lemma {:induction false} AboveCapPoints()
    ensures ValidateCurves(MODEST, [FLAT_BAR], ABOVE_CAP) == Ok(())
    ensures ExtremeChecks(MODEST, ABOVE_CAP)
  {
    AboveCapIsOneFill();
    assert UnrealizedPnl(20, Some(10), 10) == Ok(0) && CheckedDiv(0, 100) == Ok(0);
    OnePointPasses(UNCAPPED, FLAT_BAR, BUY_TWENTY, AT_TEN, NOTIONAL_200, ABOVE_CAP, 100);
  }

  lemma {:induction false} AboveCapShape()
    ensures ShapeChecks(UNCAPPED, [FLAT_BAR], ABOVE_CAP) && SetChecks(UNCAPPED, ABOVE_CAP)
  {
    assert ABOVE_CAP.book.trades[..0] == [];
    assert OrderIds(ABOVE_CAP.log.orders) == {1} by {
      assert ABOVE_CAP.log.orders[0].id == 1;
    }
    assert GroupsOf(UNCAPPED.intents, []) == {};
  }

  lemma {:induction false} UncappedIsValid()
    ensures ValidInput(UNCAPPED) && Order.WellOrdered(UNCAPPED.intents)
  {
  }

  lemma {:induction false} CapStops(st: State)
    requires st == InitialState(MODEST)
    ensures ProcessIntent(MODEST, FLAT_BAR, st, BUY_TWENTY) == Err(OneXCap)
  {
    AboveCapIsOneFill();
    assert PerpMove(st.book, BUY_TWENTY, AT_TEN, NOTIONAL_200) == Err(OneXCap);
  }

  lemma {:induction false} EngineIsCapped()
    ensures ValidInput(UNCAPPED) && Order.WellOrdered(UNCAPPED.intents) && Replay(UNCAPPED, 1) == Err(OneXCap)
  {
    var st := InitialState(MODEST);
    UncappedIsValid();
    AllLive([BUY_TWENTY], {}, 1);
    OneIntentBar(UNCAPPED, FLAT_BAR, st, BUY_TWENTY);
    FirstBar(UNCAPPED);
    CapStops(st);
  }

  /** Two hundred bought with one hundred: accepted, and stopped by the engine. */
  lemma {:induction false} CapIsNotValidated()
    ensures ValidInput(UNCAPPED) && Order.WellOrdered(UNCAPPED.intents)
    ensures ValidateState(UNCAPPED, 1, ABOVE_CAP).Ok? && Replay(UNCAPPED, 1) == Err(OneXCap)
  {
    AboveCapScans();
    AboveCapLedger();
    AboveCapAddsUp();
    AboveCapPoints();
    AboveCapShape();
    PartsAccept(UNCAPPED, FLAT_BAR, ABOVE_CAP);
    EngineIsCapped();
  }

  // ---- an overflow of the costs ----

  const STEEP := Account(AShareCash, 1, 1, 1, 1, 1, 100, true, 1, 1, 0, 0, 0)

  const PRICE: int := HUGE / 100

  const FALLING := Bar(1, 1, PRICE, PRICE, 1, 1, true, true)

  const SELL_SHORT := DayOrder(1, 1, Sell, Open, 100, Market, None, None, 1)

  const COSTLY := Input(STEEP, [FALLING], [], [SELL_SHORT])

  const AT_PRICE := Fill(PRICE, 0, Taker, AtOpen)

  const ALL_COSTS := Costs(HUGE, 0, HUGE, HUGE)

  const EQUITY: int := -HUGE - 99

  const SPILLED := State(
    LogFill(OrderLog([], {}, {}), SELL_SHORT, 1, AT_PRICE),
    Book(1 - HUGE, 1 - HUGE, -100, None, [], [Lot(100, 1)], [TradeOf(SELL_SHORT, 1, AT_PRICE, ALL_COSTS)],
         [PositionRecord(1, 1, -100, 0)], [FillCashRecord(SELL_SHORT, 1, ALL_COSTS, HUGE, 0, 1 - HUGE)], [],
         HUGE, HUGE, 0, 0, 0),
    Curve([EquityPoint(1, 1, 1, 1 - HUGE, -100, EQUITY)], [DrawdownPoint(1, EQUITY, 1, EQUITY - 1, EQUITY - 1)],
          1, EQUITY - 1, EQUITY - 1))

  lemma {:induction false} SpilledIsOneFill()
    ensures OneFill(COSTLY, FALLING, SELL_SHORT, AT_PRICE, ALL_COSTS, SPILLED)
  {
    assert FillDecision(STEEP, FALLING, SELL_SHORT) == Ok(Some(AT_PRICE));
    assert CostsOf(STEEP, SELL_SHORT, AT_PRICE) == Ok(ALL_COSTS);
  }

  lemma {:induction false} SpilledScans()
    ensures ValidateTrades(COSTLY, [FALLING], SPILLED.book) == Ok(())
    ensures ValidateLots(STEEP, [FALLING], SPILLED.book) == Ok(())
    ensures ValidateOrders(COSTLY, [FALLING], SPILLED) == Ok(())
  {
    SpilledIsOneFill();
    assert [] + [Lot(100, 1)] == [Lot(100, 1)];
    assert CheckedEligible([Lot(100, 1)], 1, 0) == Ok(0) by { assert [Lot(100, 1)][1..] == []; }
    var moved := TradeScan(-100, [], [Lot(100, 1)], None, {});
    OneTradeChecks(COSTLY, FALLING, SELL_SHORT, AT_PRICE, ALL_COSTS, SPILLED, moved, 0);
    OneTradePasses(COSTLY, FALLING, SELL_SHORT, AT_PRICE, ALL_COSTS, SPILLED, moved.(seen := {} + {1}));
    OneLotPasses(COSTLY, FALLING, SELL_SHORT, AT_PRICE, ALL_COSTS, SPILLED);
    OneOrderPasses(COSTLY, FALLING, SELL_SHORT, AT_PRICE, ALL_COSTS, SPILLED);
  }

  lemma {:induction false} SpilledAddsUp()
    ensures ValidateLedgers(COSTLY, [FALLING], SPILLED.book) == Ok(())
    ensures ValidateTotals(SPILLED.book) == Ok(())
    ensures ValidateHoldings(STEEP, SPILLED.book).Ok?
  {
    SpilledIsOneFill();
    var s := LedgerScan(1 - HUGE, -100, None, SPILLED.book.cashLedger, [], 0);
    assert LedgerTrade(STEEP, EmptyLedger(STEEP), SPILLED.book.trades[0]) == Ok(s) by {
      assert [] + SPILLED.book.cashLedger == SPILLED.book.cashLedger;
    }
    OneLedgerPasses(COSTLY, FALLING, SELL_SHORT, AT_PRICE, ALL_COSTS, SPILLED, s);
    OneTotalPasses(COSTLY, FALLING, SELL_SHORT, AT_PRICE, ALL_COSTS, SPILLED);
    OneFold(PositiveTotal, 0, Lot(100, 1));
  }

  lemma {:induction false} SpilledPoints()
    ensures ValidateCurves(STEEP, [FALLING], SPILLED) == Ok(())
    ensures ExtremeChecks(STEEP, SPILLED)
  {
    SpilledIsOneFill();
    assert CheckedMul(-100, 1) == Ok(-100) && CheckedDiv(EQUITY - 1, 1) == Ok(EQUITY - 1);
    OnePointPasses(COSTLY, FALLING, SELL_SHORT, AT_PRICE, ALL_COSTS, SPILLED, 1);
  }

  lemma {:induction false} SpilledShape()
    ensures ShapeChecks(COSTLY, [FALLING], SPILLED) && SetChecks(COSTLY, SPILLED)
  {
    assert SPILLED.book.trades[..0] == [];
    assert OrderIds(SPILLED.log.orders) == {1} by {
      assert SPILLED.log.orders[0].id == 1;
    }
    assert GroupsOf(COSTLY.intents, []) == {};
  }

  lemma {:induction false} EngineOverflows()
    ensures ValidInput(COSTLY) && Order.WellOrdered(COSTLY.intents) && Replay(COSTLY, 1) == Err(Overflow)
  {
    AllLive([SELL_SHORT], {}, 1);
    OneIntentBar(COSTLY, FALLING, InitialState(STEEP), SELL_SHORT);
    FirstBar(COSTLY);
    SpilledIsOneFill();
  }

  /** An A-share short whose fee and stamp duty do not fit together: accepted, and an
      overflow of the engine. */
  lemma {:induction false} OverflowIsNotValidated()
    ensures ValidInput(COSTLY) && Order.WellOrdered(COSTLY.intents)
    ensures ValidateState(COSTLY, 1, SPILLED).Ok? && Replay(COSTLY, 1) == Err(Overflow)
  {
    SpilledScans();
    SpilledAddsUp();
    SpilledPoints();
    SpilledShape();
    PartsAccept(COSTLY, FALLING, SPILLED);
    EngineOverflows();
  }
}
