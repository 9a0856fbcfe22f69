/** The v2 portfolio engine: several symbols over one cash balance, T+1 per symbol,
    market orders at the open. This module says what one session does to the state. */
module Portfolio {
  import opened Checked
  import opened Events
  import opened Lots
  import opened Folds
  import Sorting

  datatype Account = Account(
    symbols: seq<Symbol>,
    priceScale: nat,
    cashScale: nat,
    rateScale: int,
    startingBalance: int,
    lotSize: int,
    commissionRate: int,
    stampDutyRate: int,
    slippage: int)

  datatype Bar = Bar(
    symbol: Symbol, open: int, high: int, low: int, close: int,
    canBuy: bool, canSell: bool)

  datatype Session = Session(seqNo: nat, timestamp: int, bars: seq<Bar>)

  datatype Intent = Intent(
    id: Id, seqNo: nat, symbol: Symbol, side: Side, effect: Effect, quantity: int,
    knownAt: EventKey, effectiveAt: EventKey,
    hasLimit: bool, hasStop: bool, hasOcoGroup: bool)

  datatype Input = Input(account: Account, sessions: seq<Session>, intents: seq<Intent>)

  datatype Status = Filled | Expired

  datatype OrderRecord = OrderRecord(
    id: Id, seqNo: nat, symbol: Symbol, status: Status, side: Side, effect: Effect,
    quantity: int, filledSession: Option<nat>)

  datatype TradeRecord = TradeRecord(
    id: Id, symbol: Symbol, session: nat, side: Side, effect: Effect, quantity: int,
    price: int, notional: int, fee: int, stampDuty: int, slippage: int)

  datatype PositionRecord = PositionRecord(
    id: Id, symbol: Symbol, session: nat, quantity: int, eligible: int)

  datatype CashRecord = CashRecord(
    id: Id, symbol: Symbol, session: nat, notionalDelta: int, feeDelta: int,
    stampDutyDelta: int, resultingCash: int)

  datatype EquityPoint = EquityPoint(
    session: nat, timestamp: int, cash: int, marketValue: int, equity: int)

  datatype DrawdownPoint = DrawdownPoint(
    session: nat, equity: int, peak: int, drawdown: int, rate: int)

  datatype State = State(
    cash: int,
    lots: map<Symbol, seq<Lot>>,
    completed: set<Id>,
    orders: seq<OrderRecord>,
    trades: seq<TradeRecord>,
    positions: seq<PositionRecord>,
    cashLedger: seq<CashRecord>,
    equityCurve: seq<EquityPoint>,
    drawdownCurve: seq<DrawdownPoint>,
    peak: int,
    maxDrawdown: int,
    maxDrawdownRate: int,
    totalFees: int,
    totalStampDuty: int,
    totalSlippage: int,
    closedCount: nat)

  datatype Metrics = Metrics(
    startingEquity: int, endingEquity: int, netPnl: int, totalReturnRate: int,
    maxDrawdown: int, maxDrawdownRate: int, totalFees: int, totalStampDuty: int,
    totalFunding: int, totalSlippage: int, fillCount: nat, closedCount: nat, openCount: nat)

  datatype Output = Output(
    orders: seq<OrderRecord>, trades: seq<TradeRecord>, positions: seq<PositionRecord>,
    cashLedger: seq<CashRecord>, equityCurve: seq<EquityPoint>,
    drawdownCurve: seq<DrawdownPoint>, metrics: Metrics)

  // ---- what the input validator accepts ----

  predicate ValidAccount(a: Account) {
    && a.symbols != []
    && (forall i :: 0 <= i < |a.symbols| - 1 ==> a.symbols[i] < a.symbols[i + 1])
    && 0 != a.priceScale == a.cashScale
    && a.rateScale > 0 && a.startingBalance > 0
    && a.lotSize == 100
    && 0 <= a.commissionRate <= a.rateScale
    && 0 <= a.stampDutyRate <= a.rateScale
    && a.slippage >= 0
    && InI128(a.startingBalance) && InI128(a.slippage)
  }

  predicate ValidBar(b: Bar, slippage: int) {
    && 0 < b.low && b.low <= b.open && b.low <= b.close
    && b.high >= b.open && b.high >= b.close
    && slippage < b.open
  }

  predicate ValidSession(s: Session, account: Account) {
    && |s.bars| == |account.symbols|
    && (forall i :: 0 <= i < |s.bars| ==> s.bars[i].symbol == account.symbols[i])
    && (forall i :: 0 <= i < |s.bars| ==> ValidBar(s.bars[i], account.slippage))
  }

  predicate ValidIntent(t: Intent, input: Input) {
    && t.symbol in input.account.symbols
    && KeyBefore(t.knownAt, t.effectiveAt)
    && t.effectiveAt.phase == AtOpen
    && (exists i :: 0 <= i < |input.sessions| && input.sessions[i].seqNo == t.effectiveAt.session)
    && t.quantity > 0 && input.account.lotSize != 0 && t.quantity % input.account.lotSize == 0
    && !t.hasLimit && !t.hasStop && !t.hasOcoGroup
    && (t.side == Buy <==> t.effect == Open)
  }

  predicate IncreasingSessions(sessions: seq<Session>) {
    forall i :: 0 <= i < |sessions| - 1 ==> sessions[i].seqNo < sessions[i + 1].seqNo
  }

  predicate IncreasingSeqNos(intents: seq<Intent>) {
    forall i :: 0 <= i < |intents| - 1 ==> intents[i].seqNo < intents[i + 1].seqNo
  }

  predicate UniqueIds(intents: seq<Intent>) {
    forall i, j :: 0 <= i < j < |intents| ==> intents[i].id != intents[j].id
  }

  predicate ValidInput(input: Input) {
    && ValidAccount(input.account)
    && input.sessions != []
    && IncreasingSessions(input.sessions)
    && (forall i :: 0 <= i < |input.sessions| ==> ValidSession(input.sessions[i], input.account))
    && IncreasingSeqNos(input.intents)
    && UniqueIds(input.intents)
    && (forall i :: 0 <= i < |input.intents| ==> ValidIntent(input.intents[i], input))
  }

  // ---- one intent ----

  function InitialState(account: Account): State {
    State(account.startingBalance, map s | s in account.symbols :: [], {}, [], [], [], [], [], [],
          account.startingBalance, 0, 0, 0, 0, 0, 0)
  }

  function LotsOf(lots: map<Symbol, seq<Lot>>, symbol: Symbol): Result<seq<Lot>> {
    if symbol in lots then Ok(lots[symbol]) else Err(Panic)
  }

  function PositionOf(lots: map<Symbol, seq<Lot>>, symbol: Symbol): Result<int> {
    var held :- LotsOf(lots, symbol);
    CheckedTotal(held, 0)
  }

  function EligibleOf(lots: map<Symbol, seq<Lot>>, symbol: Symbol, session: int): Result<int> {
    var held :- LotsOf(lots, symbol);
    CheckedEligible(held, session, 0)
  }

  /** The sessions' bars looked up by symbol. */
  function BarOf(bars: seq<Bar>, symbol: Symbol): Result<Bar> {
    if bars == [] then Err(Panic)
    else if bars[0].symbol == symbol then Ok(bars[0])
    else BarOf(bars[1..], symbol)
  }

  predicate Blocked(bar: Bar, side: Side) {
    (side == Buy && !bar.canBuy) || (side == Sell && !bar.canSell)
  }

  datatype Quote = Quote(price: int, notional: int, fee: int, stampDuty: int, slippage: int)

  /** Price and costs of a fill; they do not depend on the state. */
  function QuoteFor(account: Account, bar: Bar, t: Intent): Result<Quote> {
    var price :- if t.side == Buy then CheckedAdd(bar.open, account.slippage)
                 else CheckedSub(bar.open, account.slippage);
    var notional :- CheckedMul(price, t.quantity);
    var fee :- RateCharge(notional, account.commissionRate, account.rateScale);
    var stampDuty :- if t.side == Buy then Ok(0)
                     else RateCharge(notional, account.stampDutyRate, account.rateScale);
    var slippage :- CheckedMul(account.slippage, t.quantity);
    Ok(Quote(price, notional, fee, stampDuty, slippage))
  }

  /** Cash and lots after a fill, and whether it closed the position. */
  datatype Settlement = Settlement(cash: int, lots: map<Symbol, seq<Lot>>, closedCount: nat)

  function Settle(st: State, session: nat, t: Intent, q: Quote): Result<Settlement> {
    match (t.side, t.effect)
    case (Buy, Open) =>
      var debit :- CheckedAdd(q.notional, q.fee);
      if debit > st.cash then Err(ExceedsCash)
      else
        var cash :- CheckedSub(st.cash, debit);
        var held :- LotsOf(st.lots, t.symbol);
        Ok(Settlement(cash, st.lots[t.symbol := held + [Lot(t.quantity, session)]], st.closedCount))
    case (Sell, Close) =>
      var held :- LotsOf(st.lots, t.symbol);
      var left :- Consume(held, t.quantity, session);
      var lots := st.lots[t.symbol := left];
      var costs :- CheckedAdd(q.fee, q.stampDuty);
      var proceeds :- CheckedSub(q.notional, costs);
      var cash :- CheckedAdd(st.cash, proceeds);
      var position :- PositionOf(lots, t.symbol);
      if position != 0 then Ok(Settlement(cash, lots, st.closedCount))
      else if st.closedCount + 1 > U64_MAX then Err(Overflow)
      else Ok(Settlement(cash, lots, st.closedCount + 1))
    case _ => Err(Unsupported)
  }

  function OrderOf(t: Intent, status: Status, session: Option<nat>): OrderRecord {
    OrderRecord(t.id, t.seqNo, t.symbol, status, t.side, t.effect, t.quantity, session)
  }

  function TradeOf(t: Intent, session: nat, q: Quote): TradeRecord {
    TradeRecord(t.id, t.symbol, session, t.side, t.effect, t.quantity,
                q.price, q.notional, q.fee, q.stampDuty, q.slippage)
  }

  function CashRecordOf(t: Intent, session: nat, q: Quote, cash: int): CashRecord {
    CashRecord(t.id, t.symbol, session, if t.side == Buy then -q.notional else q.notional,
               -q.fee, -q.stampDuty, cash)
  }

  function ExpireIntent(st: State, t: Intent): State {
    st.(orders := st.orders + [OrderOf(t, Expired, None)], completed := st.completed + {t.id})
  }

  function FillIntent(st: State, session: nat, t: Intent, q: Quote): Result<State> {
    var settled :- Settle(st, session, t, q);
    var fees :- CheckedAdd(st.totalFees, q.fee);
    var stampDuty :- CheckedAdd(st.totalStampDuty, q.stampDuty);
    var slippage :- CheckedAdd(st.totalSlippage, q.slippage);
    var position :- PositionOf(settled.lots, t.symbol);
    var eligible :- EligibleOf(settled.lots, t.symbol, session);
    Ok(st.(cash := settled.cash,
           lots := settled.lots,
           closedCount := settled.closedCount,
           totalFees := fees,
           totalStampDuty := stampDuty,
           totalSlippage := slippage,
           orders := st.orders + [OrderOf(t, Filled, Some(session))],
           trades := st.trades + [TradeOf(t, session, q)],
           positions := st.positions + [PositionRecord(t.id, t.symbol, session, position, eligible)],
           cashLedger := st.cashLedger + [CashRecordOf(t, session, q, settled.cash)],
           completed := st.completed + {t.id}))
  }

  function ProcessIntent(account: Account, session: Session, st: State, t: Intent): Result<State> {
    var bar :- BarOf(session.bars, t.symbol);
    if Blocked(bar, t.side) then Ok(ExpireIntent(st, t))
    else
      var q :- QuoteFor(account, bar, t);
      FillIntent(st, session.seqNo, t, q)
  }

  // ---- one session ----

  /** The intents of a session not yet completed, in input order. */
  function DueIntents(intents: seq<Intent>, completed: set<Id>, session: nat): seq<Intent> {
    if intents == [] then []
    else if intents[0].id !in completed && intents[0].effectiveAt.session == session
    then [intents[0]] + DueIntents(intents[1..], completed, session)
    else DueIntents(intents[1..], completed, session)
  }

  function Priority(effect: Effect): int { if effect == Close then 0 else 1 }

  /** Closes before opens, then by symbol, then by sequence number. */
  predicate RunsBefore(a: Intent, b: Intent) {
    || Priority(a.effect) < Priority(b.effect)
    || (Priority(a.effect) == Priority(b.effect) && a.symbol < b.symbol)
    || (Priority(a.effect) == Priority(b.effect) && a.symbol == b.symbol && a.seqNo < b.seqNo)
  }

  function Schedule(intents: seq<Intent>, completed: set<Id>, session: nat): seq<Intent> {
    Sorting.Sort(DueIntents(intents, completed, session), RunsBefore)
  }

  function IntentStep(account: Account, session: Session): (State, Intent) -> Result<State> {
    (st: State, t: Intent) => ProcessIntent(account, session, st, t)
  }

  /** The first n intents of a schedule, one after the other. */
  function ProcessIntents(account: Account, session: Session, st: State, due: seq<Intent>, n: nat): Result<State>
    requires n <= |due|
  {
    Fold(IntentStep(account, session), st, due, 0, n)
  }

  /** The marked value of the first n symbols. */
  function MarketValue(account: Account, session: Session, lots: map<Symbol, seq<Lot>>, n: nat): Result<int>
    requires n <= |account.symbols|
  {
    if n == 0 then Ok(0)
    else
      var total :- MarketValue(account, session, lots, n - 1);
      var quantity :- PositionOf(lots, account.symbols[n - 1]);
      var bar :- BarOf(session.bars, account.symbols[n - 1]);
      var marked :- CheckedMul(quantity, bar.close);
      CheckedAdd(total, marked)
  }

  function Mark(account: Account, session: Session, st: State): Result<State> {
    var marketValue :- MarketValue(account, session, st.lots, |account.symbols|);
    var equity :- CheckedAdd(st.cash, marketValue);
    var peak := Max(st.peak, equity);
    var drawdown :- CheckedSub(equity, peak);
    var numerator :- CheckedMul(drawdown, account.rateScale);
    var rate :- CheckedDiv(numerator, peak);
    Ok(st.(peak := peak,
           maxDrawdown := Min(st.maxDrawdown, drawdown),
           maxDrawdownRate := Min(st.maxDrawdownRate, rate),
           equityCurve := st.equityCurve
             + [EquityPoint(session.seqNo, session.timestamp, st.cash, marketValue, equity)],
           drawdownCurve := st.drawdownCurve
             + [DrawdownPoint(session.seqNo, equity, peak, drawdown, rate)]))
  }

  function ProcessSession(input: Input, session: Session, st: State): Result<State> {
    var due := Schedule(input.intents, st.completed, session.seqNo);
    var traded :- ProcessIntents(input.account, session, st, due, |due|);
    Mark(input.account, session, traded)
  }

  // ---- whole runs ----

  function SessionStep(input: Input): (State, Session) -> Result<State> {
    (st: State, session: Session) => ProcessSession(input, session, st)
  }

  /** From `st`, the sessions start, ..., end - 1 one after the other. */
  function SessionsFrom(input: Input, st: State, start: nat, end: nat): Result<State>
    requires start <= end <= |input.sessions|
  {
    Fold(SessionStep(input), st, input.sessions, start, end)
  }

  /** The state after the first k sessions. */
  function RunSessions(input: Input, k: nat): Result<State>
    requires k <= |input.sessions|
  {
    SessionsFrom(input, InitialState(input.account), 0, k)
  }

  function ExpireRest(st: State, intents: seq<Intent>, n: nat): State
    requires n <= |intents|
  {
    if n == 0 then st
    else
      var before := ExpireRest(st, intents, n - 1);
      if intents[n - 1].id in before.completed then before else ExpireIntent(before, intents[n - 1])
  }

  function OpenPositions(symbols: seq<Symbol>, lots: map<Symbol, seq<Lot>>, n: nat): Result<nat>
    requires n <= |symbols|
  {
    if n == 0 then Ok(0)
    else
      var count :- OpenPositions(symbols, lots, n - 1);
      var position :- PositionOf(lots, symbols[n - 1]);
      if position == 0 then Ok(count)
      else if count + 1 > U64_MAX then Err(Overflow)
      else Ok(count + 1)
  }

  function Finish(input: Input, state: State): Result<Output> {
    var account := input.account;
    var st := ExpireRest(state, input.intents, |input.intents|);
    var ending := if st.equityCurve == [] then account.startingBalance
                  else st.equityCurve[|st.equityCurve| - 1].equity;
    var netPnl :- CheckedSub(ending, account.startingBalance);
    var numerator :- CheckedMul(netPnl, account.rateScale);
    var totalReturn :- CheckedDiv(numerator, account.startingBalance);
    var openCount :- OpenPositions(account.symbols, st.lots, |account.symbols|);
    Ok(Output(st.orders, st.trades, st.positions, st.cashLedger, st.equityCurve, st.drawdownCurve,
              Metrics(account.startingBalance, ending, netPnl, totalReturn,
                      st.maxDrawdown, st.maxDrawdownRate, st.totalFees, st.totalStampDuty,
                      0, st.totalSlippage, |st.trades|, st.closedCount, openCount)))
  }

  function RunEngine(input: Input): Result<Output> {
    if !ValidInput(input) then Err(InvalidInput)
    else
      var st :- RunSessions(input, |input.sessions|);
      Finish(input, st)
  }

  /** Marking only moves the peak, the drawdown extremes and the two curves. */
  lemma {:induction false} MarkFrame(account: Account, session: Session, st: State)
    requires Mark(account, session, st).Ok?
    ensures var next := Mark(account, session, st).value;
            next == st.(peak := next.peak, maxDrawdown := next.maxDrawdown,
                        maxDrawdownRate := next.maxDrawdownRate,
                        equityCurve := next.equityCurve, drawdownCurve := next.drawdownCurve)
  {
  }

  /** A session is its schedule followed by the mark. */
  lemma {:induction false} SessionParts(input: Input, session: Session, st: State)
    requires ProcessSession(input, session, st).Ok?
    ensures var due := Schedule(input.intents, st.completed, session.seqNo);
            && ProcessIntents(input.account, session, st, due, |due|).Ok?
            && Mark(input.account, session, ProcessIntents(input.account, session, st, due, |due|).value)
               == ProcessSession(input, session, st)
  {
  }

  /** A finished run hands out the state of its last session, after the expiry loop. */
  lemma {:induction false} RunParts(input: Input)
    requires RunEngine(input).Ok?
    ensures ValidInput(input) && UniqueIds(input.intents) && RunSessions(input, |input.sessions|).Ok?
    ensures var st := ExpireRest(RunSessions(input, |input.sessions|).value, input.intents, |input.intents|);
            var out := RunEngine(input).value;
            && out.orders == st.orders && out.trades == st.trades && out.positions == st.positions
            && out.cashLedger == st.cashLedger
            && out.equityCurve == st.equityCurve && out.drawdownCurve == st.drawdownCurve
  {
  }
}
