/** The v1 engine: one symbol, Market/Limit/Stop orders, DAY and GTC, OCO groups, on
    an A-share cash account (T+1, optional research shorts) or a linear perpetual
    wallet (1x cap, funding). This module says what one bar does to the state. */
module Engine {
  import opened Checked
  import opened Events
  import opened Lots
  import opened Folds
  import Sorting

  type Group = int

  datatype Model = AShareCash | LinearPerp

  datatype Account = Account(
    model: Model, symbol: Symbol, priceScale: nat, cashScale: nat, rateScale: int,
    startingBalance: int, lotSize: int, allowShort: bool, commissionRate: int,
    stampDutyRate: int, makerRate: int, takerRate: int, slippage: int)

  datatype Bar = Bar(
    seqNo: nat, timestamp: int, open: int, high: int, low: int, close: int,
    canBuy: bool, canSell: bool)

  datatype OrderType = Market | Limit | Stop

  datatype TimeInForce = Day | Gtc

  datatype Intent = Intent(
    id: Id, seqNo: nat, symbol: Symbol, side: Side, effect: Effect, quantity: int,
    orderType: OrderType, knownAt: EventKey, effectiveAt: EventKey,
    limit: Option<int>, stop: Option<int>, timeInForce: TimeInForce, oco: Option<Group>)

  datatype FundingEvent = FundingEvent(id: Id, key: EventKey, rate: int, mark: int)

  datatype Input = Input(
    account: Account, bars: seq<Bar>, funding: seq<FundingEvent>, intents: seq<Intent>)

  // ---- records ----

  datatype Status = Filled | Expired | Cancelled

  datatype Liquidity = Maker | Taker

  datatype OrderRecord = OrderRecord(
    id: Id, seqNo: nat, status: Status, side: Side, effect: Effect, orderType: OrderType,
    quantity: int, filledSession: Option<nat>, filledPhase: Option<Phase>)

  datatype TradeId = FillId(of: Id)

  datatype TradeRecord = TradeRecord(
    tradeId: TradeId, id: Id, session: nat, side: Side, effect: Effect, quantity: int,
    price: int, notional: int, fee: int, stampDuty: int, slippage: int, liquidity: Liquidity)

  datatype PositionRecord = PositionRecord(id: Id, session: nat, quantity: int, eligible: int)

  datatype Source = FromIntent(id: Id) | FromFunding(id: Id)

  datatype CashRecord = CashRecord(
    source: Source, session: nat, notionalDelta: int, feeDelta: int, stampDutyDelta: int,
    realizedDelta: int, fundingDelta: int, resultingCash: int)

  datatype FundingRecord = FundingRecord(
    id: Id, session: nat, quantity: int, rate: int, mark: int,
    walletDelta: int, resultingWallet: int)

  datatype EquityPoint = EquityPoint(
    session: nat, timestamp: int, mark: int, cash: int, quantity: int, equity: int)

  datatype DrawdownPoint = DrawdownPoint(
    session: nat, equity: int, peak: int, drawdown: int, rate: int)

  // ---- the state, in the three parts that move together ----

  /** What happened to the intents. */
  datatype OrderLog = OrderLog(
    orders: seq<OrderRecord>, completed: set<Id>, filledOco: set<Group>)

  /** Money, position and the ledgers of the fills. */
  datatype Book = Book(
    cash: int, wallet: int, quantity: int, entry: Option<int>,
    longLots: seq<Lot>, shortLots: seq<Lot>,
    trades: seq<TradeRecord>, positions: seq<PositionRecord>,
    cashLedger: seq<CashRecord>, fundingLedger: seq<FundingRecord>,
    totalFees: int, totalStampDuty: int, totalFunding: int, totalSlippage: int,
    closedCount: nat)

  /** Equity after every bar and its drawdown. */
  datatype Curve = Curve(
    equity: seq<EquityPoint>, drawdown: seq<DrawdownPoint>,
    peak: int, maxDrawdown: int, maxDrawdownRate: int)

  datatype State = State(log: OrderLog, book: Book, curve: Curve)

  function InitialBook(balance: int): Book {
    Book(balance, balance, 0, None, [], [], [], [], [], [], 0, 0, 0, 0, 0)
  }

  function InitialState(account: Account): State {
    State(OrderLog([], {}, {}), InitialBook(account.startingBalance),
          Curve([], [], account.startingBalance, 0, 0))
  }

  // ---- which intents a bar considers, and in which order ----

  predicate Live(t: Intent, session: nat) {
    match t.timeInForce
    case Day => t.effectiveAt.session == session
    case Gtc => t.effectiveAt.session <= session
  }

  function LiveIntents(intents: seq<Intent>, completed: set<Id>, session: nat): seq<Intent> {
    if intents == [] then []
    else if intents[0].id !in completed && Live(intents[0], session)
    then [intents[0]] + LiveIntents(intents[1..], completed, session)
    else LiveIntents(intents[1..], completed, session)
  }

  function TypePriority(orderType: OrderType): int {
    match orderType
    case Stop => 0
    case Market => 1
    case Limit => 2
  }

  /** Two legs of one OCO group that become effective in the same event. */
  predicate SameOcoEvent(a: Intent, b: Intent) {
    a.oco.Some? && a.oco == b.oco
    && a.effectiveAt.session == b.effectiveAt.session && a.effectiveAt.phase == b.effectiveAt.phase
  }

  predicate BaseBefore(a: Intent, b: Intent) {
    KeyBefore(a.effectiveAt, b.effectiveAt) || (a.effectiveAt == b.effectiveAt && a.seqNo < b.seqNo)
  }

  /** Within an OCO event the stop leg runs first; otherwise the base order decides. */
  predicate ExecutesBefore(a: Intent, b: Intent) {
    if SameOcoEvent(a, b) && TypePriority(a.orderType) != TypePriority(b.orderType)
    then TypePriority(a.orderType) < TypePriority(b.orderType)
    else BaseBefore(a, b)
  }

  function Schedule(intents: seq<Intent>, completed: set<Id>, session: nat): seq<Intent> {
    Sorting.Sort(LiveIntents(intents, completed, session), ExecutesBefore)
  }

  // ---- whether and where an intent fills ----

  datatype Fill = Fill(price: int, slippagePerUnit: int, liquidity: Liquidity, phase: Phase)

  function Unwrap(price: Option<int>): Result<int> {
    if price.Some? then Ok(price.value) else Err(Panic)
  }

  function FillDecision(account: Account, bar: Bar, t: Intent): Result<Option<Fill>> {
    if (t.side == Buy && !bar.canBuy) || (t.side == Sell && !bar.canSell) then Ok(None)
    else
      match (t.orderType, t.side)
      case (Market, Buy) =>
        var price :- CheckedAdd(bar.open, account.slippage);
        Ok(Some(Fill(price, account.slippage, Taker, AtOpen)))
      case (Market, Sell) =>
        var price :- CheckedSub(bar.open, account.slippage);
        Ok(Some(Fill(price, account.slippage, Taker, AtOpen)))
      case (Limit, Buy) =>
        var limit :- Unwrap(t.limit);
        if bar.open > limit && bar.low > limit then Ok(None)
        else
          var atOpen := bar.open <= limit;
          var reference := if atOpen then bar.open else limit;
          var slipped :- CheckedAdd(reference, account.slippage);
          var price := Min(slipped, limit);
          var slippage :- CheckedSub(price, reference);
          Ok(Some(Fill(price, slippage, if atOpen then Taker else Maker, if atOpen then AtOpen else Intrabar)))
      case (Limit, Sell) =>
        var limit :- Unwrap(t.limit);
        if bar.open < limit && bar.high < limit then Ok(None)
        else
          var atOpen := bar.open >= limit;
          var reference := if atOpen then bar.open else limit;
          var slipped :- CheckedSub(reference, account.slippage);
          var price := Max(slipped, limit);
          var slippage :- CheckedSub(reference, price);
          Ok(Some(Fill(price, slippage, if atOpen then Taker else Maker, if atOpen then AtOpen else Intrabar)))
      case (Stop, Buy) =>
        var stop :- Unwrap(t.stop);
        if bar.open < stop && bar.high < stop then Ok(None)
        else
          var atOpen := bar.open >= stop;
          var price :- CheckedAdd(if atOpen then bar.open else stop, account.slippage);
          Ok(Some(Fill(price, account.slippage, Taker, if atOpen then AtOpen else Intrabar)))
      case (Stop, Sell) =>
        var stop :- Unwrap(t.stop);
        if bar.open > stop && bar.low > stop then Ok(None)
        else
          var atOpen := bar.open <= stop;
          var price :- CheckedSub(if atOpen then bar.open else stop, account.slippage);
          Ok(Some(Fill(price, account.slippage, Taker, if atOpen then AtOpen else Intrabar)))
  }

  // ---- costs of a fill ----

  datatype Costs = Costs(notional: int, slippage: int, fee: int, stampDuty: int)

  function CostsOf(account: Account, t: Intent, fill: Fill): Result<Costs> {
    var notional :- CheckedMul(fill.price, t.quantity);
    var slippage :- CheckedMul(fill.slippagePerUnit, t.quantity);
    var rate := match account.model
                case AShareCash => account.commissionRate
                case LinearPerp => if fill.liquidity == Maker then account.makerRate else account.takerRate;
    var fee :- RateCharge(notional, rate, account.rateScale);
    var stampDuty :- if account.model == AShareCash && t.side == Sell
                     then RateCharge(notional, account.stampDutyRate, account.rateScale) else Ok(0);
    Ok(Costs(notional, slippage, fee, stampDuty))
  }

  // ---- the position after a fill ----

  /** Money and position after a fill, with what it realized. */
  datatype Move = Move(
    cash: int, quantity: int, entry: Option<int>, longLots: seq<Lot>, shortLots: seq<Lot>,
    notionalDelta: int, realized: int, closes: bool)

  function AShareMove(account: Account, session: nat, b: Book, t: Intent, c: Costs): Result<Move> {
    match (t.side, t.effect)
    case (Buy, Open) =>
      if b.quantity < 0 then Err(CrossesPosition)
      else
        var debit :- CheckedAdd(c.notional, c.fee);
        var cash :- CheckedSub(b.cash, debit);
        var quantity :- CheckedAdd(b.quantity, t.quantity);
        Ok(Move(cash, quantity, b.entry, b.longLots + [Lot(t.quantity, session)], b.shortLots, -c.notional, 0, false))
    case (Sell, Close) =>
      if b.quantity <= 0 then Err(CrossesPosition)
      else
        var lots :- Consume(b.longLots, t.quantity, session);
        var quantity :- CheckedSub(b.quantity, t.quantity);
        var costs :- CheckedAdd(c.fee, c.stampDuty);
        var proceeds :- CheckedSub(c.notional, costs);
        var cash :- CheckedAdd(b.cash, proceeds);
        Ok(Move(cash, quantity, b.entry, lots, b.shortLots, c.notional, 0, quantity == 0))
    case (Sell, Open) =>
      if !account.allowShort then Err(Unsupported)
      else if b.quantity > 0 then Err(CrossesPosition)
      else
        var quantity :- CheckedSub(b.quantity, t.quantity);
        var costs :- CheckedAdd(c.fee, c.stampDuty);
        var proceeds :- CheckedSub(c.notional, costs);
        var cash :- CheckedAdd(b.cash, proceeds);
        Ok(Move(cash, quantity, b.entry, b.longLots, b.shortLots + [Lot(t.quantity, session)], c.notional, 0, false))
    case (Buy, Close) =>
      if !account.allowShort then Err(Unsupported)
      else if b.quantity >= 0 then Err(CrossesPosition)
      else
        var lots :- Consume(b.shortLots, t.quantity, session);
        var quantity :- CheckedAdd(b.quantity, t.quantity);
        var debit :- CheckedAdd(c.notional, c.fee);
        var cash :- CheckedSub(b.cash, debit);
        Ok(Move(cash, quantity, b.entry, b.longLots, lots, -c.notional, 0, quantity == 0))
  }

  function PerpMove(b: Book, t: Intent, fill: Fill, c: Costs): Result<Move> {
    var after :-
      match t.effect
      case Open =>
        if b.quantity != 0 then Err(NotFlat)
        else
          var need :- CheckedAdd(c.notional, c.fee);
          if need > b.wallet then Err(OneXCap)
          else Ok((if t.side == Buy then t.quantity else -t.quantity, Some(fill.price), 0))
      case Close =>
        if b.quantity != (if t.side == Sell then t.quantity else -t.quantity) then Err(CrossesPosition)
        else
          var entry :- Unwrap(b.entry);
          var gain :- if t.side == Sell then CheckedSub(fill.price, entry) else CheckedSub(entry, fill.price);
          var realized :- CheckedMul(gain, t.quantity);
          Ok((0, None, realized));
    var gross :- CheckedAdd(b.wallet, after.2);
    var wallet :- CheckedSub(gross, c.fee);
    Ok(Move(wallet, after.0, after.1, b.longLots, b.shortLots, 0, after.2, t.effect == Close))
  }

  function MoveFor(account: Account, session: nat, b: Book, t: Intent, fill: Fill, c: Costs): Result<Move> {
    if account.model == AShareCash then AShareMove(account, session, b, t, c) else PerpMove(b, t, fill, c)
  }

  /** The book with the position moved and its records still to come. On a perpetual
      account the wallet is the cash; an A-share wallet follows at the end of the bar. */
  function AfterMove(account: Account, b: Book, m: Move): Book {
    b.(cash := m.cash,
       wallet := if account.model == LinearPerp then m.cash else b.wallet,
       quantity := m.quantity, entry := m.entry,
       longLots := m.longLots, shortLots := m.shortLots,
       closedCount := b.closedCount + if m.closes then 1 else 0)
  }

  function EligibleNow(account: Account, session: nat, b: Book): Result<int> {
    if account.model == LinearPerp then Ok(0)
    else if b.quantity >= 0 then CheckedEligible(b.longLots, session, 0)
    else
      var eligible :- CheckedEligible(b.shortLots, session, 0);
      Ok(-eligible)
  }

  function TradeOf(t: Intent, session: nat, fill: Fill, c: Costs): TradeRecord {
    TradeRecord(FillId(t.id), t.id, session, t.side, t.effect, t.quantity, fill.price,
                c.notional, c.fee, c.stampDuty, c.slippage, fill.liquidity)
  }

  function FillCashRecord(t: Intent, session: nat, c: Costs, notionalDelta: int, realized: int, cash: int): CashRecord {
    CashRecord(FromIntent(t.id), session, notionalDelta, -c.fee, -c.stampDuty, realized, 0, cash)
  }

  /** Totals, trade, position and cash records of a fill that moved the position. */
  function RecordFill(account: Account, session: nat, b: Book, t: Intent, fill: Fill, c: Costs, notionalDelta: int,
      realized: int): Result<Book> {
    var fees :- CheckedAdd(b.totalFees, c.fee);
    var stampDuty :- if account.model == LinearPerp then Ok(b.totalStampDuty)
                     else CheckedAdd(b.totalStampDuty, c.stampDuty);
    var slippage :- CheckedAdd(b.totalSlippage, c.slippage);
    var eligible :- EligibleNow(account, session, b);
    Ok(b.(trades := b.trades + [TradeOf(t, session, fill, c)],
          positions := b.positions + [PositionRecord(t.id, session, b.quantity, eligible)],
          cashLedger := b.cashLedger + [FillCashRecord(t, session, c, notionalDelta, realized, b.cash)],
          totalFees := fees, totalStampDuty := stampDuty, totalSlippage := slippage))
  }

  function BookFill(account: Account, session: nat, b: Book, t: Intent, fill: Fill): Result<Book> {
    var c :- CostsOf(account, t, fill);
    var m :- MoveFor(account, session, b, t, fill, c);
    RecordFill(account, session, AfterMove(account, b, m), t, fill, c, m.notionalDelta, m.realized)
  }

  // ---- the order log after an intent ----

  function OrderOf(t: Intent, status: Status, session: Option<nat>, phase: Option<Phase>): OrderRecord {
    OrderRecord(t.id, t.seqNo, status, t.side, t.effect, t.orderType, t.quantity, session, phase)
  }

  function LogUnfilled(log: OrderLog, t: Intent, status: Status): OrderLog {
    log.(orders := log.orders + [OrderOf(t, status, None, None)], completed := log.completed + {t.id})
  }

  function LogFill(log: OrderLog, t: Intent, session: nat, fill: Fill): OrderLog {
    OrderLog(log.orders + [OrderOf(t, Filled, Some(session), Some(fill.phase))],
             log.completed + {t.id},
             if t.oco.Some? then log.filledOco + {t.oco.value} else log.filledOco)
  }

  predicate OcoDone(log: OrderLog, t: Intent) {
    t.oco.Some? && t.oco.value in log.filledOco
  }

  function ProcessIntent(account: Account, bar: Bar, st: State, t: Intent): Result<State> {
    if OcoDone(st.log, t) then Ok(st.(log := LogUnfilled(st.log, t, Cancelled)))
    else
      var decision :- FillDecision(account, bar, t);
      match decision
      case None =>
        Ok(if t.timeInForce == Day then st.(log := LogUnfilled(st.log, t, Expired)) else st)
      case Some(fill) =>
        var book :- BookFill(account, bar.seqNo, st.book, t, fill);
        Ok(st.(log := LogFill(st.log, t, bar.seqNo, fill), book := book))
  }

  // ---- funding and marking ----

  function FundingFor(events: seq<FundingEvent>, session: nat): seq<FundingEvent> {
    if events == [] then []
    else (if events[0].key.session == session then [events[0]] else []) + FundingFor(events[1..], session)
  }

  function FundingCost(account: Account, quantity: int, event: FundingEvent): Result<int> {
    if quantity == 0 then Ok(0)
    else
      var size :- Exact(if quantity < 0 then -quantity else quantity);
      var notional :- CheckedMul(size, event.mark);
      var charge :- SignedRateCharge(notional, event.rate, account.rateScale);
      if quantity > 0 then Ok(charge) else CheckedSub(0, charge)
  }

  function BookFunding(account: Account, b: Book, event: FundingEvent): Result<Book> {
    var cost :- FundingCost(account, b.quantity, event);
    var delta :- CheckedSub(0, cost);
    var wallet :- CheckedAdd(b.wallet, delta);
    var total :- CheckedAdd(b.totalFunding, cost);
    Ok(b.(wallet := wallet, cash := wallet, totalFunding := total,
          cashLedger := b.cashLedger
            + [CashRecord(FromFunding(event.id), event.key.session, 0, 0, 0, 0, delta, wallet)],
          fundingLedger := b.fundingLedger
            + [FundingRecord(event.id, event.key.session, b.quantity, event.rate, event.mark, delta, wallet)]))
  }

  function UnrealizedPnl(quantity: int, entry: Option<int>, mark: int): Result<int> {
    if quantity == 0 then Ok(0)
    else
      var price :- Unwrap(entry);
      if quantity > 0 then
        var gain :- CheckedSub(mark, price);
        CheckedMul(gain, quantity)
      else
        var gain :- CheckedSub(price, mark);
        var size :- Exact(-quantity);
        CheckedMul(gain, size)
  }

  /** What the position adds to the money at the close of the bar. */
  function MarkedPosition(account: Account, b: Book, close: int): Result<int> {
    if account.model == AShareCash then CheckedMul(b.quantity, close)
    else UnrealizedPnl(b.quantity, b.entry, close)
  }

  function MoneyOf(account: Account, b: Book): int {
    if account.model == AShareCash then b.cash else b.wallet
  }

  function MarkCurve(account: Account, bar: Bar, b: Book, c: Curve): Result<Curve> {
    var marked :- MarkedPosition(account, b, bar.close);
    var equity :- CheckedAdd(MoneyOf(account, b), marked);
    var peak := Max(c.peak, equity);
    var drawdown :- CheckedSub(equity, peak);
    var numerator :- CheckedMul(drawdown, account.rateScale);
    var rate :- CheckedDiv(numerator, peak);
    Ok(Curve(
         c.equity + [EquityPoint(bar.seqNo, bar.timestamp, bar.close, MoneyOf(account, b), b.quantity, equity)],
         c.drawdown + [DrawdownPoint(bar.seqNo, equity, peak, drawdown, rate)],
         peak, Min(c.maxDrawdown, drawdown), Min(c.maxDrawdownRate, rate)))
  }

  // ---- one bar ----

  function IntentStep(account: Account, bar: Bar): (State, Intent) -> Result<State> {
    (st: State, t: Intent) => ProcessIntent(account, bar, st, t)
  }

  function ProcessIntents(account: Account, bar: Bar, st: State, due: seq<Intent>, n: nat): Result<State>
    requires n <= |due|
  {
    Fold(IntentStep(account, bar), st, due, 0, n)
  }

  function FundingStep(account: Account): (Book, FundingEvent) -> Result<Book> {
    (b: Book, event: FundingEvent) => BookFunding(account, b, event)
  }

  function BookFundings(account: Account, b: Book, events: seq<FundingEvent>, n: nat): Result<Book>
    requires n <= |events|
  {
    Fold(FundingStep(account), b, events, 0, n)
  }

  /** Funding after the intents of a bar: perpetual accounts only. */
  function SettleFunding(input: Input, session: nat, b: Book): Result<Book> {
    if input.account.model == AShareCash then Ok(b)
    else
      var events := FundingFor(input.funding, session);
      BookFundings(input.account, b, events, |events|)
  }

  /** The book a bar leaves behind: at its end an A-share wallet is set to the cash. */
  function CloseBook(account: Account, b: Book): Book {
    if account.model == AShareCash then b.(wallet := b.cash) else b
  }

  function ProcessBar(input: Input, bar: Bar, st: State): Result<State> {
    var due := Schedule(input.intents, st.log.completed, bar.seqNo);
    var traded :- ProcessIntents(input.account, bar, st, due, |due|);
    var book :- SettleFunding(input, bar.seqNo, traded.book);
    var curve :- MarkCurve(input.account, bar, book, traded.curve);
    Ok(State(traded.log, CloseBook(input.account, book), curve))
  }

  // ---- whole runs ----

  function BarStep(input: Input): (State, Bar) -> Result<State> {
    (st: State, bar: Bar) => ProcessBar(input, bar, st)
  }

  function BarsFrom(input: Input, st: State, start: nat, end: nat): Result<State>
    requires start <= end <= |input.bars|
  {
    Fold(BarStep(input), st, input.bars, start, end)
  }

  /** The state after the first k bars. */
  function Replay(input: Input, k: nat): Result<State>
    requires k <= |input.bars|
  {
    BarsFrom(input, InitialState(input.account), 0, k)
  }

  datatype Metrics = Metrics(
    startingEquity: int, endingEquity: int, netPnl: int, totalReturnRate: int,
    maxDrawdown: int, maxDrawdownRate: int, totalFees: int, totalStampDuty: int,
    totalFunding: int, totalSlippage: int, fillCount: nat, closedCount: nat, openCount: nat)

  datatype Output = Output(
    model: Model, orders: seq<OrderRecord>, trades: seq<TradeRecord>, positions: seq<PositionRecord>,
    cashLedger: seq<CashRecord>, fundingLedger: seq<FundingRecord>,
    equityCurve: seq<EquityPoint>, drawdownCurve: seq<DrawdownPoint>, metrics: Metrics)

  /** The expiry records of the first n intents that never completed. */
  function ExpireRest(orders: seq<OrderRecord>, intents: seq<Intent>, completed: set<Id>, n: nat): seq<OrderRecord>
    requires n <= |intents|
  {
    if n == 0 then orders
    else
      var before := ExpireRest(orders, intents, completed, n - 1);
      if intents[n - 1].id in completed then before
      else before + [OrderOf(intents[n - 1], Expired, None, None)]
  }

  predicate EarlierOrder(a: OrderRecord, b: OrderRecord) { a.seqNo < b.seqNo }

  function Finish(input: Input, st: State): Result<Output> {
    var account, book, curve := input.account, st.book, st.curve;
    var perp := account.model == LinearPerp;
    var orders := ExpireRest(st.log.orders, input.intents, st.log.completed, |input.intents|);
    var ending := if curve.equity == [] then account.startingBalance
                  else curve.equity[|curve.equity| - 1].equity;
    var netPnl :- CheckedSub(ending, account.startingBalance);
    var numerator :- CheckedMul(netPnl, account.rateScale);
    var totalReturn :- CheckedDiv(numerator, account.startingBalance);
    Ok(Output(account.model, Sorting.Sort(orders, EarlierOrder), book.trades, book.positions,
              book.cashLedger, if perp then book.fundingLedger else [], curve.equity, curve.drawdown,
              Metrics(account.startingBalance, ending, netPnl, totalReturn,
                      curve.maxDrawdown, curve.maxDrawdownRate, book.totalFees,
                      if perp then 0 else book.totalStampDuty, if perp then book.totalFunding else 0,
                      book.totalSlippage, |book.trades|, book.closedCount,
                      if book.quantity != 0 then 1 else 0)))
  }

  // ---- what the input validators accept ----

  predicate ValidBar(b: Bar, slippage: int) {
    && 0 < b.low && b.low <= b.open && b.low <= b.close
    && b.high >= b.open && b.high >= b.close
    && slippage < b.open
    && InI128(b.high)
  }

  predicate MatchingPrice(t: Intent) {
    match t.orderType
    case Market => t.limit.None? && t.stop.None?
    case Limit => t.limit.Some? && t.stop.None? && t.limit.value > 0 && InI128(t.limit.value)
    case Stop => t.limit.None? && t.stop.Some? && t.stop.value > 0 && InI128(t.stop.value)
  }

  predicate ValidIntent(t: Intent, account: Account) {
    && t.symbol == account.symbol
    && KeyBefore(t.knownAt, t.effectiveAt)
    && t.effectiveAt.phase == AtOpen
    && t.quantity > 0 && InI128(t.quantity) && account.lotSize != 0 && t.quantity % account.lotSize == 0
    && MatchingPrice(t)
    && (t.oco.Some? ==> t.orderType != Market && t.effect == Close)
  }

  predicate IncreasingBars(bars: seq<Bar>) {
    forall i :: 0 <= i < |bars| - 1 ==> bars[i].seqNo < bars[i + 1].seqNo
  }

  predicate IncreasingSeqNos(intents: seq<Intent>) {
    forall i :: 0 <= i < |intents| - 1 ==> intents[i].seqNo < intents[i + 1].seqNo
  }

  predicate UniqueIds(intents: seq<Intent>) {
    forall i, j :: 0 <= i < j < |intents| ==> intents[i].id != intents[j].id
  }

  predicate ValidTape(intents: seq<Intent>, account: Account) {
    && IncreasingSeqNos(intents)
    && UniqueIds(intents)
    && forall i :: 0 <= i < |intents| ==> ValidIntent(intents[i], account)
  }

  predicate ValidRates(scale: int, first: int, second: int) {
    0 <= first <= scale && 0 <= second <= scale
  }

  predicate ValidAccount(a: Account) {
    && 0 != a.priceScale == a.cashScale
    && a.rateScale > 0 && a.startingBalance > 0 && a.slippage >= 0
    && InI128(a.startingBalance) && InI128(a.slippage)
    && match a.model
       case AShareCash =>
         && ValidRates(a.rateScale, a.commissionRate, a.stampDutyRate)
         && a.lotSize == 100 && a.makerRate == 0 && a.takerRate == 0
       case LinearPerp =>
         && a.lotSize > 0 && !a.allowShort && a.commissionRate == 0 && a.stampDutyRate == 0
         && ValidRates(a.rateScale, a.makerRate, a.takerRate)
  }

  predicate ValidFunding(events: seq<FundingEvent>, bars: seq<Bar>) {
    && (forall i :: 0 <= i < |events| - 1 ==> KeyBefore(events[i].key, events[i + 1].key))
    && (forall i, j :: 0 <= i < j < |events| ==> events[i].id != events[j].id)
    && forall i :: 0 <= i < |events| ==>
         && events[i].key.phase == AtClose && events[i].mark > 0
         && exists j :: 0 <= j < |bars| && bars[j].seqNo == events[i].key.session
  }

  predicate ValidInput(input: Input) {
    && ValidAccount(input.account)
    && (if input.account.model == AShareCash then input.funding == []
        else ValidFunding(input.funding, input.bars))
    && (forall i :: 0 <= i < |input.bars| ==> ValidBar(input.bars[i], input.account.slippage))
    && IncreasingBars(input.bars)
    && ValidTape(input.intents, input.account)
  }

  /** The one-shot run of either market. */
  function RunEngine(input: Input): Result<Output> {
    if !ValidInput(input) then Err(InvalidInput)
    else
      var st :- Replay(input, |input.bars|);
      Finish(input, st)
  }

  /** A finished run hands out the records of its last bar, with the orders in tape order. */
  lemma {:induction false} RunParts(input: Input)
    requires RunEngine(input).Ok?
    ensures ValidInput(input) && UniqueIds(input.intents) && IncreasingSeqNos(input.intents)
    ensures Replay(input, |input.bars|).Ok?
    ensures var st, out := Replay(input, |input.bars|).value, RunEngine(input).value;
            && out.orders
               == Sorting.Sort(ExpireRest(st.log.orders, input.intents, st.log.completed, |input.intents|),
                               EarlierOrder)
            && out.trades == st.book.trades && out.positions == st.book.positions
            && out.cashLedger == st.book.cashLedger
            && out.equityCurve == st.curve.equity && out.drawdownCurve == st.curve.drawdown
  {
  }
}
