/** The v1 checkpoint validators: a serialized state is believed only if its records
    can be recomputed from the input. They are separate from the engine and rebuild
    lots, orders, ledgers and curves each in its own way from the trade records. */
module Validator {
  import opened Checked
  import opened Events
  import opened Lots
  import opened Folds
  import opened Engine

  function Require(condition: bool): Result<()> {
    if condition then Ok(()) else Err(Inconsistent)
  }

  function IntentById(intents: seq<Intent>, id: Id): Option<Intent> {
    if intents == [] then None
    else if intents[0].id == id then Some(intents[0])
    else IntentById(intents[1..], id)
  }

  function BarBySession(bars: seq<Bar>, session: nat): Option<Bar> {
    if bars == [] then None
    else if bars[0].seqNo == session then Some(bars[0])
    else BarBySession(bars[1..], session)
  }

  function TradeById(trades: seq<TradeRecord>, id: Id): Option<TradeRecord> {
    if trades == [] then None
    else if trades[0].id == id then Some(trades[0])
    else TradeById(trades[1..], id)
  }

  function Found<T>(o: Option<T>): Result<T> {
    if o.Some? then Ok(o.value) else Err(Inconsistent)
  }

  // ---- sessions, lengths and final values ----

  function TradeSession(r: TradeRecord): nat { r.session }

  function PositionSession(r: PositionRecord): nat { r.session }

  function CashSession(r: CashRecord): nat { r.session }

  function FundingSession(r: FundingRecord): nat { r.session }

  function EquitySession(r: EquityPoint): nat { r.session }

  function DrawdownSession(r: DrawdownPoint): nat { r.session }

  predicate SessionsWithin<T>(records: seq<T>, sessionOf: T -> nat, last: Option<nat>) {
    records == [] || (last.Some? && forall i :: 0 <= i < |records| ==> sessionOf(records[i]) <= last.value)
  }

  predicate SessionsOrdered<T>(records: seq<T>, sessionOf: T -> nat) {
    forall i :: 0 <= i < |records| - 1 ==> sessionOf(records[i]) <= sessionOf(records[i + 1])
  }

  predicate GoodSessions<T>(records: seq<T>, sessionOf: T -> nat, last: Option<nat>) {
    SessionsWithin(records, sessionOf, last) && SessionsOrdered(records, sessionOf)
  }

  function LastQuantity(positions: seq<PositionRecord>): int {
    if positions == [] then 0 else positions[|positions| - 1].quantity
  }

  function LastCash(ledger: seq<CashRecord>, start: int): int {
    if ledger == [] then start else ledger[|ledger| - 1].resultingCash
  }

  function LastSession(bars: seq<Bar>): Option<nat> {
    if bars == [] then None else Some(bars[|bars| - 1].seqNo)
  }

  predicate ShapeChecks(input: Input, bars: seq<Bar>, st: State) {
    var b := st.book;
    var last := LastSession(bars);
    && GoodSessions(b.trades, TradeSession, last)
    && GoodSessions(b.positions, PositionSession, last)
    && GoodSessions(b.cashLedger, CashSession, last)
    && GoodSessions(b.fundingLedger, FundingSession, last)
    && GoodSessions(st.curve.equity, EquitySession, last)
    && GoodSessions(st.curve.drawdown, DrawdownSession, last)
    && |st.curve.equity| == |bars| == |st.curve.drawdown|
    && |st.log.orders| >= |b.trades|
    && LastQuantity(b.positions) == b.quantity
    && LastCash(b.cashLedger, input.account.startingBalance)
       == (if input.account.model == AShareCash then b.cash else b.wallet)
    && b.cash == b.wallet
  }

  // ---- trades and positions ----

  datatype TradeScan = TradeScan(
    quantity: int, longLots: seq<Lot>, shortLots: seq<Lot>, entry: Option<int>, seen: set<Id>)

  function ScanAShare(account: Account, session: nat, s: TradeScan, t: Intent): Result<TradeScan> {
    match (t.side, t.effect)
    case (Buy, Open) =>
      if s.quantity < 0 then Err(Inconsistent)
      else
        var quantity :- CheckedAdd(s.quantity, t.quantity);
        Ok(s.(quantity := quantity, longLots := s.longLots + [Lot(t.quantity, session)]))
    case (Sell, Close) =>
      if s.quantity <= 0 then Err(Inconsistent)
      else
        var lots :- Consume(s.longLots, t.quantity, session);
        var quantity :- CheckedSub(s.quantity, t.quantity);
        Ok(s.(quantity := quantity, longLots := lots))
    case (Sell, Open) =>
      if !account.allowShort || s.quantity > 0 then Err(Inconsistent)
      else
        var quantity :- CheckedSub(s.quantity, t.quantity);
        Ok(s.(quantity := quantity, shortLots := s.shortLots + [Lot(t.quantity, session)]))
    case (Buy, Close) =>
      if !account.allowShort || s.quantity >= 0 then Err(Inconsistent)
      else
        var lots :- Consume(s.shortLots, t.quantity, session);
        var quantity :- CheckedAdd(s.quantity, t.quantity);
        Ok(s.(quantity := quantity, shortLots := lots))
  }

  function ScanPerp(s: TradeScan, t: Intent, fill: Fill): Result<TradeScan> {
    match t.effect
    case Open =>
      if s.quantity != 0 then Err(Inconsistent)
      else Ok(s.(quantity := if t.side == Buy then t.quantity else -t.quantity, entry := Some(fill.price)))
    case Close =>
      if s.quantity != (if t.side == Sell then t.quantity else -t.quantity) || s.entry.None? then Err(Inconsistent)
      else Ok(s.(quantity := 0, entry := None))
  }

  function ScanMove(account: Account, session: nat, s: TradeScan, t: Intent, fill: Fill): Result<TradeScan> {
    if account.model == AShareCash then ScanAShare(account, session, s, t) else ScanPerp(s, t, fill)
  }

  function ScanEligible(account: Account, session: nat, s: TradeScan): Result<int> {
    if account.model == LinearPerp then Ok(0)
    else if s.quantity >= 0 then CheckedEligible(s.longLots, session, 0)
    else
      var eligible :- CheckedEligible(s.shortLots, session, 0);
      Ok(-eligible)
  }

  /** A trade of a live intent at a fill the bar allows, with the recomputed costs. */
  function CheckTrade(input: Input, bars: seq<Bar>, s: TradeScan, trade: TradeRecord,
      position: PositionRecord): Result<TradeScan> {
    if trade.id in s.seen || trade.tradeId != FillId(trade.id) then Err(Inconsistent)
    else
      var t :- Found(IntentById(input.intents, trade.id));
      var bar :- Found(BarBySession(bars, trade.session));
      if !Live(t, trade.session) then Err(Inconsistent)
      else
        var decision :- OrInconsistent(FillDecision(input.account, bar, t));
        var fill :- Found(decision);
        var c :- OrInconsistent(CostsOf(input.account, t, fill));
        if trade != TradeOf(t, bar.seqNo, fill, c) then Err(Inconsistent)
        else
          var moved :- OrInconsistent(ScanMove(input.account, bar.seqNo, s, t, fill));
          var eligible :- OrInconsistent(ScanEligible(input.account, bar.seqNo, moved));
          if position != PositionRecord(t.id, bar.seqNo, moved.quantity, eligible) then Err(Inconsistent)
          else Ok(moved.(seen := moved.seen + {trade.id}))
  }

  function TradeCheck(input: Input, bars: seq<Bar>): (TradeScan, (TradeRecord, PositionRecord)) -> Result<TradeScan> {
    (s: TradeScan, x: (TradeRecord, PositionRecord)) => CheckTrade(input, bars, s, x.0, x.1)
  }

  function Zip(trades: seq<TradeRecord>, positions: seq<PositionRecord>): (z: seq<(TradeRecord, PositionRecord)>)
    requires |trades| == |positions|
    ensures |z| == |trades| && forall i :: 0 <= i < |z| ==> z[i] == (trades[i], positions[i])
  {
    seq(|trades|, i requires 0 <= i < |trades| => (trades[i], positions[i]))
  }

  const EMPTY_SCAN := TradeScan(0, [], [], None, {})

  function ScanTrades(input: Input, bars: seq<Bar>, b: Book): Result<TradeScan>
    requires |b.trades| == |b.positions|
  {
    Fold(TradeCheck(input, bars), EMPTY_SCAN, Zip(b.trades, b.positions), 0, |b.trades|)
  }

  /** Adjacent trades of one session are not in reversed execution order. */
  predicate TradesInOrder(intents: seq<Intent>, trades: seq<TradeRecord>) {
    forall i :: 0 <= i < |trades| - 1 && trades[i].session == trades[i + 1].session ==>
      var left, right := IntentById(intents, trades[i].id), IntentById(intents, trades[i + 1].id);
      left.Some? && right.Some? && !ExecutesBefore(right.value, left.value)
  }

  function ValidateTrades(input: Input, bars: seq<Bar>, b: Book): Result<()> {
    if |b.positions| != |b.trades| || !TradesInOrder(input.intents, b.trades) then Err(Inconsistent)
    else
      var scan :- ScanTrades(input, bars, b);
      Require(input.account.model == LinearPerp ==> b.quantity == scan.quantity)
  }

  // ---- lots from the trade records alone ----

  datatype LotScan = LotScan(quantity: int, longLots: seq<Lot>, shortLots: seq<Lot>)

  function LotStep(account: Account, bars: seq<Bar>, s: LotScan, trade: TradeRecord): Result<LotScan> {
    if trade.quantity <= 0 then Err(Inconsistent)
    else
      var bar :- Found(BarBySession(bars, trade.session));
      match (trade.side, trade.effect)
      case (Buy, Open) =>
        if s.quantity < 0 then Err(Inconsistent)
        else
          var quantity :- OrInconsistent(CheckedAdd(s.quantity, trade.quantity));
          Ok(s.(quantity := quantity, longLots := s.longLots + [Lot(trade.quantity, bar.seqNo)]))
      case (Sell, Close) =>
        if s.quantity <= 0 then Err(Inconsistent)
        else
          var lots :- OrInconsistent(Consume(s.longLots, trade.quantity, bar.seqNo));
          var quantity :- OrInconsistent(CheckedSub(s.quantity, trade.quantity));
          Ok(s.(quantity := quantity, longLots := lots))
      case (Sell, Open) =>
        if !account.allowShort || s.quantity > 0 then Err(Inconsistent)
        else
          var quantity :- OrInconsistent(CheckedSub(s.quantity, trade.quantity));
          Ok(s.(quantity := quantity, shortLots := s.shortLots + [Lot(trade.quantity, bar.seqNo)]))
      case (Buy, Close) =>
        if !account.allowShort || s.quantity >= 0 then Err(Inconsistent)
        else
          var lots :- OrInconsistent(Consume(s.shortLots, trade.quantity, bar.seqNo));
          var quantity :- OrInconsistent(CheckedAdd(s.quantity, trade.quantity));
          Ok(s.(quantity := quantity, shortLots := lots))
  }

  function LotCheck(account: Account, bars: seq<Bar>): (LotScan, TradeRecord) -> Result<LotScan> {
    (s: LotScan, trade: TradeRecord) => LotStep(account, bars, s, trade)
  }

  function ReconstructLots(account: Account, bars: seq<Bar>, b: Book): Result<LotScan> {
    if account.model == LinearPerp then Ok(LotScan(b.quantity, [], []))
    else
      var scan :- Fold(LotCheck(account, bars), LotScan(0, [], []), b.trades, 0, |b.trades|);
      if scan.quantity != b.quantity then Err(Inconsistent) else Ok(scan)
  }

  function ValidateLots(account: Account, bars: seq<Bar>, b: Book): Result<()> {
    var scan :- ReconstructLots(account, bars, b);
    Require(scan.longLots == b.longLots && scan.shortLots == b.shortLots)
  }

  // ---- the order log ----

  datatype OrderScan = OrderScan(log: OrderLog, seen: set<Id>)

  /** A trade must exist exactly where the bar fills, in the session that fills it. */
  function ScanIntent(account: Account, bar: Bar, trades: seq<TradeRecord>, s: OrderScan,
      t: Intent): Result<OrderScan> {
    if OcoDone(s.log, t) then Ok(s.(log := LogUnfilled(s.log, t, Cancelled)))
    else
      var decision :- OrInconsistent(FillDecision(account, bar, t));
      match (TradeById(trades, t.id), decision)
      case (Some(trade), Some(fill)) =>
        if trade.session == bar.seqNo then Ok(OrderScan(LogFill(s.log, t, bar.seqNo, fill), s.seen + {trade.id}))
        else Err(Inconsistent)
      case (Some(_), None) => Err(Inconsistent)
      case (None, Some(_)) => Err(Inconsistent)
      case (None, None) =>
        Ok(if t.timeInForce == Day then s.(log := LogUnfilled(s.log, t, Expired)) else s)
  }

  function IntentCheck(account: Account, bar: Bar, trades: seq<TradeRecord>): (OrderScan, Intent) -> Result<OrderScan> {
    (s: OrderScan, t: Intent) => ScanIntent(account, bar, trades, s, t)
  }

  function ScanBar(input: Input, trades: seq<TradeRecord>, s: OrderScan, bar: Bar): Result<OrderScan> {
    var due := Schedule(input.intents, s.log.completed, bar.seqNo);
    Fold(IntentCheck(input.account, bar, trades), s, due, 0, |due|)
  }

  function BarCheck(input: Input, trades: seq<TradeRecord>): (OrderScan, Bar) -> Result<OrderScan> {
    (s: OrderScan, bar: Bar) => ScanBar(input, trades, s, bar)
  }

  const EMPTY_ORDER_SCAN := OrderScan(OrderLog([], {}, {}), {})

  predicate DistinctTrades(trades: seq<TradeRecord>) {
    forall i, j :: 0 <= i < j < |trades| ==> trades[i].id != trades[j].id
  }

  function ValidateOrders(input: Input, bars: seq<Bar>, st: State): Result<()> {
    var trades := st.book.trades;
    if !DistinctTrades(trades) then Err(Inconsistent)
    else
      var scan :- Fold(BarCheck(input, trades), EMPTY_ORDER_SCAN, bars, 0, |bars|);
      Require(|scan.seen| == |trades| && scan.log == st.log)
  }

  // ---- cash and funding ledgers ----

  datatype LedgerScan = LedgerScan(
    cash: int, quantity: int, entry: Option<int>,
    cashLedger: seq<CashRecord>, fundingLedger: seq<FundingRecord>, totalFunding: int)

  /** Notional delta, realized profit, and the position, of one trade. */
  function LedgerMove(account: Account, s: LedgerScan, trade: TradeRecord): Result<(int, int, int, Option<int>)> {
    if account.model == AShareCash then
      var delta :- if trade.side == Buy then CheckedSub(0, trade.notional) else Ok(trade.notional);
      var quantity :- if trade.side == Buy then CheckedAdd(s.quantity, trade.quantity)
                      else CheckedSub(s.quantity, trade.quantity);
      Ok((delta, 0, quantity, s.entry))
    else if trade.effect == Open then
      Ok((0, 0, if trade.side == Buy then trade.quantity else -trade.quantity, Some(trade.price)))
    else
      var entry :- Found(s.entry);
      var gain :- if trade.side == Sell then CheckedSub(trade.price, entry) else CheckedSub(entry, trade.price);
      var realized :- CheckedMul(gain, trade.quantity);
      Ok((0, realized, 0, None))
  }

  function LedgerTrade(account: Account, s: LedgerScan, trade: TradeRecord): Result<LedgerScan> {
    var m :- LedgerMove(account, s, trade);
    var fee :- CheckedSub(0, trade.fee);
    var afterFee :- CheckedAdd(m.0, fee);
    var duty :- CheckedSub(0, trade.stampDuty);
    var afterDuty :- CheckedAdd(afterFee, duty);
    var delta :- CheckedAdd(afterDuty, m.1);
    var cash :- CheckedAdd(s.cash, delta);
    Ok(s.(cash := cash, quantity := m.2, entry := m.3,
          cashLedger := s.cashLedger
            + [CashRecord(FromIntent(trade.id), trade.session, m.0, -trade.fee, -trade.stampDuty, m.1, 0, cash)]))
  }

  function LedgerFunding(account: Account, s: LedgerScan, event: FundingEvent): Result<LedgerScan> {
    if account.model != LinearPerp then Err(Inconsistent)
    else
      var cost :- FundingCost(account, s.quantity, event);
      var delta :- CheckedSub(0, cost);
      var cash :- CheckedAdd(s.cash, delta);
      var total :- CheckedAdd(s.totalFunding, cost);
      Ok(s.(cash := cash, totalFunding := total,
            cashLedger := s.cashLedger
              + [CashRecord(FromFunding(event.id), event.key.session, 0, 0, 0, 0, delta, cash)],
            fundingLedger := s.fundingLedger
              + [FundingRecord(event.id, event.key.session, s.quantity, event.rate, event.mark, delta, cash)]))
  }

  function TradesOf(trades: seq<TradeRecord>, session: nat): seq<TradeRecord> {
    if trades == [] then []
    else TradesOf(trades[..|trades| - 1], session)
         + if trades[|trades| - 1].session == session then [trades[|trades| - 1]] else []
  }

  function LedgerTradeStep(account: Account): (LedgerScan, TradeRecord) -> Result<LedgerScan> {
    (s: LedgerScan, trade: TradeRecord) => LedgerTrade(account, s, trade)
  }

  function LedgerFundingStep(account: Account): (LedgerScan, FundingEvent) -> Result<LedgerScan> {
    (s: LedgerScan, event: FundingEvent) => LedgerFunding(account, s, event)
  }

  function LedgerBar(input: Input, trades: seq<TradeRecord>, s: LedgerScan, bar: Bar): Result<LedgerScan> {
    var fills := TradesOf(trades, bar.seqNo);
    var traded :- Fold(LedgerTradeStep(input.account), s, fills, 0, |fills|);
    var events := FundingFor(input.funding, bar.seqNo);
    Fold(LedgerFundingStep(input.account), traded, events, 0, |events|)
  }

  function LedgerBarStep(input: Input, trades: seq<TradeRecord>): (LedgerScan, Bar) -> Result<LedgerScan> {
    (s: LedgerScan, bar: Bar) => LedgerBar(input, trades, s, bar)
  }

  function EmptyLedger(account: Account): LedgerScan {
    LedgerScan(account.startingBalance, 0, None, [], [], 0)
  }

  function ReconstructLedgers(input: Input, bars: seq<Bar>, trades: seq<TradeRecord>): Result<LedgerScan> {
    Fold(LedgerBarStep(input, trades), EmptyLedger(input.account), bars, 0, |bars|)
  }

  /** The ledger's own running cash. */
  function RunningCash(cash: int, r: CashRecord): Result<int> {
    var withFee :- CheckedAdd(r.notionalDelta, r.feeDelta);
    var withDuty :- CheckedAdd(withFee, r.stampDutyDelta);
    var other :- CheckedAdd(r.realizedDelta, r.fundingDelta);
    var delta :- CheckedAdd(withDuty, other);
    var next :- CheckedAdd(cash, delta);
    if r.resultingCash != next then Err(Inconsistent) else Ok(next)
  }

  function ValidateLedgers(input: Input, bars: seq<Bar>, b: Book): Result<()> {
    var scan :- ReconstructLedgers(input, bars, b.trades);
    if scan.cashLedger != b.cashLedger || scan.fundingLedger != b.fundingLedger || scan.totalFunding != b.totalFunding
    then Err(Inconsistent)
    else
      var cash :- Fold(RunningCash, input.account.startingBalance, b.cashLedger, 0, |b.cashLedger|);
      Require(cash == b.cash)
  }

  // ---- totals, counters and extremes ----

  function AddFee(total: int, trade: TradeRecord): Result<int> { CheckedAdd(total, trade.fee) }

  function AddStampDuty(total: int, trade: TradeRecord): Result<int> { CheckedAdd(total, trade.stampDuty) }

  function AddSlippage(total: int, trade: TradeRecord): Result<int> { CheckedAdd(total, trade.slippage) }

  function AddFunding(total: int, r: FundingRecord): Result<int> { CheckedAdd(total, -r.walletDelta) }

  function ValidateTotals(b: Book): Result<()> {
    var fees :- Fold(AddFee, 0, b.trades, 0, |b.trades|);
    var stampDuty :- Fold(AddStampDuty, 0, b.trades, 0, |b.trades|);
    var slippage :- Fold(AddSlippage, 0, b.trades, 0, |b.trades|);
    var funding :- Fold(AddFunding, 0, b.fundingLedger, 0, |b.fundingLedger|);
    Require(fees == b.totalFees && stampDuty == b.totalStampDuty
            && slippage == b.totalSlippage && funding == b.totalFunding)
  }

  /** Positions that went flat. */
  function Flattened(positions: seq<PositionRecord>): nat {
    if |positions| < 2 then 0
    else Flattened(positions[..|positions| - 1])
         + if positions[|positions| - 2].quantity != 0 && positions[|positions| - 1].quantity == 0 then 1 else 0
  }

  function LowestDrawdown(points: seq<DrawdownPoint>): int
    requires points != []
  {
    if |points| == 1 then points[0].drawdown
    else Min(LowestDrawdown(points[..|points| - 1]), points[|points| - 1].drawdown)
  }

  function LowestRate(points: seq<DrawdownPoint>): int
    requires points != []
  {
    if |points| == 1 then points[0].rate
    else Min(LowestRate(points[..|points| - 1]), points[|points| - 1].rate)
  }

  predicate ExtremeChecks(account: Account, st: State) {
    var points, c := st.curve.drawdown, st.curve;
    && Flattened(st.book.positions) == st.book.closedCount
    && (if points == [] then c.peak == account.startingBalance && c.maxDrawdown == 0 && c.maxDrawdownRate == 0
        else c.peak == points[|points| - 1].peak
             && c.maxDrawdown == LowestDrawdown(points) && c.maxDrawdownRate == LowestRate(points))
  }

  // ---- sets, entry price and lots ----

  function OrderIds(orders: seq<OrderRecord>): set<Id> {
    set i | 0 <= i < |orders| :: orders[i].id
  }

  function GroupsOf(intents: seq<Intent>, trades: seq<TradeRecord>): set<Group> {
    if trades == [] then {}
    else
      var t := IntentById(intents, trades[|trades| - 1].id);
      GroupsOf(intents, trades[..|trades| - 1])
      + if t.Some? && t.value.oco.Some? then {t.value.oco.value} else {}
  }

  function LastOpenPrice(trades: seq<TradeRecord>): Option<int> {
    if trades == [] then None
    else if trades[|trades| - 1].effect == Open then Some(trades[|trades| - 1].price)
    else LastOpenPrice(trades[..|trades| - 1])
  }

  predicate SetChecks(input: Input, st: State) {
    && |OrderIds(st.log.orders)| == |st.log.orders|
    && OrderIds(st.log.orders) == st.log.completed
    && (forall id | id in st.log.completed :: IntentById(input.intents, id).Some?)
    && GroupsOf(input.intents, st.book.trades) == st.log.filledOco
    && st.book.entry == (if input.account.model == AShareCash || st.book.quantity == 0 then None
                         else LastOpenPrice(st.book.trades))
  }

  function PositiveTotal(total: int, lot: Lot): Result<int> {
    if lot.quantity <= 0 then Err(Inconsistent) else CheckedAdd(total, lot.quantity)
  }

  function ValidateHoldings(account: Account, b: Book): Result<()> {
    var long :- Fold(PositiveTotal, 0, b.longLots, 0, |b.longLots|);
    var short :- Fold(PositiveTotal, 0, b.shortLots, 0, |b.shortLots|);
    Require(account.model == AShareCash ==> if b.quantity >= 0 then long == b.quantity else short == -b.quantity)
  }

  // ---- the curves ----

  /** The last records at or before a session. */
  function QuantityAt(positions: seq<PositionRecord>, session: nat): int {
    if positions == [] then 0
    else if positions[|positions| - 1].session <= session then positions[|positions| - 1].quantity
    else QuantityAt(positions[..|positions| - 1], session)
  }

  function CashAt(ledger: seq<CashRecord>, start: int, session: nat): int {
    if ledger == [] then start
    else if ledger[|ledger| - 1].session <= session then ledger[|ledger| - 1].resultingCash
    else CashAt(ledger[..|ledger| - 1], start, session)
  }

  function EntryAt(trades: seq<TradeRecord>, session: nat): Option<int> {
    if trades == [] then None
    else if trades[|trades| - 1].session <= session
    then (if trades[|trades| - 1].effect == Open then Some(trades[|trades| - 1].price) else None)
    else EntryAt(trades[..|trades| - 1], session)
  }

  /** The points of one bar, from the records and the peak so far. */
  function ExpectedPoints(account: Account, b: Book, bar: Bar, peak: int): Result<(EquityPoint, DrawdownPoint)> {
    var quantity := QuantityAt(b.positions, bar.seqNo);
    var cash := CashAt(b.cashLedger, account.startingBalance, bar.seqNo);
    var marked :- if account.model == LinearPerp
                  then UnrealizedPnl(quantity, EntryAt(b.trades, bar.seqNo), bar.close)
                  else CheckedMul(quantity, bar.close);
    var equity :- CheckedAdd(cash, marked);
    var newPeak := Max(peak, equity);
    var drawdown :- CheckedSub(equity, newPeak);
    var numerator :- CheckedMul(drawdown, account.rateScale);
    var rate :- CheckedDiv(numerator, newPeak);
    Ok((EquityPoint(bar.seqNo, bar.timestamp, bar.close, cash, quantity, equity),
        DrawdownPoint(bar.seqNo, equity, newPeak, drawdown, rate)))
  }

  function CheckPoints(account: Account, b: Book, peak: int, x: (Bar, (EquityPoint, DrawdownPoint))): Result<int> {
    var expected :- OrInconsistent(ExpectedPoints(account, b, x.0, peak));
    if x.1 != expected then Err(Inconsistent) else Ok(expected.1.peak)
  }

  function PointCheck(account: Account, b: Book): (int, (Bar, (EquityPoint, DrawdownPoint))) -> Result<int> {
    (peak: int, x: (Bar, (EquityPoint, DrawdownPoint))) => CheckPoints(account, b, peak, x)
  }

  function ZipPoints(bars: seq<Bar>, c: Curve): (z: seq<(Bar, (EquityPoint, DrawdownPoint))>)
    requires |bars| <= |c.equity| && |bars| <= |c.drawdown|
    ensures |z| == |bars|
    ensures forall i :: 0 <= i < |z| ==> z[i] == (bars[i], (c.equity[i], c.drawdown[i]))
  {
    seq(|bars|, i requires 0 <= i < |bars| => (bars[i], (c.equity[i], c.drawdown[i])))
  }

  function ValidateCurves(account: Account, bars: seq<Bar>, st: State): Result<()> {
    if |bars| > |st.curve.equity| || |bars| > |st.curve.drawdown| then Err(Inconsistent)
    else
      var peak :- Fold(PointCheck(account, st.book), account.startingBalance, ZipPoints(bars, st.curve), 0, |bars|);
      Ok(())
  }

  // ---- all of it ----

  function ValidateState(input: Input, cursor: nat, st: State): Result<()> {
    if cursor > |input.bars| then Err(Inconsistent)
    else
      var bars := input.bars[..cursor];
      var shape :- Require(ShapeChecks(input, bars, st));
      var trades :- ValidateTrades(input, bars, st.book);
      var lots :- ValidateLots(input.account, bars, st.book);
      var orders :- ValidateOrders(input, bars, st);
      var ledgers :- ValidateLedgers(input, bars, st.book);
      var totals :- ValidateTotals(st.book);
      var extremes :- Require(ExtremeChecks(input.account, st));
      var sets :- Require(SetChecks(input, st));
      var holdings :- ValidateHoldings(input.account, st.book);
      ValidateCurves(input.account, bars, st)
  }
}
