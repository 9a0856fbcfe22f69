/** The second implementation of the v1 engine: the one-shot runs, which keep their
    state in local variables and never serialize it. They have no wallet on A-share
    accounts and no lots on perpetual ones. */
module OneShot {
  import opened Checked
  import opened Events
  import opened Lots
  import opened Folds
  import opened Engine
  import Sorting

  /** The A-share run's variables for money, position and ledgers. */
  datatype AShareVars = AShareVars(
    cash: int, quantity: int, lots: seq<Lot>, shortLots: seq<Lot>,
    trades: seq<TradeRecord>, positions: seq<PositionRecord>, cashLedger: seq<CashRecord>,
    totalFees: int, totalStampDuty: int, totalSlippage: int, closedCount: nat)

  datatype PerpVars = PerpVars(
    wallet: int, quantity: int, entry: Option<int>,
    trades: seq<TradeRecord>, positions: seq<PositionRecord>, cashLedger: seq<CashRecord>,
    fundingLedger: seq<FundingRecord>,
    totalFees: int, totalFunding: int, totalSlippage: int, closedCount: nat)

  /** The book these variables stand for; `stale` is the wallet of the previous bar. */
  ghost function AShareBook(v: AShareVars, stale: int): Book {
    Book(v.cash, stale, v.quantity, None, v.lots, v.shortLots, v.trades, v.positions, v.cashLedger, [],
         v.totalFees, v.totalStampDuty, 0, v.totalSlippage, v.closedCount)
  }

  ghost function PerpBook(v: PerpVars): Book {
    Book(v.wallet, v.wallet, v.quantity, v.entry, [], [], v.trades, v.positions, v.cashLedger, v.fundingLedger,
         v.totalFees, 0, v.totalFunding, v.totalSlippage, v.closedCount)
  }

  // ---- A-share ----

  ghost predicate AShareAgrees(r: Result<AShareVars>, expected: Result<Book>, stale: int) {
    match expected
    case Err(e) => r == Err(e)
    case Ok(b) => r.Ok? && AShareBook(r.value, stale) == b
  }

  method AShareRecord(session: nat, v: AShareVars, t: Intent, fill: Fill, c: Costs,
      notionalDelta: int, ghost account: Account, ghost stale: int)
    returns (r: Result<AShareVars>)
    requires account.model == AShareCash
    ensures AShareAgrees(r, RecordFill(account, session, AShareBook(v, stale), t, fill, c, notionalDelta, 0), stale)
  {
    var fees :- CheckedAdd(v.totalFees, c.fee);
    var stampDuty :- CheckedAdd(v.totalStampDuty, c.stampDuty);
    var slippage :- CheckedAdd(v.totalSlippage, c.slippage);
    var eligible :- CheckedEligible(if v.quantity >= 0 then v.lots else v.shortLots, session, 0);
    if v.quantity < 0 { eligible := -eligible; }
    return Ok(v.(totalFees := fees, totalStampDuty := stampDuty, totalSlippage := slippage,
                 trades := v.trades + [TradeOf(t, session, fill, c)],
                 positions := v.positions + [PositionRecord(t.id, session, v.quantity, eligible)],
                 cashLedger := v.cashLedger + [FillCashRecord(t, session, c, notionalDelta, 0, v.cash)]));
  }

  ghost predicate MovedTo(r: Result<AShareVars>, v: AShareVars, expected: Result<Move>)
  {
    match expected
    case Err(e) => r == Err(e)
    case Ok(m) => r == Ok(v.(cash := m.cash, quantity := m.quantity, lots := m.longLots, shortLots := m.shortLots,
                             closedCount := v.closedCount + if m.closes then 1 else 0))
  }

  method AShareTrade(account: Account, session: nat, v: AShareVars, t: Intent, c: Costs, ghost stale: int)
      returns (r: Result<AShareVars>)
    ensures MovedTo(r, v, AShareMove(account, session, AShareBook(v, stale), t, c))
  {
    var next := v;
    if t.side == Buy && t.effect == Open {
      if v.quantity < 0 { return Err(CrossesPosition); }
      var debit :- CheckedAdd(c.notional, c.fee);
      var cash :- CheckedSub(v.cash, debit);
      var quantity :- CheckedAdd(v.quantity, t.quantity);
      next := v.(cash := cash, quantity := quantity, lots := v.lots + [Lot(t.quantity, session)]);
    } else if t.side == Sell && t.effect == Close {
      if v.quantity <= 0 { return Err(CrossesPosition); }
      var left := ConsumeEligibleLots(v.lots, t.quantity, session);
      if left.Err? { return Err(left.error); }
      var quantity :- CheckedSub(v.quantity, t.quantity);
      var costs :- CheckedAdd(c.fee, c.stampDuty);
      var proceeds :- CheckedSub(c.notional, costs);
      var cash :- CheckedAdd(v.cash, proceeds);
      next := v.(cash := cash, quantity := quantity, lots := left.value,
                 closedCount := v.closedCount + if quantity == 0 then 1 else 0);
    } else if t.side == Sell && t.effect == Open && account.allowShort {
      if v.quantity > 0 { return Err(CrossesPosition); }
      var quantity :- CheckedSub(v.quantity, t.quantity);
      var costs :- CheckedAdd(c.fee, c.stampDuty);
      var proceeds :- CheckedSub(c.notional, costs);
      var cash :- CheckedAdd(v.cash, proceeds);
      next := v.(cash := cash, quantity := quantity, shortLots := v.shortLots + [Lot(t.quantity, session)]);
    } else if t.side == Buy && t.effect == Close && account.allowShort {
      if v.quantity >= 0 { return Err(CrossesPosition); }
      var left := ConsumeEligibleLots(v.shortLots, t.quantity, session);
      if left.Err? { return Err(left.error); }
      var quantity :- CheckedAdd(v.quantity, t.quantity);
      var debit :- CheckedAdd(c.notional, c.fee);
      var cash :- CheckedSub(v.cash, debit);
      next := v.(cash := cash, quantity := quantity, shortLots := left.value,
                 closedCount := v.closedCount + if quantity == 0 then 1 else 0);
    } else {
      return Err(Unsupported);
    }
    return Ok(next);
  }

  method AShareFill(account: Account, session: nat, v: AShareVars, t: Intent, fill: Fill, ghost stale: int)
      returns (r: Result<AShareVars>)
    requires account.model == AShareCash
    ensures AShareAgrees(r, BookFill(account, session, AShareBook(v, stale), t, fill), stale)
  {
    var c :- CostsOf(account, t, fill);
    var moved := AShareTrade(account, session, v, t, c, stale);
    if moved.Err? { return moved; }
    r := AShareRecord(session, moved.value, t, fill, c, if t.side == Buy then -c.notional else c.notional, account,
                      stale);
  }

  /** The loop over the intents of a bar. */
  method AShareIntents(input: Input, bar: Bar, log0: OrderLog, v0: AShareVars, ghost curve: Curve)
    returns (r: Result<(OrderLog, AShareVars)>)
    requires input.account.model == AShareCash
    ensures var due := Schedule(input.intents, log0.completed, bar.seqNo);
            match ProcessIntents(input.account, bar, State(log0, AShareBook(v0, v0.cash), curve), due, |due|)
            case Err(e) => r == Err(e)
            case Ok(st) => r.Ok? && st == State(r.value.0, AShareBook(r.value.1, v0.cash), curve)
  {
    var log, v := log0, v0;
    ghost var start := State(log0, AShareBook(v0, v0.cash), curve);
    var due := Schedule(input.intents, log.completed, bar.seqNo);
    for i := 0 to |due|
      invariant ProcessIntents(input.account, bar, start, due, i) == Ok(State(log, AShareBook(v, v0.cash), curve))
    {
      if ProcessIntents(input.account, bar, start, due, i + 1).Err? {
        FoldStops(IntentStep(input.account, bar), start, due, 0, i + 1, |due|);
      }
      var t := due[i];
      if t.oco.Some? && t.oco.value in log.filledOco {
        log := LogUnfilled(log, t, Cancelled);
      } else {
        var decision :- FillDecision(input.account, bar, t);
        if decision.None? {
          if t.timeInForce == Day { log := LogUnfilled(log, t, Expired); }
        } else {
          var filled := AShareFill(input.account, bar.seqNo, v, t, decision.value, v0.cash);
          if filled.Err? { return Err(filled.error); }
          v := filled.value;
          log := LogFill(log, t, bar.seqNo, decision.value);
        }
      }
    }
    return Ok((log, v));
  }

  method MarkAShare(account: Account, bar: Bar, v: AShareVars, c: Curve, ghost stale: int) returns (r: Result<Curve>)
    requires account.model == AShareCash
    ensures r == MarkCurve(account, bar, AShareBook(v, stale), c)
  {
    var marked :- CheckedMul(v.quantity, bar.close);
    var equity :- CheckedAdd(v.cash, marked);
    var peak := Max(c.peak, equity);
    var drawdown :- CheckedSub(equity, peak);
    var numerator :- CheckedMul(drawdown, account.rateScale);
    var rate :- CheckedDiv(numerator, peak);
    return Ok(Curve(
      c.equity + [EquityPoint(bar.seqNo, bar.timestamp, bar.close, v.cash, v.quantity, equity)],
      c.drawdown + [DrawdownPoint(bar.seqNo, equity, peak, drawdown, rate)],
      peak, Min(c.maxDrawdown, drawdown), Min(c.maxDrawdownRate, rate)));
  }

  /** The body of the loop over the bars. */
  method AShareBar(input: Input, bar: Bar, log0: OrderLog, v0: AShareVars, c0: Curve)
    returns (r: Result<(OrderLog, AShareVars, Curve)>)
    requires input.account.model == AShareCash
    ensures match ProcessBar(input, bar, State(log0, AShareBook(v0, v0.cash), c0))
            case Err(e) => r == Err(e)
            case Ok(st) => r.Ok? && st == State(r.value.0, AShareBook(r.value.1, r.value.1.cash), r.value.2)
  {
    var traded := AShareIntents(input, bar, log0, v0, c0);
    if traded.Err? { return Err(traded.error); }
    var marked := MarkAShare(input.account, bar, traded.value.1, c0, v0.cash);
    if marked.Err? { return Err(marked.error); }
    return Ok((traded.value.0, traded.value.1, marked.value));
  }

  method RunAShareCash(input: Input) returns (r: Result<Output>)
    requires input.account.model == AShareCash
    ensures r == RunEngine(input)
  {
    if !ValidInput(input) { return Err(InvalidInput); }
    var account, balance := input.account, input.account.startingBalance;
    var log := OrderLog([], {}, {});
    var v := AShareVars(balance, 0, [], [], [], [], [], 0, 0, 0, 0);
    var curve := Curve([], [], balance, 0, 0);
    for i := 0 to |input.bars|
      invariant Replay(input, i) == Ok(State(log, AShareBook(v, v.cash), curve))
    {
      if Replay(input, i + 1).Err? {
        FoldStops(BarStep(input), InitialState(account), input.bars, 0, i + 1, |input.bars|);
      }
      var next := AShareBar(input, input.bars[i], log, v, curve);
      if next.Err? { return Err(next.error); }
      log, v, curve := next.value.0, next.value.1, next.value.2;
    }
    r := FinishAShare(input, log, v, curve);
  }

  method FinishAShare(input: Input, log: OrderLog, v: AShareVars, curve: Curve) returns (r: Result<Output>)
    requires input.account.model == AShareCash
    ensures r == Finish(input, State(log, AShareBook(v, v.cash), curve))
  {
    var account, balance := input.account, input.account.startingBalance;
    var orders := ExpireLocals(log, input.intents);
    var ending := if curve.equity == [] then balance else curve.equity[|curve.equity| - 1].equity;
    var netPnl :- CheckedSub(ending, balance);
    var numerator :- CheckedMul(netPnl, account.rateScale);
    var totalReturn :- CheckedDiv(numerator, balance);
    return Ok(Output(AShareCash, Sorting.Sort(orders, EarlierOrder), v.trades, v.positions, v.cashLedger, [],
                     curve.equity, curve.drawdown,
                     Metrics(balance, ending, netPnl, totalReturn, curve.maxDrawdown, curve.maxDrawdownRate,
                             v.totalFees, v.totalStampDuty, 0, v.totalSlippage, |v.trades|, v.closedCount,
                             if v.quantity != 0 then 1 else 0)));
  }

  /** The expiry records pushed after the last bar. */
  method ExpireLocals(log: OrderLog, intents: seq<Intent>) returns (orders: seq<OrderRecord>)
    ensures orders == ExpireRest(log.orders, intents, log.completed, |intents|)
  {
    orders := log.orders;
    for i := 0 to |intents|
      invariant orders == ExpireRest(log.orders, intents, log.completed, i)
    {
      if intents[i].id !in log.completed { orders := orders + [OrderOf(intents[i], Expired, None, None)]; }
    }
  }

  // ---- perpetual ----

  ghost predicate PerpAgrees(r: Result<PerpVars>, expected: Result<Book>) {
    match expected
    case Err(e) => r == Err(e)
    case Ok(b) => r.Ok? && PerpBook(r.value) == b
  }

  method PerpTrade(v: PerpVars, t: Intent, fill: Fill, c: Costs) returns (r: Result<(PerpVars, int)>)
    ensures match PerpMove(PerpBook(v), t, fill, c)
            case Err(e) => r == Err(e)
            case Ok(m) => r == Ok((v.(wallet := m.cash, quantity := m.quantity, entry := m.entry,
                                      closedCount := v.closedCount + if m.closes then 1 else 0), m.realized))
  {
    var realized := 0;
    var quantity, entry, closed := 0, None, v.closedCount;
    if t.effect == Open {
      if v.quantity != 0 { return Err(NotFlat); }
      var need :- CheckedAdd(c.notional, c.fee);
      if need > v.wallet { return Err(OneXCap); }
      quantity := if t.side == Buy then t.quantity else -t.quantity;
      entry := Some(fill.price);
    } else {
      if v.quantity != (if t.side == Sell then t.quantity else -t.quantity) { return Err(CrossesPosition); }
      var price :- Unwrap(v.entry);
      var gain :- if t.side == Sell then CheckedSub(fill.price, price) else CheckedSub(price, fill.price);
      realized :- CheckedMul(gain, t.quantity);
      closed := closed + 1;
    }
    var gross :- CheckedAdd(v.wallet, realized);
    var wallet :- CheckedSub(gross, c.fee);
    return Ok((v.(wallet := wallet, quantity := quantity, entry := entry, closedCount := closed), realized));
  }

  method PerpFill(account: Account, session: nat, v: PerpVars, t: Intent, fill: Fill) returns (r: Result<PerpVars>)
    requires account.model == LinearPerp
    ensures PerpAgrees(r, BookFill(account, session, PerpBook(v), t, fill))
  {
    var c :- CostsOf(account, t, fill);
    var traded := PerpTrade(v, t, fill, c);
    if traded.Err? { return Err(traded.error); }
    var next, realized := traded.value.0, traded.value.1;
    var fees :- CheckedAdd(next.totalFees, c.fee);
    var slippage :- CheckedAdd(next.totalSlippage, c.slippage);
    return Ok(next.(totalFees := fees, totalSlippage := slippage,
                    trades := next.trades + [TradeOf(t, session, fill, c)],
                    positions := next.positions + [PositionRecord(t.id, session, next.quantity, 0)],
                    cashLedger := next.cashLedger + [FillCashRecord(t, session, c, 0, realized, next.wallet)]));
  }

  method PerpIntents(input: Input, bar: Bar, log0: OrderLog, v0: PerpVars, ghost curve: Curve)
    returns (r: Result<(OrderLog, PerpVars)>)
    requires input.account.model == LinearPerp
    ensures var due := Schedule(input.intents, log0.completed, bar.seqNo);
            match ProcessIntents(input.account, bar, State(log0, PerpBook(v0), curve), due, |due|)
            case Err(e) => r == Err(e)
            case Ok(st) => r.Ok? && st == State(r.value.0, PerpBook(r.value.1), curve)
  {
    var log, v := log0, v0;
    ghost var start := State(log0, PerpBook(v0), curve);
    var due := Schedule(input.intents, log.completed, bar.seqNo);
    for i := 0 to |due|
      invariant ProcessIntents(input.account, bar, start, due, i) == Ok(State(log, PerpBook(v), curve))
    {
      if ProcessIntents(input.account, bar, start, due, i + 1).Err? {
        FoldStops(IntentStep(input.account, bar), start, due, 0, i + 1, |due|);
      }
      var t := due[i];
      if t.oco.Some? && t.oco.value in log.filledOco {
        log := LogUnfilled(log, t, Cancelled);
      } else {
        var decision :- FillDecision(input.account, bar, t);
        if decision.None? {
          if t.timeInForce == Day { log := LogUnfilled(log, t, Expired); }
        } else {
          var filled := PerpFill(input.account, bar.seqNo, v, t, decision.value);
          if filled.Err? { return Err(filled.error); }
          v := filled.value;
          log := LogFill(log, t, bar.seqNo, decision.value);
        }
      }
    }
    return Ok((log, v));
  }

  method PerpFundings(account: Account, session: nat, funding: seq<FundingEvent>, v0: PerpVars)
      returns (r: Result<PerpVars>)
    requires account.model == LinearPerp
    ensures var events := FundingFor(funding, session);
            PerpAgrees(r, BookFundings(account, PerpBook(v0), events, |events|))
  {
    var v := v0;
    var events := FundingFor(funding, session);
    for i := 0 to |events|
      invariant BookFundings(account, PerpBook(v0), events, i) == Ok(PerpBook(v))
    {
      if BookFundings(account, PerpBook(v0), events, i + 1).Err? {
        FoldStops(FundingStep(account), PerpBook(v0), events, 0, i + 1, |events|);
      }
      var event := events[i];
      var cost :- FundingCost(account, v.quantity, event);
      var delta :- CheckedSub(0, cost);
      var wallet :- CheckedAdd(v.wallet, delta);
      var total :- CheckedAdd(v.totalFunding, cost);
      v := v.(wallet := wallet, totalFunding := total,
              cashLedger := v.cashLedger
                + [CashRecord(FromFunding(event.id), event.key.session, 0, 0, 0, 0, delta, wallet)],
              fundingLedger := v.fundingLedger
                + [FundingRecord(event.id, event.key.session, v.quantity, event.rate, event.mark, delta, wallet)]);
    }
    return Ok(v);
  }

  method MarkPerp(account: Account, bar: Bar, v: PerpVars, c: Curve) returns (r: Result<Curve>)
    requires account.model == LinearPerp
    ensures r == MarkCurve(account, bar, PerpBook(v), c)
  {
    var unrealized :- UnrealizedPnl(v.quantity, v.entry, bar.close);
    var equity :- CheckedAdd(v.wallet, unrealized);
    var peak := Max(c.peak, equity);
    var drawdown :- CheckedSub(equity, peak);
    var numerator :- CheckedMul(drawdown, account.rateScale);
    var rate :- CheckedDiv(numerator, peak);
    return Ok(Curve(
      c.equity + [EquityPoint(bar.seqNo, bar.timestamp, bar.close, v.wallet, v.quantity, equity)],
      c.drawdown + [DrawdownPoint(bar.seqNo, equity, peak, drawdown, rate)],
      peak, Min(c.maxDrawdown, drawdown), Min(c.maxDrawdownRate, rate)));
  }

  method PerpBar(input: Input, bar: Bar, log0: OrderLog, v0: PerpVars, c0: Curve)
    returns (r: Result<(OrderLog, PerpVars, Curve)>)
    requires input.account.model == LinearPerp
    ensures match ProcessBar(input, bar, State(log0, PerpBook(v0), c0))
            case Err(e) => r == Err(e)
            case Ok(st) => r.Ok? && st == State(r.value.0, PerpBook(r.value.1), r.value.2)
  {
    var traded := PerpIntents(input, bar, log0, v0, c0);
    if traded.Err? { return Err(traded.error); }
    var funded := PerpFundings(input.account, bar.seqNo, input.funding, traded.value.1);
    if funded.Err? { return Err(funded.error); }
    var marked := MarkPerp(input.account, bar, funded.value, c0);
    if marked.Err? { return Err(marked.error); }
    return Ok((traded.value.0, funded.value, marked.value));
  }

  method RunCryptoLinearPerp(input: Input) returns (r: Result<Output>)
    requires input.account.model == LinearPerp
    ensures r == RunEngine(input)
  {
    if !ValidInput(input) { return Err(InvalidInput); }
    var account, balance := input.account, input.account.startingBalance;
    var log := OrderLog([], {}, {});
    var v := PerpVars(balance, 0, None, [], [], [], [], 0, 0, 0, 0);
    var curve := Curve([], [], balance, 0, 0);
    for i := 0 to |input.bars|
      invariant Replay(input, i) == Ok(State(log, PerpBook(v), curve))
    {
      if Replay(input, i + 1).Err? {
        FoldStops(BarStep(input), InitialState(account), input.bars, 0, i + 1, |input.bars|);
      }
      var next := PerpBar(input, input.bars[i], log, v, curve);
      if next.Err? { return Err(next.error); }
      log, v, curve := next.value.0, next.value.1, next.value.2;
    }
    var orders := ExpireLocals(log, input.intents);
    var ending := if curve.equity == [] then balance else curve.equity[|curve.equity| - 1].equity;
    var netPnl :- CheckedSub(ending, balance);
    var numerator :- CheckedMul(netPnl, account.rateScale);
    var totalReturn :- CheckedDiv(numerator, balance);
    return Ok(Output(LinearPerp, Sorting.Sort(orders, EarlierOrder), v.trades, v.positions, v.cashLedger,
                     v.fundingLedger, curve.equity, curve.drawdown,
                     Metrics(balance, ending, netPnl, totalReturn, curve.maxDrawdown, curve.maxDrawdownRate,
                             v.totalFees, 0, v.totalFunding, v.totalSlippage, |v.trades|, v.closedCount,
                             if v.quantity != 0 then 1 else 0)));
  }
}
