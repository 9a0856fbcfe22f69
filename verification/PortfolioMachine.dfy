/** The v2 engine as the program runs it: an object whose fields one session after
    another updates in place. Each method is tied to the session function it computes. */
module PortfolioMachine {
  import opened Checked
  import opened Events
  import opened Lots
  import opened Folds
  import opened Portfolio

  class PortfolioState {
    var cash: int
    var lotsBySymbol: map<Symbol, seq<Lot>>
    var completed: set<Id>
    var orders: seq<OrderRecord>
    var trades: seq<TradeRecord>
    var positions: seq<PositionRecord>
    var cashLedger: seq<CashRecord>
    var equityCurve: seq<EquityPoint>
    var drawdownCurve: seq<DrawdownPoint>
    var peak: int
    var maxDrawdown: int
    var maxDrawdownRate: int
    var totalFees: int
    var totalStampDuty: int
    var totalSlippage: int
    var closedCount: nat

    ghost function View(): State
      reads this
    {
      State(cash, lotsBySymbol, completed, orders, trades, positions, cashLedger,
            equityCurve, drawdownCurve, peak, maxDrawdown, maxDrawdownRate,
            totalFees, totalStampDuty, totalSlippage, closedCount)
    }

    constructor (account: Account)
      ensures View() == InitialState(account)
    {
      cash := account.startingBalance;
      lotsBySymbol := map s | s in account.symbols :: [];
      completed := {};
      orders, trades, positions, cashLedger := [], [], [], [];
      equityCurve, drawdownCurve := [], [];
      peak := account.startingBalance;
      maxDrawdown, maxDrawdownRate := 0, 0;
      totalFees, totalStampDuty, totalSlippage := 0, 0, 0;
      closedCount := 0;
    }

    /** A state read back from a checkpoint. */
    constructor FromCheckpoint(st: State)
      ensures View() == st
    {
      cash, lotsBySymbol, completed := st.cash, st.lots, st.completed;
      orders, trades, positions := st.orders, st.trades, st.positions;
      cashLedger, equityCurve, drawdownCurve := st.cashLedger, st.equityCurve, st.drawdownCurve;
      peak, maxDrawdown, maxDrawdownRate := st.peak, st.maxDrawdown, st.maxDrawdownRate;
      totalFees, totalStampDuty, totalSlippage := st.totalFees, st.totalStampDuty, st.totalSlippage;
      closedCount := st.closedCount;
    }

    /** The serialized form of the fields. */
    method ToCheckpoint() returns (st: State)
      ensures st == View()
    {
      st := State(cash, lotsBySymbol, completed, orders, trades, positions, cashLedger,
                  equityCurve, drawdownCurve, peak, maxDrawdown, maxDrawdownRate,
                  totalFees, totalStampDuty, totalSlippage, closedCount);
    }

    method ConsumeEligible(symbol: Symbol, quantity: int, session: int) returns (r: Result<()>)
      modifies this`lotsBySymbol
      ensures match LotsOf(old(lotsBySymbol), symbol)
              case Err(e) => r == Err(e)
              case Ok(held) =>
                match Consume(held, quantity, session)
                case Err(e) => r == Err(e) && lotsBySymbol == old(lotsBySymbol)
                case Ok(left) => r == Ok(()) && lotsBySymbol == old(lotsBySymbol)[symbol := left]
    {
      if symbol !in lotsBySymbol { return Err(Panic); }
      var left := ConsumeEligibleLots(lotsBySymbol[symbol], quantity, session);
      if left.Err? { return Err(left.error); }
      lotsBySymbol := lotsBySymbol[symbol := left.value];
      return Ok(());
    }

    method RecordExpired(t: Intent)
      modifies this`orders, this`completed
      ensures View() == ExpireIntent(old(View()), t)
    {
      orders := orders + [OrderOf(t, Expired, None)];
      completed := completed + {t.id};
    }

    /** Cash, lots and the closed-trade counter after a fill. */
    method SettleFill(session: nat, t: Intent, q: Quote) returns (r: Result<()>)
      modifies this`cash, this`lotsBySymbol, this`closedCount
      ensures match Settle(old(View()), session, t, q)
              case Err(e) => r == Err(e)
              case Ok(s) => r == Ok(()) && cash == s.cash && lotsBySymbol == s.lots && closedCount == s.closedCount
    {
      if t.side == Buy && t.effect == Open {
        var debit :- CheckedAdd(q.notional, q.fee);
        if debit > cash { return Err(ExceedsCash); }
        var rest :- CheckedSub(cash, debit);
        if t.symbol !in lotsBySymbol { return Err(Panic); }
        cash := rest;
        lotsBySymbol := lotsBySymbol[t.symbol := lotsBySymbol[t.symbol] + [Lot(t.quantity, session)]];
      } else if t.side == Sell && t.effect == Close {
        var consumed := ConsumeEligible(t.symbol, t.quantity, session);
        if consumed.Err? { return consumed; }
        var costs :- CheckedAdd(q.fee, q.stampDuty);
        var proceeds :- CheckedSub(q.notional, costs);
        cash :- CheckedAdd(cash, proceeds);
        var position :- PositionOf(lotsBySymbol, t.symbol);
        if position == 0 {
          if closedCount + 1 > U64_MAX { return Err(Overflow); }
          closedCount := closedCount + 1;
        }
      } else {
        return Err(Unsupported);
      }
      return Ok(());
    }

    method RecordFill(session: nat, t: Intent, q: Quote, position: int, eligible: int)
      modifies this`orders, this`trades, this`positions, this`cashLedger, this`completed
      ensures orders == old(orders) + [OrderOf(t, Filled, Some(session))]
      ensures trades == old(trades) + [TradeOf(t, session, q)]
      ensures positions == old(positions) + [PositionRecord(t.id, t.symbol, session, position, eligible)]
      ensures cashLedger == old(cashLedger) + [CashRecordOf(t, session, q, cash)]
      ensures completed == old(completed) + {t.id}
    {
      orders := orders + [OrderOf(t, Filled, Some(session))];
      trades := trades + [TradeOf(t, session, q)];
      positions := positions + [PositionRecord(t.id, t.symbol, session, position, eligible)];
      cashLedger := cashLedger + [CashRecordOf(t, session, q, cash)];
      completed := completed + {t.id};
    }

    method AddCosts(q: Quote) returns (r: Result<()>)
      modifies this`totalFees, this`totalStampDuty, this`totalSlippage
      ensures r == if InI128(old(totalFees) + q.fee) && InI128(old(totalStampDuty) + q.stampDuty)
                      && InI128(old(totalSlippage) + q.slippage) then Ok(()) else Err(Overflow)
      ensures r.Ok? ==>
                && totalFees == old(totalFees) + q.fee && totalStampDuty == old(totalStampDuty) + q.stampDuty
                && totalSlippage == old(totalSlippage) + q.slippage
    {
      totalFees :- CheckedAdd(totalFees, q.fee);
      totalStampDuty :- CheckedAdd(totalStampDuty, q.stampDuty);
      totalSlippage :- CheckedAdd(totalSlippage, q.slippage);
      return Ok(());
    }

    method Fill(session: nat, t: Intent, q: Quote) returns (r: Result<()>)
      modifies this
      ensures match FillIntent(old(View()), session, t, q)
              case Err(e) => r == Err(e)
              case Ok(st) => r == Ok(()) && View() == st
    {
      var settled := SettleFill(session, t, q);
      if settled.Err? { return settled; }
      var added := AddCosts(q);
      if added.Err? { return added; }
      var position :- PositionOf(lotsBySymbol, t.symbol);
      var eligible :- EligibleOf(lotsBySymbol, t.symbol, session);
      RecordFill(session, t, q, position, eligible);
      return Ok(());
    }

    method ExecuteIntent(account: Account, session: Session, t: Intent) returns (r: Result<()>)
      modifies this
      ensures match ProcessIntent(account, session, old(View()), t)
              case Err(e) => r == Err(e)
              case Ok(st) => r == Ok(()) && View() == st
    {
      var bar :- BarOf(session.bars, t.symbol);
      if Blocked(bar, t.side) {
        RecordExpired(t);
        return Ok(());
      }
      var q :- QuoteFor(account, bar, t);
      r := Fill(session.seqNo, t, q);
    }

    method MarkPositions(account: Account, session: Session) returns (r: Result<int>)
      ensures r == MarketValue(account, session, lotsBySymbol, |account.symbols|)
    {
      var marketValue := 0;
      for i := 0 to |account.symbols|
        invariant MarketValue(account, session, lotsBySymbol, i) == Ok(marketValue)
      {
        if MarketValue(account, session, lotsBySymbol, i + 1).Err? {
          MarketValueStops(account, session, lotsBySymbol, i + 1, |account.symbols|);
        }
        var quantity :- PositionOf(lotsBySymbol, account.symbols[i]);
        var bar :- BarOf(session.bars, account.symbols[i]);
        var marked :- CheckedMul(quantity, bar.close);
        marketValue :- CheckedAdd(marketValue, marked);
      }
      return Ok(marketValue);
    }

    method RecordMark(session: Session, marketValue: int, equity: int, drawdown: int, rate: int)
      modifies this`maxDrawdown, this`maxDrawdownRate, this`equityCurve, this`drawdownCurve
      ensures maxDrawdown == Min(old(maxDrawdown), drawdown) && maxDrawdownRate == Min(old(maxDrawdownRate), rate)
      ensures equityCurve
              == old(equityCurve) + [EquityPoint(session.seqNo, session.timestamp, cash, marketValue, equity)]
      ensures drawdownCurve == old(drawdownCurve) + [DrawdownPoint(session.seqNo, equity, peak, drawdown, rate)]
    {
      maxDrawdown := Min(maxDrawdown, drawdown);
      maxDrawdownRate := Min(maxDrawdownRate, rate);
      equityCurve := equityCurve
        + [EquityPoint(session.seqNo, session.timestamp, cash, marketValue, equity)];
      drawdownCurve := drawdownCurve + [DrawdownPoint(session.seqNo, equity, peak, drawdown, rate)];
    }

    method MarkToMarket(account: Account, session: Session) returns (r: Result<()>)
      modifies this
      ensures match Mark(account, session, old(View()))
              case Err(e) => r == Err(e)
              case Ok(st) => r == Ok(()) && View() == st
    {
      var marketValue :- MarkPositions(account, session);
      var equity :- CheckedAdd(cash, marketValue);
      peak := Max(peak, equity);
      var drawdown :- CheckedSub(equity, peak);
      var numerator :- CheckedMul(drawdown, account.rateScale);
      var rate :- CheckedDiv(numerator, peak);
      RecordMark(session, marketValue, equity, drawdown, rate);
      return Ok(());
    }

    method RunSession(input: Input, session: Session) returns (r: Result<()>)
      modifies this
      ensures match ProcessSession(input, session, old(View()))
              case Err(e) => r == Err(e)
              case Ok(st) => r == Ok(()) && View() == st
    {
      var due := Schedule(input.intents, completed, session.seqNo);
      for i := 0 to |due|
        invariant ProcessIntents(input.account, session, old(View()), due, i) == Ok(View())
      {
        if ProcessIntents(input.account, session, old(View()), due, i + 1).Err? {
          FoldStops(IntentStep(input.account, session), old(View()), due, 0, i + 1, |due|);
        }
        var done := ExecuteIntent(input.account, session, due[i]);
        if done.Err? { return done; }
      }
      r := MarkToMarket(input.account, session);
    }

    method ExpireUnfinished(intents: seq<Intent>)
      modifies this`orders, this`completed
      ensures View() == ExpireRest(old(View()), intents, |intents|)
    {
      for i := 0 to |intents|
        invariant View() == ExpireRest(old(View()), intents, i)
      {
        if intents[i].id !in completed { RecordExpired(intents[i]); }
      }
    }

    method FinishRun(input: Input) returns (r: Result<Output>)
      modifies this`orders, this`completed
      ensures r == Finish(input, old(View()))
    {
      ExpireUnfinished(input.intents);
      var ending := input.account.startingBalance;
      if equityCurve != [] { ending := equityCurve[|equityCurve| - 1].equity; }
      var netPnl :- CheckedSub(ending, input.account.startingBalance);
      var numerator :- CheckedMul(netPnl, input.account.rateScale);
      var totalReturn :- CheckedDiv(numerator, input.account.startingBalance);
      var openCount :- OpenPositions(input.account.symbols, lotsBySymbol, |input.account.symbols|);
      return Ok(Output(orders, trades, positions, cashLedger, equityCurve, drawdownCurve,
                       Metrics(input.account.startingBalance, ending, netPnl, totalReturn,
                               maxDrawdown, maxDrawdownRate, totalFees, totalStampDuty,
                               0, totalSlippage, |trades|, closedCount, openCount)));
    }
  }

  lemma {:induction false} MarketValueStops(account: Account, session: Session, lots: map<Symbol, seq<Lot>>, k: nat,
      n: nat)
    requires k <= n <= |account.symbols|
    requires MarketValue(account, session, lots, k).Err?
    ensures MarketValue(account, session, lots, n) == MarketValue(account, session, lots, k)
  {
    if k < n { MarketValueStops(account, session, lots, k, n - 1); }
  }

  lemma {:induction false} NextSession(input: Input, st: State, start: nat, i: nat, end: nat, at: State)
    requires start <= i < end <= |input.sessions| && SessionsFrom(input, st, start, i) == Ok(at)
    ensures SessionsFrom(input, st, start, i + 1) == ProcessSession(input, input.sessions[i], at)
    ensures ProcessSession(input, input.sessions[i], at).Err? ==>
              SessionsFrom(input, st, start, end) == ProcessSession(input, input.sessions[i], at)
  {
    FoldNext(SessionStep(input), st, input.sessions, start, i, end, at);
  }

  /** A batch of sessions: the loop of a one-shot run and of a checkpoint step. */
  method RunBatch(state: PortfolioState, input: Input, start: nat, end: nat) returns (r: Result<()>)
    requires start <= end <= |input.sessions|
    modifies state
    ensures match SessionsFrom(input, old(state.View()), start, end)
            case Err(e) => r == Err(e)
            case Ok(st) => r == Ok(()) && state.View() == st
  {
    ghost var st, goal := state.View(), SessionsFrom(input, state.View(), start, end);
    for i := start to end
      invariant SessionsFrom(input, st, start, i) == Ok(state.View())
    {
      ghost var at := state.View();
      NextSession(input, st, start, i, end, at);
      var done := state.RunSession(input, input.sessions[i]);
      if done.Err? {
        assert goal == Err(done.error);
        return done;
      }
    }
    assert goal == Ok(state.View());
    return Ok(());
  }

  /** The one-shot run. */
  method RunOneShot(input: Input) returns (r: Result<Output>)
    ensures r == RunEngine(input)
  {
    if !ValidInput(input) { return Err(InvalidInput); }
    var state := new PortfolioState(input.account);
    var done := RunBatch(state, input, 0, |input.sessions|);
    if done.Err? { return Err(done.error); }
    r := state.FinishRun(input);
  }
}
