/** The report on a v2 output: it reconciles exactly when every closing trade leaves
    its symbol flat. */
module ReportPortfolio {
  import opened Checked
  import opened Events
  import opened Lots
  import opened Folds
  import opened Sequences
  import opened Portfolio
  import Solvency = PortfolioSolvency
  import R = Report

  // ---- the output as the report reads it ----

  function PointOf(p: EquityPoint): R.Point { R.Point(p.equity, p.cash, p.marketValue) }

  function ReportTrade(t: TradeRecord): R.Trade { R.Trade(t.fee, t.stampDuty, t.slippage, t.effect == Close) }

  function ReportPosition(p: PositionRecord): R.Position { R.Position(Some(p.symbol), p.quantity) }

  function Points(curve: seq<EquityPoint>): (r: seq<R.Point>)
    ensures |r| == |curve| && forall i :: 0 <= i < |r| ==> r[i] == PointOf(curve[i])
  {
    seq(|curve|, i requires 0 <= i < |curve| => PointOf(curve[i]))
  }

  function Trades(trades: seq<TradeRecord>): (r: seq<R.Trade>)
    ensures |r| == |trades| && forall i :: 0 <= i < |r| ==> r[i] == ReportTrade(trades[i])
  {
    seq(|trades|, i requires 0 <= i < |trades| => ReportTrade(trades[i]))
  }

  function Positions(positions: seq<PositionRecord>): (r: seq<R.Position>)
    ensures |r| == |positions| && forall i :: 0 <= i < |r| ==> r[i] == ReportPosition(positions[i])
  {
    seq(|positions|, i requires 0 <= i < |positions| => ReportPosition(positions[i]))
  }

  function MetricsOf(m: Metrics): R.Metrics {
    R.Metrics(m.startingEquity, m.endingEquity, m.netPnl, m.totalReturnRate, m.maxDrawdown, m.maxDrawdownRate,
              m.totalFees, m.totalStampDuty, m.totalFunding, m.totalSlippage, m.fillCount, m.closedCount, m.openCount)
  }

  /** A portfolio has no funding ledger. */
  function ResultOf(out: Output): R.EngineResult {
    R.EngineResult(2, MetricsOf(out.metrics), R.CostsOf(MetricsOf(out.metrics)), Points(out.equityCurve),
                   Trades(out.trades), |out.orders|, Positions(out.positions), [])
  }

  // ---- what every fill and every mark keeps ----

  ghost predicate TotalsKept(st: State) {
    && st.totalFees == Sum(Trades(st.trades), R.FeeOf)
    && st.totalStampDuty == Sum(Trades(st.trades), R.StampDutyOf)
    && st.totalSlippage == Sum(Trades(st.trades), R.SlippageOf)
  }

  ghost predicate ClosesCounted(st: State) {
    |st.trades| == |st.positions| && st.closedCount == R.FlatCloses(Trades(st.trades), Positions(st.positions))
  }

  function LastOf(last: map<Option<Symbol>, int>, s: Symbol): int {
    if Some(s) in last then last[Some(s)] else 0
  }

  /** The last record of each symbol is its position. */
  ghost predicate PositionsRecorded(st: State) {
    var last := R.LastPositions(Positions(st.positions));
    && (forall s {:trigger PositionOf(st.lots, s)} | s in st.lots :: PositionOf(st.lots, s) == Ok(LastOf(last, s)))
    && (forall key | key in last :: key.Some? && key.value in st.lots)
  }

  ghost predicate RunningKept(account: Account, st: State) {
    && R.RunningOf(account.startingBalance, Points(st.equityCurve))
       == R.Running(st.peak, st.maxDrawdown, st.maxDrawdownRate)
    && st.peak > 0
  }

  /** What a fill adds. */
  lemma {:induction false} FillAdds(st: State, session: nat, t: Intent, q: Quote)
    requires FillIntent(st, session, t, q).Ok?
    ensures Settle(st, session, t, q).Ok?
    ensures var next, settled := FillIntent(st, session, t, q).value, Settle(st, session, t, q).value;
            && next.trades == st.trades + [TradeOf(t, session, q)]
            && |next.positions| == |st.positions| + 1 && next.positions[..|st.positions|] == st.positions
            && next.positions[|st.positions|].symbol == t.symbol
            && PositionOf(next.lots, t.symbol) == Ok(next.positions[|st.positions|].quantity)
            && next.lots == settled.lots && next.closedCount == settled.closedCount
            && next.totalFees == st.totalFees + q.fee && next.totalStampDuty == st.totalStampDuty + q.stampDuty
            && next.totalSlippage == st.totalSlippage + q.slippage
            && next.equityCurve == st.equityCurve && next.peak == st.peak
            && next.maxDrawdown == st.maxDrawdown && next.maxDrawdownRate == st.maxDrawdownRate
  {
  }

  lemma {:induction false} SettleMoves(st: State, session: nat, t: Intent, q: Quote)
    requires Settle(st, session, t, q).Ok?
    ensures var s := Settle(st, session, t, q).value;
            && t.symbol in st.lots && s.lots.Keys == st.lots.Keys
            && (forall x | x in st.lots && x != t.symbol :: s.lots[x] == st.lots[x])
            && s.closedCount
               == st.closedCount + (if t.effect == Close && PositionOf(s.lots, t.symbol) == Ok(0) then 1 else 0)
  {
  }

  lemma {:induction false} FillKeepsTotals(st: State, session: nat, t: Intent, q: Quote)
    requires TotalsKept(st) && FillIntent(st, session, t, q).Ok?
    ensures TotalsKept(FillIntent(st, session, t, q).value)
  {
    FillAdds(st, session, t, q);
    var trade := ReportTrade(TradeOf(t, session, q));
    assert Trades(st.trades + [TradeOf(t, session, q)]) == Trades(st.trades) + [trade];
    SumAppend(Trades(st.trades), trade, R.FeeOf);
    SumAppend(Trades(st.trades), trade, R.StampDutyOf);
    SumAppend(Trades(st.trades), trade, R.SlippageOf);
  }

  lemma {:induction false} FillKeepsCloses(st: State, session: nat, t: Intent, q: Quote)
    requires ClosesCounted(st) && FillIntent(st, session, t, q).Ok?
    ensures ClosesCounted(FillIntent(st, session, t, q).value)
  {
    FillAdds(st, session, t, q);
    SettleMoves(st, session, t, q);
    var next := FillIntent(st, session, t, q).value;
    var trade, position := ReportTrade(TradeOf(t, session, q)), ReportPosition(next.positions[|st.positions|]);
    assert Trades(next.trades) == Trades(st.trades) + [trade];
    assert Positions(next.positions) == Positions(st.positions) + [position];
    R.FlatClosesAppend(Trades(st.trades), Positions(st.positions), trade, position);
  }

  lemma {:induction false} FillKeepsPositions(st: State, session: nat, t: Intent, q: Quote)
    requires PositionsRecorded(st) && FillIntent(st, session, t, q).Ok?
    ensures PositionsRecorded(FillIntent(st, session, t, q).value)
  {
    FillAdds(st, session, t, q);
    SettleMoves(st, session, t, q);
    var next := FillIntent(st, session, t, q).value;
    var position := ReportPosition(next.positions[|st.positions|]);
    assert Positions(next.positions) == Positions(st.positions) + [position];
    R.LastPositionsAppend(Positions(st.positions), position);
    forall s | s in next.lots
      ensures PositionOf(next.lots, s) == Ok(LastOf(R.LastPositions(Positions(next.positions)), s))
    {
      assert s in st.lots;
      if s != t.symbol { assert PositionOf(next.lots, s) == PositionOf(st.lots, s); }
    }
  }

  ghost predicate Tallied(account: Account, st: State) {
    TotalsKept(st) && ClosesCounted(st) && PositionsRecorded(st) && RunningKept(account, st)
  }

  lemma {:induction false} ExpiryKeepsTally(account: Account, st: State, t: Intent)
    requires Tallied(account, st)
    ensures Tallied(account, ExpireIntent(st, t))
  {
  }

  lemma {:induction false} IntentKeepsTally(account: Account, session: Session, st: State, t: Intent)
    requires Tallied(account, st) && ProcessIntent(account, session, st, t).Ok?
    ensures Tallied(account, ProcessIntent(account, session, st, t).value)
  {
    var bar := BarOf(session.bars, t.symbol).value;
    if Blocked(bar, t.side) {
      ExpiryKeepsTally(account, st, t);
    } else {
      var q := QuoteFor(account, bar, t).value;
      FillKeepsTotals(st, session.seqNo, t, q);
      FillKeepsCloses(st, session.seqNo, t, q);
      FillKeepsPositions(st, session.seqNo, t, q);
      FillAdds(st, session.seqNo, t, q);
    }
  }

  lemma {:induction false} IntentsKeepTally(account: Account, session: Session, st: State, due: seq<Intent>, n: nat)
    requires n <= |due| && Tallied(account, st) && ProcessIntents(account, session, st, due, n).Ok?
    ensures Tallied(account, ProcessIntents(account, session, st, due, n).value)
  {
    if n > 0 {
      IntentsKeepTally(account, session, st, due, n - 1);
      IntentKeepsTally(account, session, ProcessIntents(account, session, st, due, n - 1).value, due[n - 1]);
    }
  }

  lemma {:induction false} MarkKeepsRunning(account: Account, session: Session, st: State)
    requires account.rateScale == R.RATE_SCALE && RunningKept(account, st) && Mark(account, session, st).Ok?
    ensures RunningKept(account, Mark(account, session, st).value)
  {
    var next := Mark(account, session, st).value;
    var p := next.equityCurve[|st.equityCurve|];
    assert Points(next.equityCurve) == Points(st.equityCurve) + [PointOf(p)];
    R.RunningAppend(account.startingBalance, Points(st.equityCurve), PointOf(p));
    R.TruncDivsAgree((p.equity - next.peak) * account.rateScale, next.peak);
  }

  lemma {:induction false} MarkKeepsTally(account: Account, session: Session, st: State)
    requires account.rateScale == R.RATE_SCALE && Tallied(account, st) && Mark(account, session, st).Ok?
    ensures Tallied(account, Mark(account, session, st).value)
  {
    MarkFrame(account, session, st);
    MarkKeepsRunning(account, session, st);
  }

  lemma {:induction false} InitialTally(account: Account)
    requires account.startingBalance > 0
    ensures Tallied(account, InitialState(account))
  {
    var st := InitialState(account);
    forall s | s in st.lots
      ensures PositionOf(st.lots, s) == Ok(LastOf(map[], s))
    {
      assert st.lots[s] == [];
    }
  }

  lemma {:induction false} RunKeepsTally(input: Input, k: nat)
    requires ValidAccount(input.account) && input.account.rateScale == R.RATE_SCALE
    requires k <= |input.sessions| && RunSessions(input, k).Ok?
    ensures Tallied(input.account, RunSessions(input, k).value)
  {
    if k == 0 {
      InitialTally(input.account);
    } else {
      RunKeepsTally(input, k - 1);
      var st, session := RunSessions(input, k - 1).value, input.sessions[k - 1];
      SessionParts(input, session, st);
      var due := Schedule(input.intents, st.completed, session.seqNo);
      IntentsKeepTally(input.account, session, st, due, |due|);
      MarkKeepsTally(input.account, session, ProcessIntents(input.account, session, st, due, |due|).value);
    }
  }

  lemma {:induction false} ExpireRestKeepsTally(account: Account, st: State, intents: seq<Intent>, n: nat)
    requires n <= |intents| && Tallied(account, st)
    ensures Tallied(account, ExpireRest(st, intents, n))
    ensures ExpireRest(st, intents, n).lots == st.lots
  {
    if n > 0 {
      ExpireRestKeepsTally(account, st, intents, n - 1);
      ExpiryKeepsTally(account, ExpireRest(st, intents, n - 1), intents[n - 1]);
    }
  }

  // ---- open positions ----

  lemma {:induction false} SymbolsIncrease(symbols: seq<Symbol>, i: nat, j: nat)
    requires forall k :: 0 <= k < |symbols| - 1 ==> symbols[k] < symbols[k + 1]
    requires i < j < |symbols|
    ensures symbols[i] < symbols[j]
  {
    if i + 1 < j {
      SymbolsIncrease(symbols, i, j - 1);
      assert symbols[j - 1] < symbols[j - 1 + 1];
    }
  }

  function OpenAmong(symbols: seq<Symbol>, last: map<Option<Symbol>, int>): set<Option<Symbol>> {
    set i | 0 <= i < |symbols| && LastOf(last, symbols[i]) != 0 :: Some(symbols[i])
  }

  lemma {:induction false} OpenAmongLacks(symbols: seq<Symbol>, last: map<Option<Symbol>, int>, n: nat)
    requires n < |symbols| && forall k :: 0 <= k < |symbols| - 1 ==> symbols[k] < symbols[k + 1]
    ensures Some(symbols[n]) !in OpenAmong(symbols[..n], last)
  {
    if Some(symbols[n]) in OpenAmong(symbols[..n], last) {
      var i :| 0 <= i < n && symbols[..n][i] == symbols[n];
      SymbolsIncrease(symbols, i, n);
    }
  }

  /** Counting symbol by symbol gives the size of the set of open symbols. */
  lemma {:induction false} OpenPositionsCount(symbols: seq<Symbol>, lots: map<Symbol, seq<Lot>>,
      last: map<Option<Symbol>, int>, n: nat)
    requires n <= |symbols| && forall k :: 0 <= k < |symbols| - 1 ==> symbols[k] < symbols[k + 1]
    requires forall i :: 0 <= i < |symbols| ==> PositionOf(lots, symbols[i]) == Ok(LastOf(last, symbols[i]))
    requires OpenPositions(symbols, lots, n).Ok?
    ensures OpenPositions(symbols, lots, n).value == |OpenAmong(symbols[..n], last)|
  {
    if n > 0 {
      OpenPositionsCount(symbols, lots, last, n - 1);
      OpenAmongLacks(symbols, last, n - 1);
      OpenAmongNext(symbols, last, n);
    }
  }

  lemma {:induction false} OpenAmongNext(symbols: seq<Symbol>, last: map<Option<Symbol>, int>, n: nat)
    requires 0 < n <= |symbols|
    ensures OpenAmong(symbols[..n], last)
            == OpenAmong(symbols[..n - 1], last)
               + if LastOf(last, symbols[n - 1]) != 0 then {Some(symbols[n - 1])} else {}
  {
    var xs, ys := symbols[..n - 1], symbols[..n];
    forall key | key in OpenAmong(xs, last) ensures key in OpenAmong(ys, last) {
      var i :| 0 <= i < |xs| && LastOf(last, xs[i]) != 0 && key == Some(xs[i]);
      assert ys[i] == xs[i];
    }
    forall key | key in OpenAmong(ys, last) && key != Some(symbols[n - 1]) ensures key in OpenAmong(xs, last) {
      var i :| 0 <= i < |ys| && LastOf(last, ys[i]) != 0 && key == Some(ys[i]);
      assert xs[i] == ys[i];
    }
    if LastOf(last, symbols[n - 1]) != 0 { assert ys[n - 1] == symbols[n - 1]; }
  }

  lemma {:induction false} OpenCountIs(account: Account, st: State)
    requires ValidAccount(account) && PositionsRecorded(st)
    requires forall s :: s in st.lots <==> s in account.symbols
    requires OpenPositions(account.symbols, st.lots, |account.symbols|).Ok?
    ensures OpenPositions(account.symbols, st.lots, |account.symbols|).value
            == |R.OpenSymbols(R.LastPositions(Positions(st.positions)))|
  {
    var last, symbols := R.LastPositions(Positions(st.positions)), account.symbols;
    OpenPositionsCount(symbols, st.lots, last, |symbols|);
    assert symbols[..|symbols|] == symbols;
    forall key | key in R.OpenSymbols(last) ensures key in OpenAmong(symbols, last) {
      var i :| 0 <= i < |symbols| && symbols[i] == key.value;
      assert LastOf(last, symbols[i]) != 0;
    }
    assert R.OpenSymbols(last) == OpenAmong(symbols, last);
  }

  // ---- the theorem ----

  /** What a finished run publishes of its last state. */
  ghost predicate Published(account: Account, st: State, out: Output) {
    var m := out.metrics;
    && out.trades == st.trades && out.positions == st.positions && out.equityCurve == st.equityCurve
    && m.startingEquity == account.startingBalance
    && m.endingEquity
       == (if out.equityCurve == [] then m.startingEquity else out.equityCurve[|out.equityCurve| - 1].equity)
    && m.netPnl == m.endingEquity - m.startingEquity && m.startingEquity > 0
    && m.totalReturnRate == TruncDiv(m.netPnl * account.rateScale, m.startingEquity)
    && m.maxDrawdown == st.maxDrawdown && m.maxDrawdownRate == st.maxDrawdownRate
    && m.totalFees == st.totalFees && m.totalStampDuty == st.totalStampDuty
    && m.totalSlippage == st.totalSlippage && m.totalFunding == 0
    && m.fillCount == |out.trades| && m.closedCount == st.closedCount
    && OpenPositions(account.symbols, st.lots, |account.symbols|) == Ok(m.openCount)
  }

  lemma {:induction false} FinishPublishes(input: Input, state: State)
    requires input.account.startingBalance > 0 && Finish(input, state).Ok?
    ensures Published(input.account, ExpireRest(state, input.intents, |input.intents|), Finish(input, state).value)
  {
  }

  lemma {:induction false} FinishedMetrics(input: Input)
    requires RunEngine(input).Ok?
    ensures ValidInput(input) && RunSessions(input, |input.sessions|).Ok?
    ensures Published(input.account,
                      ExpireRest(RunSessions(input, |input.sessions|).value, input.intents, |input.intents|),
                      RunEngine(input).value)
  {
    FinishPublishes(input, RunSessions(input, |input.sessions|).value);
  }

  lemma {:induction false} EquityAgrees(account: Account, st: State, out: Output)
    requires Published(account, st, out) && account.rateScale == R.RATE_SCALE && RunningKept(account, st)
    ensures var m, s := out.metrics, R.SummaryOf(ResultOf(out)).metrics;
            && m.startingEquity == s.startingEquity && m.endingEquity == s.endingEquity && m.netPnl == s.netPnl
            && m.totalReturnRate == s.totalReturnRate
            && m.maxDrawdown == s.maxDrawdown && m.maxDrawdownRate == s.maxDrawdownRate
  {
    R.TruncDivsAgree(out.metrics.netPnl * R.RATE_SCALE, out.metrics.startingEquity);
  }

  lemma {:induction false} TotalsAgree(account: Account, st: State, out: Output)
    requires Published(account, st, out) && TotalsKept(st)
    requires out.metrics.openCount == |R.OpenSymbols(R.LastPositions(Positions(st.positions)))|
    ensures var m, s := out.metrics, R.SummaryOf(ResultOf(out)).metrics;
            && m.totalFees == s.totalFees && m.totalStampDuty == s.totalStampDuty
            && m.totalFunding == s.totalFunding && m.totalSlippage == s.totalSlippage
            && m.fillCount == s.fillCount && m.openCount == s.openCount
  {
  }

  lemma {:induction false} PublishedReconciles(account: Account, st: State, out: Output)
    requires Published(account, st, out) && account.rateScale == R.RATE_SCALE
    requires TotalsKept(st) && ClosesCounted(st) && RunningKept(account, st)
    requires out.metrics.openCount == |R.OpenSymbols(R.LastPositions(Positions(st.positions)))|
    ensures |out.trades| == |out.positions|
    ensures R.Reconciles(ResultOf(out)) <==>
              forall i :: 0 <= i < |out.trades| && out.trades[i].effect == Close ==> out.positions[i].quantity == 0
  {
    EquityAgrees(account, st, out);
    TotalsAgree(account, st, out);
    R.AgreeingReconciles(ResultOf(out));
  }

  /** Every metric but the closed trades agrees; that one agrees exactly when every
      close leaves its symbol flat. */
  lemma {:induction false} ReconcilesExactly(input: Input)
    requires RunEngine(input).Ok? && input.account.rateScale == R.RATE_SCALE
    ensures var out := RunEngine(input).value;
            && |out.trades| == |out.positions|
            && (R.Reconciles(ResultOf(out)) <==>
                forall i :: 0 <= i < |out.trades| && out.trades[i].effect == Close ==> out.positions[i].quantity == 0)
  {
    FinishedMetrics(input);
    var n := |input.sessions|;
    var before := RunSessions(input, n).value;
    var st := ExpireRest(before, input.intents, |input.intents|);
    RunKeepsTally(input, n);
    ExpireRestKeepsTally(input.account, before, input.intents, |input.intents|);
    Solvency.RunKeeps(input, n);
    OpenCountIs(input.account, st);
    PublishedReconciles(input.account, st, RunEngine(input).value);
  }

  // ---- a run that does not reconcile ----

  const FREE := Solvency.PennyAccount(R.RATE_SCALE, 0, 0, 0)

  lemma {:induction false} FreeFinishes(st: State)
    requires |st.equityCurve| == 2 && st.equityCurve[1].equity == 600 && st.completed == {1, 2} + {3}
    requires st.lots == map[0 := [Lot(100, 1)]]
    ensures Finish(Solvency.PennyInput(FREE), st).Ok?
    ensures ExpireRest(st, Solvency.PENNY_TAPE, 3) == st
  {
    var tape := Solvency.PENNY_TAPE;
    assert ExpireRest(st, tape, 1) == st && ExpireRest(st, tape, 2) == st && ExpireRest(st, tape, 3) == st;
    Solvency.PennyTotals([Lot(100, 1)]);
    assert OpenPositions(FREE.symbols, st.lots, 0) == Ok(0) && OpenPositions(FREE.symbols, st.lots, 1) == Ok(1);
    assert CheckedMul(400, R.RATE_SCALE).Ok? && CheckedDiv(400 * R.RATE_SCALE, 200).Ok?;
  }

  /** A valid run that buys two board lots and sells one: the report counts a closed
      trade, the engine does not. */
  lemma {:induction false} PartialCloseDoesNotReconcile()
    ensures var input := Solvency.PennyInput(FREE);
            ValidInput(input) && RunEngine(input).Ok? && !R.Reconciles(ResultOf(RunEngine(input).value))
  {
    var input := Solvency.PennyInput(FREE);
    assert RateCharge(100, 0, R.RATE_SCALE) == Ok(0);
    Solvency.PennyInputIsValid(FREE, 0, 0);
    var st := Solvency.PennyCloses(FREE, 0, 0);
    FreeFinishes(st);
    RunParts(input);
    ReconcilesExactly(input);
    var out := RunEngine(input).value;
    assert out.trades[2].effect == Close && out.positions[2].quantity != 0;
  }
}
