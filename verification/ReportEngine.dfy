/** The report on a v1 output: it reconciles exactly when every closing trade leaves
    the account flat, and so always for a perpetual account. */
module ReportEngine {
  import opened Checked
  import opened Events
  import opened Folds
  import opened Sequences
  import opened Engine
  import opened EngineInduction
  import opened EngineAccounting
  import opened Validator
  import opened ValidatorMirror
  import opened ValidatorCurve
  import R = Report

  // ---- the output as the report reads it ----

  function PointOf(p: EquityPoint): R.Point { R.Point(p.equity, p.cash, 0) }

  function ReportTrade(t: TradeRecord): R.Trade { R.Trade(t.fee, t.stampDuty, t.slippage, t.effect == Close) }

  function ReportPosition(p: PositionRecord): R.Position { R.Position(None, p.quantity) }

  function Points(curve: seq<EquityPoint>): (r: seq<R.Point>)
    ensures |r| == |curve| && forall i :: 0 <= i < |r| ==> r[i] == PointOf(curve[i])
  {
    seq(|curve|, i requires 0 <= i < |curve| => PointOf(curve[i]))
  }

  function Trades(trades: seq<TradeRecord>): (r: seq<R.Trade>)
    ensures |r| == |trades| && forall i :: 0 <= i < |r| ==> r[i] == ReportTrade(trades[i])
  {
    seq(|trades|, i requires 0 <= i < |trades| => ReportTrade(trades[i]))
  }

  function Positions(positions: seq<PositionRecord>): (r: seq<R.Position>)
    ensures |r| == |positions| && forall i :: 0 <= i < |r| ==> r[i] == ReportPosition(positions[i])
  {
    seq(|positions|, i requires 0 <= i < |positions| => ReportPosition(positions[i]))
  }

  function Deltas(ledger: seq<FundingRecord>): (r: seq<int>)
    ensures |r| == |ledger| && forall i :: 0 <= i < |r| ==> r[i] == ledger[i].walletDelta
  {
    seq(|ledger|, i requires 0 <= i < |ledger| => ledger[i].walletDelta)
  }

  function MetricsOf(m: Metrics): R.Metrics {
    R.Metrics(m.startingEquity, m.endingEquity, m.netPnl, m.totalReturnRate, m.maxDrawdown, m.maxDrawdownRate,
              m.totalFees, m.totalStampDuty, m.totalFunding, m.totalSlippage, m.fillCount, m.closedCount, m.openCount)
  }

  /** The cost summary of an output repeats the totals of its metrics. */
  function ResultOf(out: Output): R.EngineResult {
    R.EngineResult(1, MetricsOf(out.metrics), R.CostsOf(MetricsOf(out.metrics)), Points(out.equityCurve),
                   Trades(out.trades), |out.orders|, Positions(out.positions), Deltas(out.fundingLedger))
  }

  // ---- running extremes ----

  ghost predicate RunningKept(account: Account, c: Curve) {
    && R.RunningOf(account.startingBalance, Points(c.equity)) == R.Running(c.peak, c.maxDrawdown, c.maxDrawdownRate)
    && c.peak > 0
  }

  lemma {:induction false} MarkKeepsRunning(account: Account, bar: Bar, b: Book, c: Curve)
    requires account.rateScale == R.RATE_SCALE && RunningKept(account, c) && MarkCurve(account, bar, b, c).Ok?
    ensures RunningKept(account, MarkCurve(account, bar, b, c).value)
  {
    var next := MarkCurve(account, bar, b, c).value;
    var p := next.equity[|c.equity|];
    assert Points(next.equity) == Points(c.equity) + [PointOf(p)];
    R.RunningAppend(account.startingBalance, Points(c.equity), PointOf(p));
    R.TruncDivsAgree((p.equity - next.peak) * account.rateScale, next.peak);
  }

  lemma {:induction false} RunKeepsRunning(input: Input, k: nat)
    requires ValidInput(input) && input.account.rateScale == R.RATE_SCALE
    requires k <= |input.bars| && Replay(input, k).Ok?
    ensures RunningKept(input.account, Replay(input, k).value.curve)
  {
    if k > 0 {
      LastReplay(input, k);
      RunKeepsRunning(input, k - 1);
      var before, bar := Replay(input, k - 1).value, input.bars[k - 1];
      BarGrows(input, bar, before);
      BarParts(input, bar, before);
      MarkKeepsRunning(input.account, bar, BeforeMark(input, bar, before).value.book, before.curve);
    }
  }

  // ---- totals ----

  /** A checked running total is the sum of what it adds. */
  lemma {:induction false} FoldIsSum(add: (int, TradeRecord) -> Result<int>, xs: seq<TradeRecord>, n: nat,
      ys: seq<R.Trade>, amount: R.Trade -> int)
    requires n <= |xs| == |ys|
    requires forall total: int, i: nat ::
               i < |xs| && add(total, xs[i]).Ok? ==> add(total, xs[i]).value == total + amount(ys[i])
    ensures Fold(add, 0, xs, 0, n).Ok? ==> Fold(add, 0, xs, 0, n).value == Sum(ys[..n], amount)
  {
    if n > 0 {
      FoldIsSum(add, xs, n - 1, ys, amount);
      TakeNext(ys, n - 1);
      SumAppend(ys[..n - 1], ys[n - 1], amount);
    }
  }

  lemma {:induction false} TotalsAreSums(trades: seq<TradeRecord>, n: nat)
    requires n <= |trades|
    ensures Fold(AddFee, 0, trades, 0, n).Ok? ==>
              Fold(AddFee, 0, trades, 0, n).value == Sum(Trades(trades)[..n], R.FeeOf)
    ensures Fold(AddStampDuty, 0, trades, 0, n).Ok? ==>
              Fold(AddStampDuty, 0, trades, 0, n).value == Sum(Trades(trades)[..n], R.StampDutyOf)
    ensures Fold(AddSlippage, 0, trades, 0, n).Ok? ==>
              Fold(AddSlippage, 0, trades, 0, n).value == Sum(Trades(trades)[..n], R.SlippageOf)
  {
    var ts := Trades(trades);
    FoldIsSum(AddFee, trades, n, ts, R.FeeOf);
    FoldIsSum(AddStampDuty, trades, n, ts, R.StampDutyOf);
    FoldIsSum(AddSlippage, trades, n, ts, R.SlippageOf);
  }

  lemma {:induction false} FundingIsSum(ledger: seq<FundingRecord>, n: nat)
    requires n <= |ledger|
    ensures Fold(AddFunding, 0, ledger, 0, n).Ok? ==>
              Fold(AddFunding, 0, ledger, 0, n).value == -Sum(Deltas(ledger)[..n], R.DeltaOf)
  {
    if n > 0 {
      FundingIsSum(ledger, n - 1);
      var ds := Deltas(ledger);
      assert ds[..n] == ds[..n - 1] + [ds[n - 1]];
      SumAppend(ds[..n - 1], ds[n - 1], R.DeltaOf);
    }
  }

  // ---- closed trades ----

  ghost predicate ClosesCounted(b: Book) {
    && |b.trades| == |b.positions|
    && b.closedCount == R.FlatCloses(Trades(b.trades), Positions(b.positions))
  }

  lemma {:induction false} MoveCloses(account: Account, session: nat, b: Book, t: Intent, fill: Fill, c: Costs)
    requires t.quantity > 0 && MoveFor(account, session, b, t, fill, c).Ok?
    ensures var m := MoveFor(account, session, b, t, fill, c).value;
            && (m.closes <==> t.effect == Close && m.quantity == 0)
            && (account.model == LinearPerp && t.effect == Close ==> m.quantity == 0)
  {
  }

  /** On a perpetual account a close always closes all of the position. */
  ghost predicate PerpClosesFlat(account: Account, b: Book) {
    |b.trades| == |b.positions|
    && (account.model == LinearPerp ==> R.ClosesLeaveFlat(Trades(b.trades), Positions(b.positions)))
  }

  lemma {:induction false} CountsAppend(trades: seq<TradeRecord>, positions: seq<PositionRecord>, t: TradeRecord,
      p: PositionRecord)
    requires |trades| == |positions|
    ensures Trades(trades + [t]) == Trades(trades) + [ReportTrade(t)]
    ensures Positions(positions + [p]) == Positions(positions) + [ReportPosition(p)]
    ensures R.FlatCloses(Trades(trades + [t]), Positions(positions + [p]))
            == R.FlatCloses(Trades(trades), Positions(positions))
               + if t.effect == Close && p.quantity == 0 then 1 else 0
  {
    assert Trades(trades + [t]) == Trades(trades) + [ReportTrade(t)];
    assert Positions(positions + [p]) == Positions(positions) + [ReportPosition(p)];
    R.FlatClosesAppend(Trades(trades), Positions(positions), ReportTrade(t), ReportPosition(p));
  }

  lemma {:induction false} FillCounts(account: Account, session: nat, b: Book, t: Intent, fill: Fill)
    requires t.quantity > 0 && ClosesCounted(b) && PerpClosesFlat(account, b)
    requires BookFill(account, session, b, t, fill).Ok?
    ensures ClosesCounted(BookFill(account, session, b, t, fill).value)
    ensures PerpClosesFlat(account, BookFill(account, session, b, t, fill).value)
  {
    FillParts(account, session, b, t, fill);
    MoveCloses(account, session, b, t, fill, CostsOf(account, t, fill).value);
    var next := BookFill(account, session, b, t, fill).value;
    CountsAppend(b.trades, b.positions, next.trades[|b.trades|], next.positions[|b.positions|]);
  }

  ghost predicate Counted(account: Account, b: Book) { ClosesCounted(b) && PerpClosesFlat(account, b) }

  lemma {:induction false} IntentCounts(input: Input, bar: Bar, st: State, t: Intent)
    requires ValidTape(input.intents, input.account) && t in input.intents && Counted(input.account, st.book)
    requires ProcessIntent(input.account, bar, st, t).Ok?
    ensures Counted(input.account, ProcessIntent(input.account, bar, st, t).value.book)
  {
    assert ValidIntent(t, input.account);
    IntentParts(input.account, bar, st, t);
    if !OcoDone(st.log, t) && FillDecision(input.account, bar, t).value.Some? {
      FillCounts(input.account, bar.seqNo, st.book, t, FillDecision(input.account, bar, t).value.value);
    }
  }

  lemma {:induction false} BarCounts(input: Input, bar: Bar, st: State)
    requires ValidTape(input.intents, input.account) && Counted(input.account, st.book)
    requires ProcessBar(input, bar, st).Ok?
    ensures Counted(input.account, ProcessBar(input, bar, st).value.book)
  {
    var inv := (s: State) => Counted(input.account, s.book);
    forall s: State, t: Intent | inv(s) && t in input.intents && Live(t, bar.seqNo) && t.id !in s.log.completed
                                 && ProcessIntent(input.account, bar, s, t).Ok?
      ensures inv(ProcessIntent(input.account, bar, s, t).value)
    {
      IntentCounts(input, bar, s, t);
    }
    BarParts(input, bar, st);
    BarInduction(input, bar, st, inv);
  }

  lemma {:induction false} RunCounts(input: Input, k: nat)
    requires ValidTape(input.intents, input.account) && k <= |input.bars| && Replay(input, k).Ok?
    ensures Counted(input.account, Replay(input, k).value.book)
  {
    if k > 0 {
      LastReplay(input, k);
      RunCounts(input, k - 1);
      BarCounts(input, input.bars[k - 1], Replay(input, k - 1).value);
    }
  }

  // ---- open positions ----

  lemma {:induction false} OneAccount(positions: seq<PositionRecord>)
    ensures R.LastPositions(Positions(positions))
            == if positions == [] then map[] else map[None := LastQuantity(positions)]
  {
    if positions != [] {
      var n := |positions| - 1;
      OneAccount(positions[..n]);
      assert Positions(positions) == Positions(positions[..n]) + [ReportPosition(positions[n])];
      R.LastPositionsAppend(Positions(positions[..n]), ReportPosition(positions[n]));
    }
  }

  lemma {:induction false} OpenCountIs(positions: seq<PositionRecord>)
    ensures |R.OpenSymbols(R.LastPositions(Positions(positions)))| == if LastQuantity(positions) != 0 then 1 else 0
  {
    OneAccount(positions);
    var last := R.LastPositions(Positions(positions));
    if LastQuantity(positions) != 0 {
      assert R.OpenSymbols(last) == {None};
    } else {
      assert R.OpenSymbols(last) == {};
    }
  }

  // ---- the theorem ----

  /** What a finished run publishes of its last state. */
  ghost predicate Published(account: Account, st: State, out: Output) {
    var m, perp := out.metrics, account.model == LinearPerp;
    && out.trades == st.book.trades && out.positions == st.book.positions && out.equityCurve == st.curve.equity
    && out.fundingLedger == (if perp then st.book.fundingLedger else [])
    && m.startingEquity == account.startingBalance
    && m.endingEquity
       == (if out.equityCurve == [] then m.startingEquity else out.equityCurve[|out.equityCurve| - 1].equity)
    && m.netPnl == m.endingEquity - m.startingEquity && m.startingEquity > 0
    && m.totalReturnRate == TruncDiv(m.netPnl * account.rateScale, m.startingEquity)
    && m.maxDrawdown == st.curve.maxDrawdown && m.maxDrawdownRate == st.curve.maxDrawdownRate
    && m.totalFees == st.book.totalFees && m.totalSlippage == st.book.totalSlippage
    && m.totalStampDuty == (if perp then 0 else st.book.totalStampDuty)
    && m.totalFunding == (if perp then st.book.totalFunding else 0)
    && m.fillCount == |out.trades| && m.closedCount == st.book.closedCount
    && m.openCount == (if st.book.quantity != 0 then 1 else 0)
  }

  lemma {:induction false} FinishPublishes(input: Input, st: State)
    requires input.account.startingBalance > 0 && Finish(input, st).Ok?
    ensures Published(input.account, st, Finish(input, st).value)
  {
  }

  lemma {:induction false} FinishedMetrics(input: Input)
    requires RunEngine(input).Ok?
    ensures ValidInput(input) && Replay(input, |input.bars|).Ok?
    ensures Published(input.account, Replay(input, |input.bars|).value, RunEngine(input).value)
  {
    FinishPublishes(input, Replay(input, |input.bars|).value);
  }

  /** The book's totals are those of its records. */
  ghost predicate SumsKept(account: Account, b: Book) {
    && b.totalFees == Sum(Trades(b.trades), R.FeeOf) && b.totalSlippage == Sum(Trades(b.trades), R.SlippageOf)
    && b.totalStampDuty == Sum(Trades(b.trades), R.StampDutyOf)
    && b.totalFunding == -Sum(Deltas(b.fundingLedger), R.DeltaOf)
    && (account.model == LinearPerp ==> b.totalStampDuty == 0) && LastQuantity(b.positions) == b.quantity
  }

  lemma {:induction false} FinalSums(input: Input, st: State)
    requires Recomputed(input, input.bars, st)
    ensures SumsKept(input.account, st.book)
  {
    var trades, ledger := st.book.trades, st.book.fundingLedger;
    TotalsAreSums(trades, |trades|);
    FundingIsSum(ledger, |ledger|);
    assert Trades(trades)[..|trades|] == Trades(trades) && Deltas(ledger)[..|ledger|] == Deltas(ledger);
  }

  lemma {:induction false} EquityAgrees(account: Account, st: State, out: Output)
    requires Published(account, st, out) && account.rateScale == R.RATE_SCALE && RunningKept(account, st.curve)
    ensures var m, s := out.metrics, R.SummaryOf(ResultOf(out)).metrics;
            && m.startingEquity == s.startingEquity && m.endingEquity == s.endingEquity && m.netPnl == s.netPnl
            && m.totalReturnRate == s.totalReturnRate
            && m.maxDrawdown == s.maxDrawdown && m.maxDrawdownRate == s.maxDrawdownRate
  {
    R.TruncDivsAgree(out.metrics.netPnl * R.RATE_SCALE, out.metrics.startingEquity);
  }

  lemma {:induction false} TotalsAgree(account: Account, st: State, out: Output)
    requires Published(account, st, out) && SumsKept(account, st.book)
    ensures var m, s := out.metrics, R.SummaryOf(ResultOf(out)).metrics;
            && m.totalFees == s.totalFees && m.totalStampDuty == s.totalStampDuty
            && m.totalFunding == s.totalFunding && m.totalSlippage == s.totalSlippage
            && m.fillCount == s.fillCount && m.openCount == s.openCount
  {
    OpenCountIs(out.positions);
    if account.model == AShareCash { assert Deltas(out.fundingLedger) == []; }
  }

  lemma {:induction false} MetricsAgree(account: Account, st: State, out: Output)
    requires Published(account, st, out) && account.rateScale == R.RATE_SCALE
    requires SumsKept(account, st.book) && RunningKept(account, st.curve) && Counted(account, st.book)
    ensures |out.trades| == |out.positions|
    ensures var result := ResultOf(out);
            && result.metrics == R.SummaryOf(result).metrics.(closedCount := result.metrics.closedCount)
            && result.metrics.closedCount == R.FlatCloses(result.trades, result.positions)
  {
    EquityAgrees(account, st, out);
    TotalsAgree(account, st, out);
  }

  /** Every metric but the closed trades agrees; that one agrees exactly when every
      close leaves the account flat. */
  lemma {:induction false} ReconcilesExactly(input: Input)
    requires RunEngine(input).Ok? && input.account.rateScale == R.RATE_SCALE
    ensures var out := RunEngine(input).value;
            && |out.trades| == |out.positions|
            && (R.Reconciles(ResultOf(out)) <==>
                forall i :: 0 <= i < |out.trades| && out.trades[i].effect == Close ==> out.positions[i].quantity == 0)
    ensures input.account.model == LinearPerp ==> R.Reconciles(ResultOf(RunEngine(input).value))
  {
    FinishedMetrics(input);
    var n := |input.bars|;
    var st := Replay(input, n).value;
    RunIsRecomputed(input, n);
    assert input.bars[..n] == input.bars;
    FinalSums(input, st);
    RunKeepsRunning(input, n);
    RunCounts(input, n);
    PublishedReconciles(input.account, st, RunEngine(input).value);
  }

  lemma {:induction false} PublishedReconciles(account: Account, st: State, out: Output)
    requires Published(account, st, out) && account.rateScale == R.RATE_SCALE
    requires SumsKept(account, st.book) && RunningKept(account, st.curve) && Counted(account, st.book)
    ensures |out.trades| == |out.positions|
    ensures R.Reconciles(ResultOf(out)) <==>
              forall i :: 0 <= i < |out.trades| && out.trades[i].effect == Close ==> out.positions[i].quantity == 0
    ensures account.model == LinearPerp ==> R.Reconciles(ResultOf(out))
  {
    MetricsAgree(account, st, out);
    R.AgreeingReconciles(ResultOf(out));
  }
}
