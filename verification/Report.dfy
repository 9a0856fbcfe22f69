/** The run report: a second computation of the metrics, in batch, from the records an
    engine published, and the comparison with what the engine published. */
module Report {
  import opened Checked
  import opened Events
  import opened Sequences

  const RATE_SCALE := 1_000_000

  /** One point of an equity curve; only v2 publishes a market value. */
  datatype Point = Point(equity: int, cash: int, marketValue: int)

  datatype Trade = Trade(fee: int, stampDuty: int, slippage: int, closes: bool)

  /** A v1 position record names no symbol. */
  datatype Position = Position(symbol: Option<Symbol>, quantity: int)

  datatype Metrics = Metrics(
    startingEquity: int, endingEquity: int, netPnl: int, totalReturnRate: int,
    maxDrawdown: int, maxDrawdownRate: int, totalFees: int, totalStampDuty: int,
    totalFunding: int, totalSlippage: int, fillCount: int, closedCount: int, openCount: int)

  datatype Costs = Costs(commission: int, stampDuty: int, funding: int, slippage: int)

  datatype EngineResult = EngineResult(
    schema: nat, metrics: Metrics, costs: Costs, curve: seq<Point>, trades: seq<Trade>,
    orderCount: nat, positions: seq<Position>, walletDeltas: seq<int>)

  datatype Summary = Summary(metrics: Metrics, grossExposure: int, netExposure: int, orderCount: nat)

  function Abs(x: int): int { if x < 0 then -x else x }

  /** Python's floor division of the absolute values, with the sign put back. */
  function PythonTruncDiv(numerator: int, denominator: int): int {
    if denominator == 0 then 0
    else
      var quotient := Abs(numerator) / Abs(denominator);
      if (numerator < 0) != (denominator < 0) then -quotient else quotient
  }

  /** It is the division of the engine. */
  lemma {:induction false} TruncDivsAgree(a: int, b: int)
    requires b != 0
    ensures PythonTruncDiv(a, b) == TruncDiv(a, b)
  {
    if b < 0 {
      NegativeDivisor(a, b);
      NegativeDivisor(-a, b);
    }
  }

  lemma {:induction false} NegativeDivisor(a: int, b: int)
    requires b < 0
    ensures a >= 0 ==> a / b == -(a / -b)
  {
    if a >= 0 {
      DivBounds(a, -b);
      var q := a / -b;
      assert a == b * (-q) + (a - (-b) * q) by { assert b * (-q) == (-b) * q; }
      QuotientIs(a, b, -q, a - (-b) * q);
    }
  }

  lemma {:induction false} QuotientIs(a: int, b: int, q: int, r: int)
    requires b < 0 && a == b * q + r && 0 <= r < -b
    ensures a / b == q
  {
    assert a == b * (a / b) + a % b;
    var d := a / b - q;
    assert b * d == b * (a / b) - b * q;
    assert (-b) * d == -(b * d) && (-b) * (-d) == b * d;
    if d > 0 { MulMonotone(1, d, -b); }
    if d < 0 { MulMonotone(1, -d, -b); }
  }

  // ---- the reference computation ----

  datatype Running = Running(peak: int, maxDrawdown: int, maxDrawdownRate: int)

  function RunOver(r: Running, p: Point): Running {
    var peak := Max(r.peak, p.equity);
    var drawdown := p.equity - peak;
    Running(peak, Min(r.maxDrawdown, drawdown), Min(r.maxDrawdownRate, PythonTruncDiv(drawdown * RATE_SCALE, peak)))
  }

  function RunningOf(start: int, curve: seq<Point>): Running {
    if curve == [] then Running(start, 0, 0)
    else RunOver(RunningOf(start, curve[..|curve| - 1]), curve[|curve| - 1])
  }

  function FeeOf(t: Trade): int { t.fee }

  function StampDutyOf(t: Trade): int { t.stampDuty }

  function SlippageOf(t: Trade): int { t.slippage }

  function CloseOf(t: Trade): int { if t.closes then 1 else 0 }

  function DeltaOf(delta: int): int { delta }

  /** The last quantity recorded for each symbol. */
  function LastPositions(positions: seq<Position>): map<Option<Symbol>, int> {
    if positions == [] then map[]
    else
      var last := positions[|positions| - 1];
      LastPositions(positions[..|positions| - 1])[last.symbol := last.quantity]
  }

  function OpenSymbols(last: map<Option<Symbol>, int>): set<Option<Symbol>> {
    set s | s in last && last[s] != 0
  }

  function EndingEquity(result: EngineResult): int {
    if result.curve == [] then result.metrics.startingEquity else result.curve[|result.curve| - 1].equity
  }

  function NetExposure(result: EngineResult): int {
    if result.curve == [] then 0
    else
      var final := result.curve[|result.curve| - 1];
      if result.schema == 2 then final.marketValue else final.equity - final.cash
  }

  function SummaryOf(result: EngineResult): Summary {
    var start, ending := result.metrics.startingEquity, EndingEquity(result);
    var running := RunningOf(start, result.curve);
    var net := NetExposure(result);
    Summary(
      Metrics(start, ending, ending - start, PythonTruncDiv((ending - start) * RATE_SCALE, start),
              running.maxDrawdown, running.maxDrawdownRate,
              Sum(result.trades, FeeOf), Sum(result.trades, StampDutyOf), -Sum(result.walletDeltas, DeltaOf),
              Sum(result.trades, SlippageOf), |result.trades|, Sum(result.trades, CloseOf),
              |OpenSymbols(LastPositions(result.positions))|),
      if result.schema == 2 then net else Abs(net), net, result.orderCount)
  }

  /** The loop over the curve. */
  method DrawdownLoop(start: int, curve: seq<Point>) returns (maxDrawdown: int, maxDrawdownRate: int)
    ensures maxDrawdown == RunningOf(start, curve).maxDrawdown
    ensures maxDrawdownRate == RunningOf(start, curve).maxDrawdownRate
  {
    var peak := start;
    maxDrawdown, maxDrawdownRate := 0, 0;
    for i := 0 to |curve|
      invariant RunningOf(start, curve[..i]) == Running(peak, maxDrawdown, maxDrawdownRate)
    {
      assert curve[..i + 1][..i] == curve[..i];
      peak := Max(peak, curve[i].equity);
      var drawdown := curve[i].equity - peak;
      var rate := PythonTruncDiv(drawdown * RATE_SCALE, peak);
      maxDrawdown := Min(maxDrawdown, drawdown);
      maxDrawdownRate := Min(maxDrawdownRate, rate);
    }
    assert curve[..|curve|] == curve;
  }

  method SumLoop<T>(xs: seq<T>, f: T -> int) returns (total: int)
    ensures total == Sum(xs, f)
  {
    total := 0;
    for i := 0 to |xs|
      invariant total == Sum(xs[..i], f)
    {
      assert xs[..i + 1][..i] == xs[..i];
      total := total + f(xs[i]);
    }
    assert xs[..|xs|] == xs;
  }

  /** The dictionary that later records overwrite. */
  method LastPositionsLoop(positions: seq<Position>) returns (last: map<Option<Symbol>, int>)
    ensures last == LastPositions(positions)
  {
    last := map[];
    for i := 0 to |positions|
      invariant last == LastPositions(positions[..i])
    {
      assert positions[..i + 1][..i] == positions[..i];
      last := last[positions[i].symbol := positions[i].quantity];
    }
    assert positions[..|positions|] == positions;
  }

  method ReferenceSummary(result: EngineResult) returns (s: Summary)
    ensures s == SummaryOf(result)
  {
    var start, ending := result.metrics.startingEquity, EndingEquity(result);
    var maxDrawdown, maxDrawdownRate := DrawdownLoop(start, result.curve);
    var fees := SumLoop(result.trades, FeeOf);
    var stampDuty := SumLoop(result.trades, StampDutyOf);
    var slippage := SumLoop(result.trades, SlippageOf);
    var movement := SumLoop(result.walletDeltas, DeltaOf);
    var closed := SumLoop(result.trades, CloseOf);
    var last := LastPositionsLoop(result.positions);
    var net := NetExposure(result);
    s := Summary(
      Metrics(start, ending, ending - start, PythonTruncDiv((ending - start) * RATE_SCALE, start),
              maxDrawdown, maxDrawdownRate, fees, stampDuty, -movement, slippage,
              |result.trades|, closed, |OpenSymbols(last)|),
      if result.schema == 2 then net else Abs(net), net, result.orderCount);
  }

  // ---- reconciliation ----

  datatype Check = Check(expected: int, actual: int, passed: bool)

  /** Field by field, in the order of the report. */
  function Fields(m: Metrics): seq<int> {
    [m.startingEquity, m.endingEquity, m.netPnl, m.totalReturnRate, m.maxDrawdown, m.maxDrawdownRate,
     m.totalFees, m.totalStampDuty, m.totalFunding, m.totalSlippage, m.fillCount, m.closedCount, m.openCount]
  }

  function CostFields(c: Costs): seq<int> { [c.commission, c.stampDuty, c.funding, c.slippage] }

  function CostsOf(m: Metrics): Costs { Costs(m.totalFees, m.totalStampDuty, m.totalFunding, m.totalSlippage) }

  method Compare(expected: seq<int>, actual: seq<int>) returns (checks: seq<Check>)
    requires |expected| == |actual|
    ensures |checks| == |expected|
    ensures forall i :: 0 <= i < |checks| ==> checks[i] == Check(expected[i], actual[i], expected[i] == actual[i])
  {
    checks := [];
    for i := 0 to |expected|
      invariant |checks| == i
      invariant forall j :: 0 <= j < i ==> checks[j] == Check(expected[j], actual[j], expected[j] == actual[j])
    {
      checks := checks + [Check(expected[i], actual[i], expected[i] == actual[i])];
    }
  }

  /** What the engine published is what the report computed. */
  predicate Reconciles(result: EngineResult) {
    result.metrics == SummaryOf(result).metrics && result.costs == CostsOf(SummaryOf(result).metrics)
  }

  method Reconciliation(result: EngineResult, summary: Summary) returns (passed: bool, checks: seq<Check>)
    requires summary == SummaryOf(result)
    ensures passed <==> Reconciles(result)
    ensures passed <==> forall i :: 0 <= i < |checks| ==> checks[i].passed
    ensures |checks| == 17
  {
    var expected, actual := Fields(result.metrics), Fields(summary.metrics);
    var metricChecks := Compare(expected, actual);
    var costsExpected, costsActual := CostFields(result.costs), CostFields(CostsOf(summary.metrics));
    var costChecks := Compare(costsExpected, costsActual);
    checks := metricChecks + costChecks;
    passed := forall i :: 0 <= i < |checks| ==> checks[i].passed;
    SameFields(result.metrics, summary.metrics);
    SameCosts(result.costs, CostsOf(summary.metrics));
    if passed {
      forall i | 0 <= i < |expected| ensures expected[i] == actual[i] { assert checks[i].passed; }
      forall i | 0 <= i < |costsExpected|
        ensures costsExpected[i] == costsActual[i]
      {
        assert checks[|expected| + i].passed;
      }
    }
  }

  lemma {:induction false} SameFields(m: Metrics, n: Metrics)
    ensures m == n <==> forall i :: 0 <= i < |Fields(m)| ==> Fields(m)[i] == Fields(n)[i]
  {
    if forall i :: 0 <= i < |Fields(m)| ==> Fields(m)[i] == Fields(n)[i] {
      assert Fields(m) == Fields(n);
      assert Fields(m)[0] == Fields(n)[0] && Fields(m)[1] == Fields(n)[1] && Fields(m)[2] == Fields(n)[2];
      assert Fields(m)[3] == Fields(n)[3] && Fields(m)[4] == Fields(n)[4] && Fields(m)[5] == Fields(n)[5];
      assert Fields(m)[6] == Fields(n)[6] && Fields(m)[7] == Fields(n)[7] && Fields(m)[8] == Fields(n)[8];
      assert Fields(m)[9] == Fields(n)[9] && Fields(m)[10] == Fields(n)[10] && Fields(m)[11] == Fields(n)[11];
      assert Fields(m)[12] == Fields(n)[12];
    }
  }

  lemma {:induction false} SameCosts(c: Costs, d: Costs)
    ensures c == d <==> forall i :: 0 <= i < |CostFields(c)| ==> CostFields(c)[i] == CostFields(d)[i]
  {
    if forall i :: 0 <= i < |CostFields(c)| ==> CostFields(c)[i] == CostFields(d)[i] {
      assert CostFields(c)[0] == CostFields(d)[0] && CostFields(c)[1] == CostFields(d)[1];
      assert CostFields(c)[2] == CostFields(d)[2] && CostFields(c)[3] == CostFields(d)[3];
    }
  }

  // ---- closing trades that leave a position ----

  /** Closing trades after which the position record says zero. */
  function FlatCloses(trades: seq<Trade>, positions: seq<Position>): nat
    requires |trades| == |positions|
  {
    if trades == [] then 0
    else
      var n := |trades| - 1;
      FlatCloses(trades[..n], positions[..n]) + if trades[n].closes && positions[n].quantity == 0 then 1 else 0
  }

  ghost predicate ClosesLeaveFlat(trades: seq<Trade>, positions: seq<Position>)
    requires |trades| == |positions|
  {
    forall i :: 0 <= i < |trades| && trades[i].closes ==> positions[i].quantity == 0
  }

  /** The two ways of counting closed trades agree exactly when every close leaves its
      position flat. */
  lemma {:induction false} CountsAgreeExactly(trades: seq<Trade>, positions: seq<Position>)
    requires |trades| == |positions|
    ensures Sum(trades, CloseOf) >= FlatCloses(trades, positions)
    ensures Sum(trades, CloseOf) == FlatCloses(trades, positions) <==> ClosesLeaveFlat(trades, positions)
  {
    if trades != [] {
      var n := |trades| - 1;
      var ts, ps := trades[..n], positions[..n];
      CountsAgreeExactly(ts, ps);
      if ClosesLeaveFlat(trades, positions) {
        forall i | 0 <= i < |ts| && ts[i].closes ensures ps[i].quantity == 0 { assert ts[i] == trades[i]; }
      }
      if ClosesLeaveFlat(ts, ps) && (trades[n].closes ==> positions[n].quantity == 0) {
        forall i | 0 <= i < |trades| && trades[i].closes ensures positions[i].quantity == 0 {
          if i < n { assert ts[i] == trades[i] && ps[i] == positions[i]; }
        }
      }
    }
  }

  /** Where every metric but the closed trades agrees, that one decides. */
  lemma {:induction false} AgreeingReconciles(result: EngineResult)
    requires |result.trades| == |result.positions| && result.costs == CostsOf(result.metrics)
    requires result.metrics == SummaryOf(result).metrics.(closedCount := result.metrics.closedCount)
    requires result.metrics.closedCount == FlatCloses(result.trades, result.positions)
    ensures Reconciles(result) <==> ClosesLeaveFlat(result.trades, result.positions)
  {
    CountsAgreeExactly(result.trades, result.positions);
    assert SummaryOf(result).metrics.closedCount == Sum(result.trades, CloseOf);
  }

  lemma {:induction false} FlatClosesAppend(trades: seq<Trade>, positions: seq<Position>, t: Trade, p: Position)
    requires |trades| == |positions|
    ensures FlatCloses(trades + [t], positions + [p])
            == FlatCloses(trades, positions) + if t.closes && p.quantity == 0 then 1 else 0
  {
    assert (trades + [t])[..|trades|] == trades && (positions + [p])[..|positions|] == positions;
  }

  /** An engine that divides as the report does keeps the same running extremes. */
  lemma {:induction false} RunningAppend(start: int, curve: seq<Point>, p: Point)
    ensures RunningOf(start, curve + [p]) == RunOver(RunningOf(start, curve), p)
  {
    assert (curve + [p])[..|curve|] == curve;
  }

  lemma {:induction false} LastPositionsAppend(positions: seq<Position>, p: Position)
    ensures LastPositions(positions + [p]) == LastPositions(positions)[p.symbol := p.quantity]
  {
    assert (positions + [p])[..|positions|] == positions;
  }
}
