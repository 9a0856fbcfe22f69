/** A state the validators accept is the state of the engine. The engine is run beside
    the order scan: it takes the same intents in the same order, and its next fill is
    the next trade of the accepted list, which it books or overflows on. In the end
    both states hold records that determine everything else. */
module ValidatorSoundness {
  import opened Checked
  import opened Events
  import opened Folds
  import opened Ids
  import opened Engine
  import opened EngineInduction
  import opened EngineAccounting
  import opened Validator
  import opened ValidatorMirror
  import opened ValidatorCurve
  import opened ValidatorLedger
  import opened ValidatorOrders
  import Order = EngineOrder

  // ---- the accepted records ----

  /** Trades and positions that pass their scan, and are the fills of the order scan. */
  ghost predicate Claimed(input: Input, bars: seq<Bar>, trades: seq<TradeRecord>, positions: seq<PositionRecord>,
      final: OrderScan) {
    && Fold(BarCheck(input, trades), EMPTY_ORDER_SCAN, bars, 0, |bars|) == Ok(final)
    && FilledIds(final.log.orders) == TradeIds(trades)
    && |trades| == |positions| && DistinctTrades(trades)
    && Fold(TradeCheck(input, bars), EMPTY_SCAN, Zip(trades, positions), 0, |trades|).Ok?
  }

  /** The engine stands where the scans stand. */
  ghost predicate Alongside(input: Input, bars: seq<Bar>, trades: seq<TradeRecord>, positions: seq<PositionRecord>,
      st: State, s: OrderScan) {
    && Recomputed(input, bars, st) && Accounts(st, input.intents)
    && st.log == s.log && st.book.trades <= trades && st.book.positions <= positions
  }

  /** A run that is still alongside, or has stopped for an excused reason. */
  ghost predicate StaysAlongside(input: Input, bars: seq<Bar>, trades: seq<TradeRecord>, positions: seq<PositionRecord>,
      r: Result<State>, s: OrderScan) {
    match r
    case Ok(st) => Alongside(input, bars, trades, positions, st, s)
    case Err(e) => Excused(input.account, e)
  }

  lemma {:induction false} FilledIdsGrow(xs: seq<OrderRecord>, ys: seq<OrderRecord>)
    requires xs <= ys
    ensures FilledIds(xs) <= FilledIds(ys)
  {
    if |xs| < |ys| {
      assert xs <= ys[..|ys| - 1];
      FilledIdsGrow(xs, ys[..|ys| - 1]);
    } else {
      assert xs == ys;
    }
  }

  lemma {:induction false} DistinctFound(trades: seq<TradeRecord>, i: nat)
    requires DistinctTrades(trades) && i < |trades|
    ensures TradeById(trades, trades[i].id) == Some(trades[i])
  {
    if i > 0 {
      assert trades[0].id != trades[i].id;
      var tail := trades[1..];
      assert tail[i - 1] == trades[i];
      DistinctFound(tail, i - 1);
    }
  }

  /** The fill of an accepted scan is the next trade of the list. */
  lemma {:induction false} NextTrade(trades: seq<TradeRecord>, done: seq<TradeRecord>, orders: seq<OrderRecord>,
      o: OrderRecord, final: seq<OrderRecord>)
    requires DistinctTrades(trades) && done <= trades && FilledIds(final) == TradeIds(trades)
    requires FilledIds(orders) == TradeIds(done) && o.status == Filled && orders + [o] <= final
    ensures |done| < |trades| && trades[|done|].id == o.id
    ensures TradeById(trades, o.id) == Some(trades[|done|])
  {
    var n := |done|;
    assert (orders + [o])[..|orders|] == orders;
    FilledIdsGrow(orders + [o], final);
    assert FilledIds(orders + [o])[n] == o.id;
    assert TradeIds(trades)[n] == o.id;
    DistinctFound(trades, n);
  }

  /** The scan state before the next trade is the one the engine's own trades give. */
  lemma {:induction false} ScanStandsThere(input: Input, bars: seq<Bar>, trades: seq<TradeRecord>,
      positions: seq<PositionRecord>, b: Book)
    requires |trades| == |positions| && b.trades <= trades && b.positions <= positions && |b.trades| < |trades|
    requires TradesScanned(input, bars, b)
    requires Fold(TradeCheck(input, bars), EMPTY_SCAN, Zip(trades, positions), 0, |trades|).Ok?
    ensures var n := |b.trades|;
            && ScanTrades(input, bars, b).Ok? && Mirrors(ScanTrades(input, bars, b).value, b)
            && CheckTrade(input, bars, ScanTrades(input, bars, b).value, trades[n], positions[n]).Ok?
  {
    var n := |b.trades|;
    FoldSameItems(TradeCheck(input, bars), EMPTY_SCAN, Zip(b.trades, b.positions), Zip(trades, positions), n);
    FoldPassedAt(TradeCheck(input, bars), EMPTY_SCAN, Zip(trades, positions), |trades|, n);
  }

  lemma {:induction false} NextOfPrefix<T>(xs: seq<T>, ys: seq<T>)
    requires xs <= ys && |xs| < |ys|
    ensures xs + [ys[|xs|]] <= ys
  {
  }

  /** The engine books the next trade of the list, or stops for an excused reason. */
  lemma {:induction false} NextIsBooked(input: Input, bars: seq<Bar>, trades: seq<TradeRecord>,
      positions: seq<PositionRecord>, bar: Bar, b: Book, t: Intent, fill: Fill)
    requires |trades| == |positions| && b.trades <= trades && b.positions <= positions && |b.trades| < |trades|
    requires Fold(TradeCheck(input, bars), EMPTY_SCAN, Zip(trades, positions), 0, |trades|).Ok?
    requires TradesScanned(input, bars, b) && Fills(input, bars, bar, t, fill)
    requires trades[|b.trades|].id == t.id && trades[|b.trades|].session == bar.seqNo
    ensures match BookFill(input.account, bar.seqNo, b, t, fill)
            case Ok(next) => next.trades <= trades && next.positions <= positions
            case Err(e) => Excused(input.account, e)
  {
    var n := |b.trades|;
    ScanStandsThere(input, bars, trades, positions, b);
    CheckedIsBooked(input, bars, bar, ScanTrades(input, bars, b).value, b, t, fill, trades[n], positions[n]);
    NextOfPrefix(b.trades, trades);
    NextOfPrefix(b.positions, positions);
  }

  lemma {:induction false} FillAlongside(input: Input, bars: seq<Bar>, trades: seq<TradeRecord>,
      positions: seq<PositionRecord>, final: OrderScan, bar: Bar, st: State, t: Intent, fill: Fill)
    requires Claimed(input, bars, trades, positions, final)
    requires TradesScanned(input, bars, st.book) && Accounts(st, input.intents)
    requires st.book.trades <= trades && st.book.positions <= positions
    requires Fills(input, bars, bar, t, fill)
    requires st.log.orders + [OrderOf(t, Filled, Some(bar.seqNo), Some(fill.phase))] <= final.log.orders
    requires TradeById(trades, t.id).Some? && TradeById(trades, t.id).value.session == bar.seqNo
    ensures match BookFill(input.account, bar.seqNo, st.book, t, fill)
            case Ok(next) => next.trades <= trades && next.positions <= positions
            case Err(e) => Excused(input.account, e)
  {
    NextTrade(trades, st.book.trades, st.log.orders, OrderOf(t, Filled, Some(bar.seqNo), Some(fill.phase)),
              final.log.orders);
    NextIsBooked(input, bars, trades, positions, bar, st.book, t, fill);
  }

  lemma {:induction false} IntentKeepsStanding(input: Input, bars: seq<Bar>, bar: Bar, st: State, t: Intent)
    requires ValidTape(input.intents, input.account) && t in input.intents && Live(t, bar.seqNo)
    requires BarBySession(bars, bar.seqNo) == Some(bar) && Recomputed(input, bars, st) && Accounts(st, input.intents)
    requires t.id !in st.log.completed && ProcessIntent(input.account, bar, st, t).Ok?
    ensures Recomputed(input, bars, ProcessIntent(input.account, bar, st, t).value)
    ensures Accounts(ProcessIntent(input.account, bar, st, t).value, input.intents)
  {
    IntentIsFound(input.intents, t);
    IntentKeepsRecomputed(input, bars, bar, st, t);
    IntentAccounted(input, bar, st, t);
  }

  lemma {:induction false} IntentAlongside(input: Input, bars: seq<Bar>, trades: seq<TradeRecord>,
      positions: seq<PositionRecord>, final: OrderScan, bar: Bar, st: State, s: OrderScan, t: Intent)
    requires ValidTape(input.intents, input.account) && t in input.intents && Live(t, bar.seqNo)
    requires Claimed(input, bars, trades, positions, final) && BarBySession(bars, bar.seqNo) == Some(bar)
    requires Alongside(input, bars, trades, positions, st, s) && t.id !in s.log.completed
    requires ScanIntent(input.account, bar, trades, s, t).Ok?
    requires ScanIntent(input.account, bar, trades, s, t).value.log.orders <= final.log.orders
    ensures StaysAlongside(input, bars, trades, positions, ProcessIntent(input.account, bar, st, t),
                           ScanIntent(input.account, bar, trades, s, t).value)
  {
    IntentIsFound(input.intents, t);
    if !OcoDone(s.log, t) && FillDecision(input.account, bar, t).value.Some? {
      FillAlongside(input, bars, trades, positions, final, bar, st, t, FillDecision(input.account, bar, t).value.value);
    }
    if ProcessIntent(input.account, bar, st, t).Ok? {
      IntentKeepsStanding(input, bars, bar, st, t);
      IntentParts(input.account, bar, st, t);
    }
  }

  // ---- scans only add orders ----

  ghost predicate OrdersGrow(a: OrderScan, b: OrderScan) { a.log.orders <= b.log.orders }

  lemma {:induction false} ScanGrows(account: Account, bar: Bar, trades: seq<TradeRecord>, s: OrderScan,
      due: seq<Intent>, m: nat, n: nat)
    requires m <= n <= |due| && Fold(IntentCheck(account, bar, trades), s, due, 0, n).Ok?
    ensures Fold(IntentCheck(account, bar, trades), s, due, 0, m).Ok?
    ensures OrdersGrow(Fold(IntentCheck(account, bar, trades), s, due, 0, m).value,
                       Fold(IntentCheck(account, bar, trades), s, due, 0, n).value)
  {
    if m < n { ScanGrows(account, bar, trades, s, due, m, n - 1); }
  }

  lemma {:induction false} BarsScanGrows(input: Input, trades: seq<TradeRecord>, bars: seq<Bar>, m: nat, n: nat)
    requires m <= n <= |bars| && Fold(BarCheck(input, trades), EMPTY_ORDER_SCAN, bars, 0, n).Ok?
    ensures Fold(BarCheck(input, trades), EMPTY_ORDER_SCAN, bars, 0, m).Ok?
    ensures OrdersGrow(Fold(BarCheck(input, trades), EMPTY_ORDER_SCAN, bars, 0, m).value,
                       Fold(BarCheck(input, trades), EMPTY_ORDER_SCAN, bars, 0, n).value)
  {
    if m < n {
      BarsScanGrows(input, trades, bars, m, n - 1);
      var before := Fold(BarCheck(input, trades), EMPTY_ORDER_SCAN, bars, 0, n - 1).value;
      var due := Schedule(input.intents, before.log.completed, bars[n - 1].seqNo);
      assert ScanBar(input, trades, before, bars[n - 1]).Ok?;
      ScanGrows(input.account, bars[n - 1], trades, before, due, 0, |due|);
    }
  }

  // ---- what else can stop a bar ----

  lemma {:induction false} FundingOnlyOverflows(account: Account, b: Book, event: FundingEvent)
    requires account.rateScale > 0 && BookFunding(account, b, event).Err?
    ensures BookFunding(account, b, event) == Err(Overflow)
  {
  }

  lemma {:induction false} FundingsOnlyOverflow(account: Account, b: Book, events: seq<FundingEvent>, n: nat)
    requires account.rateScale > 0 && n <= |events| && BookFundings(account, b, events, n).Err?
    ensures BookFundings(account, b, events, n) == Err(Overflow)
  {
    if BookFundings(account, b, events, n - 1).Err? {
      FundingsOnlyOverflow(account, b, events, n - 1);
    } else {
      FundingOnlyOverflows(account, BookFundings(account, b, events, n - 1).value, events[n - 1]);
    }
  }

  lemma {:induction false} MarkOnlyOverflows(account: Account, bar: Bar, b: Book, c: Curve)
    requires c.peak > 0 && LastValues(account, b) && MarkCurve(account, bar, b, c).Err?
    ensures MarkCurve(account, bar, b, c) == Err(Overflow)
  {
  }

  // ---- one bar ----

  /** The engine and the scan after n intents of a schedule, as long as the scan leads to the
      final one. */
  ghost predicate AlongsideAfter(input: Input, bars: seq<Bar>, trades: seq<TradeRecord>, positions: seq<PositionRecord>,
      final: OrderScan, bar: Bar, st: State, s: OrderScan, due: seq<Intent>, n: nat)
    requires n <= |due|
  {
    var scanned := Fold(IntentCheck(input.account, bar, trades), s, due, 0, n);
    scanned.Ok? && scanned.value.log.orders <= final.log.orders ==>
      StaysAlongside(input, bars, trades, positions, ProcessIntents(input.account, bar, st, due, n), scanned.value)
  }

  lemma {:induction false} LastScan(account: Account, bar: Bar, trades: seq<TradeRecord>, s: OrderScan,
      due: seq<Intent>, n: nat, final: OrderScan)
    requires 0 < n <= |due| && Fold(IntentCheck(account, bar, trades), s, due, 0, n).Ok?
    requires Fold(IntentCheck(account, bar, trades), s, due, 0, n).value.log.orders <= final.log.orders
    ensures Fold(IntentCheck(account, bar, trades), s, due, 0, n - 1).Ok?
    ensures Fold(IntentCheck(account, bar, trades), s, due, 0, n - 1).value.log.orders <= final.log.orders
    ensures ScanIntent(account, bar, trades, Fold(IntentCheck(account, bar, trades), s, due, 0, n - 1).value,
                       due[n - 1])
            == Fold(IntentCheck(account, bar, trades), s, due, 0, n)
  {
    ScanGrows(account, bar, trades, s, due, n - 1, n);
  }

  /** One step of a run that may have stopped. */
  function AfterIntent(account: Account, bar: Bar, reached: Result<State>, t: Intent): Result<State> {
    if reached.Ok? then ProcessIntent(account, bar, reached.value, t) else reached
  }

  lemma {:induction false} LastIntent(account: Account, bar: Bar, st: State, due: seq<Intent>, n: nat)
    requires 0 < n <= |due|
    ensures ProcessIntents(account, bar, st, due, n)
            == AfterIntent(account, bar, ProcessIntents(account, bar, st, due, n - 1), due[n - 1])
  {
  }

  lemma {:induction false} IntentStaysAlongside(input: Input, bars: seq<Bar>, trades: seq<TradeRecord>,
      positions: seq<PositionRecord>, final: OrderScan, bar: Bar, reached: Result<State>, s: OrderScan, t: Intent,
      next: Result<State>, scanned: OrderScan)
    requires ValidTape(input.intents, input.account) && t in input.intents && Live(t, bar.seqNo)
    requires Claimed(input, bars, trades, positions, final) && BarBySession(bars, bar.seqNo) == Some(bar)
    requires StaysAlongside(input, bars, trades, positions, reached, s) && t.id !in s.log.completed
    requires ScanIntent(input.account, bar, trades, s, t) == Ok(scanned) && scanned.log.orders <= final.log.orders
    requires AfterIntent(input.account, bar, reached, t) == next
    ensures StaysAlongside(input, bars, trades, positions, next, scanned)
  {
    if reached.Ok? { IntentAlongside(input, bars, trades, positions, final, bar, reached.value, s, t); }
  }

  /** The scan and the engine before and after the last of n intents. */
  lemma {:induction false} LastTurn(input: Input, trades: seq<TradeRecord>, final: OrderScan, bar: Bar, st: State,
      s: OrderScan, due: seq<Intent>, n: nat)
    requires 0 < n <= |due| && Waiting(input.intents, s.log, bar.seqNo, due)
    requires Fold(IntentCheck(input.account, bar, trades), s, due, 0, n).Ok?
    requires Fold(IntentCheck(input.account, bar, trades), s, due, 0, n).value.log.orders <= final.log.orders
    ensures due[n - 1] in input.intents && Live(due[n - 1], bar.seqNo)
    ensures var before := Fold(IntentCheck(input.account, bar, trades), s, due, 0, n - 1);
            && before.Ok? && before.value.log.orders <= final.log.orders && due[n - 1].id !in before.value.log.completed
            && ScanIntent(input.account, bar, trades, before.value, due[n - 1])
               == Fold(IntentCheck(input.account, bar, trades), s, due, 0, n)
    ensures AfterIntent(input.account, bar, ProcessIntents(input.account, bar, st, due, n - 1), due[n - 1])
            == ProcessIntents(input.account, bar, st, due, n)
  {
    LastScan(input.account, bar, trades, s, due, n, final);
    LastIntent(input.account, bar, st, due, n);
    TurnComes(input.intents, input.account, bar, trades, s, due, n - 1);
  }

  lemma {:induction false} IntentsAlongsideNext(input: Input, bars: seq<Bar>, trades: seq<TradeRecord>,
      positions: seq<PositionRecord>, final: OrderScan, bar: Bar, st: State, s: OrderScan, due: seq<Intent>, n: nat)
    requires ValidTape(input.intents, input.account) && 0 < n <= |due| && Waiting(input.intents, s.log, bar.seqNo, due)
    requires Claimed(input, bars, trades, positions, final) && BarBySession(bars, bar.seqNo) == Some(bar)
    requires AlongsideAfter(input, bars, trades, positions, final, bar, st, s, due, n - 1)
    ensures AlongsideAfter(input, bars, trades, positions, final, bar, st, s, due, n)
  {
    var scanned := Fold(IntentCheck(input.account, bar, trades), s, due, 0, n);
    if scanned.Ok? && scanned.value.log.orders <= final.log.orders {
      LastTurn(input, trades, final, bar, st, s, due, n);
      IntentStaysAlongside(input, bars, trades, positions, final, bar,
                           ProcessIntents(input.account, bar, st, due, n - 1),
                           Fold(IntentCheck(input.account, bar, trades), s, due, 0, n - 1).value, due[n - 1],
                           ProcessIntents(input.account, bar, st, due, n), scanned.value);
    }
  }

  lemma {:induction false} IntentsAlongside(input: Input, bars: seq<Bar>, trades: seq<TradeRecord>,
      positions: seq<PositionRecord>, final: OrderScan, bar: Bar, st: State, s: OrderScan, due: seq<Intent>, n: nat)
    requires ValidTape(input.intents, input.account) && n <= |due| && Waiting(input.intents, s.log, bar.seqNo, due)
    requires Claimed(input, bars, trades, positions, final) && BarBySession(bars, bar.seqNo) == Some(bar)
    requires Alongside(input, bars, trades, positions, st, s)
    ensures AlongsideAfter(input, bars, trades, positions, final, bar, st, s, due, n)
  {
    if n > 0 {
      IntentsAlongside(input, bars, trades, positions, final, bar, st, s, due, n - 1);
      IntentsAlongsideNext(input, bars, trades, positions, final, bar, st, s, due, n);
    }
  }

  lemma {:induction false} SettlementAlongside(input: Input, bars: seq<Bar>, trades: seq<TradeRecord>,
      positions: seq<PositionRecord>, session: nat, st: State, s: OrderScan)
    requires Alongside(input, bars, trades, positions, st, s) && input.account.rateScale > 0
    ensures match SettleFunding(input, session, st.book)
            case Ok(b) => Alongside(input, bars, trades, positions, st.(book := b), s)
            case Err(e) => e == Overflow
  {
    if input.account.model == LinearPerp {
      var events := FundingFor(input.funding, session);
      if BookFundings(input.account, st.book, events, |events|).Err? {
        FundingsOnlyOverflow(input.account, st.book, events, |events|);
      } else {
        FundingsAlongside(input, bars, trades, positions, st, s, events, |events|);
      }
    } else {
      assert st.(book := st.book) == st;
    }
  }

  lemma {:induction false} FundingAlongside(input: Input, bars: seq<Bar>, trades: seq<TradeRecord>,
      positions: seq<PositionRecord>, st: State, s: OrderScan, event: FundingEvent)
    requires Alongside(input, bars, trades, positions, st, s) && input.account.model == LinearPerp
    requires BookFunding(input.account, st.book, event).Ok?
    ensures Alongside(input, bars, trades, positions, st.(book := BookFunding(input.account, st.book, event).value), s)
  {
    FundingKeepsRecomputed(input, bars, st, event);
  }

  lemma {:induction false} FundingsAlongside(input: Input, bars: seq<Bar>, trades: seq<TradeRecord>,
      positions: seq<PositionRecord>, st: State, s: OrderScan, events: seq<FundingEvent>, n: nat)
    requires Alongside(input, bars, trades, positions, st, s) && input.account.model == LinearPerp
    requires n <= |events| && BookFundings(input.account, st.book, events, n).Ok?
    ensures Alongside(input, bars, trades, positions,
                      st.(book := BookFundings(input.account, st.book, events, n).value), s)
  {
    if n > 0 {
      FundingsAlongside(input, bars, trades, positions, st, s, events, n - 1);
      FundingAlongside(input, bars, trades, positions,
                       st.(book := BookFundings(input.account, st.book, events, n - 1).value), s,
                       events[n - 1]);
    } else {
      assert st.(book := st.book) == st;
    }
  }

  lemma {:induction false} MarkAlongside(input: Input, bars: seq<Bar>, trades: seq<TradeRecord>,
      positions: seq<PositionRecord>, bar: Bar, st: State, s: OrderScan)
    requires Alongside(input, bars, trades, positions, st, s) && st.curve.peak > 0
    ensures match MarkCurve(input.account, bar, st.book, st.curve)
            case Ok(c) =>
              Alongside(input, bars, trades, positions, State(st.log, CloseBook(input.account, st.book), c), s)
            case Err(e) => e == Overflow
  {
    if MarkCurve(input.account, bar, st.book, st.curve).Err? {
      MarkOnlyOverflows(input.account, bar, st.book, st.curve);
    }
  }

  lemma {:induction false} BarAlongside(input: Input, bars: seq<Bar>, trades: seq<TradeRecord>,
      positions: seq<PositionRecord>, final: OrderScan, bar: Bar, st: State, s: OrderScan)
    requires ValidTape(input.intents, input.account) && input.account.rateScale > 0
    requires Claimed(input, bars, trades, positions, final) && BarBySession(bars, bar.seqNo) == Some(bar)
    requires Alongside(input, bars, trades, positions, st, s) && st.curve.peak > 0
    requires ScanBar(input, trades, s, bar).Ok? && ScanBar(input, trades, s, bar).value.log.orders <= final.log.orders
    ensures StaysAlongside(input, bars, trades, positions, ProcessBar(input, bar, st),
                           ScanBar(input, trades, s, bar).value)
  {
    var due, scanned := Schedule(input.intents, s.log.completed, bar.seqNo), ScanBar(input, trades, s, bar).value;
    ScheduleWaits(input.intents, s.log, bar.seqNo);
    IntentsAlongside(input, bars, trades, positions, final, bar, st, s, due, |due|);
    var traded := ProcessIntents(input.account, bar, st, due, |due|);
    if traded.Ok? {
      SettlementAlongside(input, bars, trades, positions, bar.seqNo, traded.value, scanned);
      CurveUntouched(input.account, bar, st, due, |due|);
      var settled := SettleFunding(input, bar.seqNo, traded.value.book);
      if settled.Ok? {
        MarkAlongside(input, bars, trades, positions, bar, traded.value.(book := settled.value), scanned);
      }
    }
  }

  lemma {:induction false} CurveUntouched(account: Account, bar: Bar, st: State, due: seq<Intent>, n: nat)
    requires n <= |due| && ProcessIntents(account, bar, st, due, n).Ok?
    ensures ProcessIntents(account, bar, st, due, n).value.curve == st.curve
  {
    if n > 0 {
      CurveUntouched(account, bar, st, due, n - 1);
      IntentParts(account, bar, ProcessIntents(account, bar, st, due, n - 1).value, due[n - 1]);
    }
  }

  // ---- the run ----

  /** The engine after i bars and the order scan after i bars. */
  ghost predicate RunsAlongside(input: Input, bars: seq<Bar>, trades: seq<TradeRecord>, positions: seq<PositionRecord>,
      i: nat)
    requires i <= |bars| && i <= |input.bars|
  {
    var s := Fold(BarCheck(input, trades), EMPTY_ORDER_SCAN, bars, 0, i);
    s.Ok? && StaysAlongside(input, bars, trades, positions, Replay(input, i), s.value)
  }

  lemma {:induction false} RunBeginsAlongside(input: Input, bars: seq<Bar>, trades: seq<TradeRecord>,
      positions: seq<PositionRecord>)
    requires ValidInput(input)
    ensures RunsAlongside(input, bars, trades, positions, 0)
  {
    InitialRecomputed(input, bars);
    InitialAccounts(input.account, input.intents);
  }

  lemma {:induction false} LastBar(input: Input, trades: seq<TradeRecord>, bars: seq<Bar>, i: nat)
    requires 0 < i <= |bars| && Fold(BarCheck(input, trades), EMPTY_ORDER_SCAN, bars, 0, |bars|).Ok?
    ensures Fold(BarCheck(input, trades), EMPTY_ORDER_SCAN, bars, 0, i - 1).Ok?
    ensures ScanBar(input, trades, Fold(BarCheck(input, trades), EMPTY_ORDER_SCAN, bars, 0, i - 1).value, bars[i - 1])
            == Fold(BarCheck(input, trades), EMPTY_ORDER_SCAN, bars, 0, i)
    ensures Fold(BarCheck(input, trades), EMPTY_ORDER_SCAN, bars, 0, i).Ok?
    ensures Fold(BarCheck(input, trades), EMPTY_ORDER_SCAN, bars, 0, i).value.log.orders
            <= Fold(BarCheck(input, trades), EMPTY_ORDER_SCAN, bars, 0, |bars|).value.log.orders
  {
    BarsScanGrows(input, trades, bars, i, |bars|);
  }

  function AfterBar(input: Input, reached: Result<State>, bar: Bar): Result<State> {
    if reached.Ok? then ProcessBar(input, bar, reached.value) else reached
  }

  lemma {:induction false} ReplayIsNext(input: Input, i: nat)
    requires 0 < i <= |input.bars|
    ensures Replay(input, i) == AfterBar(input, Replay(input, i - 1), input.bars[i - 1])
  {
  }

  lemma {:induction false} BarStaysAlongside(input: Input, bars: seq<Bar>, trades: seq<TradeRecord>,
      positions: seq<PositionRecord>, final: OrderScan, bar: Bar, reached: Result<State>, s: OrderScan)
    requires ValidTape(input.intents, input.account) && input.account.rateScale > 0
    requires Claimed(input, bars, trades, positions, final) && BarBySession(bars, bar.seqNo) == Some(bar)
    requires StaysAlongside(input, bars, trades, positions, reached, s)
    requires reached.Ok? ==> reached.value.curve.peak > 0
    requires ScanBar(input, trades, s, bar).Ok? && ScanBar(input, trades, s, bar).value.log.orders <= final.log.orders
    ensures StaysAlongside(input, bars, trades, positions, AfterBar(input, reached, bar),
                           ScanBar(input, trades, s, bar).value)
  {
    if reached.Ok? { BarAlongside(input, bars, trades, positions, final, bar, reached.value, s); }
  }

  lemma {:induction false} NextAlongside(input: Input, bars: seq<Bar>, trades: seq<TradeRecord>,
      positions: seq<PositionRecord>, final: OrderScan, i: nat)
    requires ValidInput(input) && 0 < i <= |bars| && i <= |input.bars| && bars[i - 1] == input.bars[i - 1]
    requires IncreasingBars(bars)
    requires Claimed(input, bars, trades, positions, final) && RunsAlongside(input, bars, trades, positions, i - 1)
    ensures RunsAlongside(input, bars, trades, positions, i)
  {
    LastBar(input, trades, bars, i);
    ReplayIsNext(input, i);
    BarIsFound(bars, i - 1);
    if Replay(input, i - 1).Ok? { PeakIsPositive(input, i - 1); }
    BarStaysAlongside(input, bars, trades, positions, final, bars[i - 1], Replay(input, i - 1),
                      Fold(BarCheck(input, trades), EMPTY_ORDER_SCAN, bars, 0, i - 1).value);
  }

  lemma {:induction false} RunAlongside(input: Input, k: nat, trades: seq<TradeRecord>, positions: seq<PositionRecord>,
      final: OrderScan, i: nat)
    requires ValidInput(input) && i <= k <= |input.bars|
    requires Claimed(input, input.bars[..k], trades, positions, final)
    ensures RunsAlongside(input, input.bars[..k], trades, positions, i)
  {
    if i == 0 {
      RunBeginsAlongside(input, input.bars[..k], trades, positions);
    } else {
      RunAlongside(input, k, trades, positions, final, i - 1);
      IncreasingPrefix(input.bars, k);
      NextAlongside(input, input.bars[..k], trades, positions, final, i);
    }
  }

  lemma {:induction false} PeakIsPositive(input: Input, k: nat)
    requires ValidInput(input) && k <= |input.bars| && Replay(input, k).Ok?
    ensures Replay(input, k).value.curve.peak > 0
  {
    RunIsScanned(input, k);
  }

  lemma {:induction false} InitialAccounts(account: Account, intents: seq<Intent>)
    ensures Accounts(InitialState(account), intents)
  {
    assert IdSet(OrderIdList([])) == {};
  }

  // ---- everything else follows from the records ----

  lemma {:induction false} SameBeginning<T>(xs: seq<T>, ys: seq<T>, n: nat)
    requires 0 < n <= |xs| && n <= |ys| && xs[..n - 1] == ys[..n - 1] && xs[n - 1] == ys[n - 1]
    ensures xs[..n] == ys[..n]
  {
    assert xs[..n] == xs[..n - 1] + [xs[n - 1]] && ys[..n] == ys[..n - 1] + [ys[n - 1]];
  }

  /** From the same peak the check leaves one point for a bar. */
  lemma {:induction false} SamePoint(account: Account, b: Book, bars: seq<Bar>, c: Curve, other: Curve, n: nat)
    requires |c.equity| == |bars| == |c.drawdown| && |other.equity| == |bars| == |other.drawdown| && 0 < n <= |bars|
    requires Fold(PointCheck(account, b), account.startingBalance, ZipPoints(bars, c), 0, n).Ok?
    requires Fold(PointCheck(account, b), account.startingBalance, ZipPoints(bars, other), 0, n).Ok?
    requires Fold(PointCheck(account, b), account.startingBalance, ZipPoints(bars, c), 0, n - 1)
             == Fold(PointCheck(account, b), account.startingBalance, ZipPoints(bars, other), 0, n - 1)
    ensures Fold(PointCheck(account, b), account.startingBalance, ZipPoints(bars, c), 0, n)
            == Fold(PointCheck(account, b), account.startingBalance, ZipPoints(bars, other), 0, n)
    ensures c.equity[n - 1] == other.equity[n - 1] && c.drawdown[n - 1] == other.drawdown[n - 1]
  {
    assert ZipPoints(bars, c)[n - 1].1 == ZipPoints(bars, other)[n - 1].1;
  }

  lemma {:induction false} SamePoints(account: Account, b: Book, bars: seq<Bar>, c: Curve, other: Curve, n: nat)
    requires |c.equity| == |bars| == |c.drawdown| && |other.equity| == |bars| == |other.drawdown| && n <= |bars|
    requires Fold(PointCheck(account, b), account.startingBalance, ZipPoints(bars, c), 0, n).Ok?
    requires Fold(PointCheck(account, b), account.startingBalance, ZipPoints(bars, other), 0, n).Ok?
    ensures Fold(PointCheck(account, b), account.startingBalance, ZipPoints(bars, c), 0, n)
            == Fold(PointCheck(account, b), account.startingBalance, ZipPoints(bars, other), 0, n)
    ensures c.equity[..n] == other.equity[..n] && c.drawdown[..n] == other.drawdown[..n]
  {
    if n > 0 {
      SamePoints(account, b, bars, c, other, n - 1);
      SamePoint(account, b, bars, c, other, n);
      SameBeginning(c.equity, other.equity, n);
      SameBeginning(c.drawdown, other.drawdown, n);
    }
  }

  lemma {:induction false} EntryFollows(account: Account, b: Book)
    requires LastValues(account, b)
    ensures b.entry == (if account.model == AShareCash || b.quantity == 0 then None else LastOpenPrice(b.trades))
  {
  }

  /** The parts of an accepted state that the proof takes one at a time. */
  lemma {:induction false} AcceptedParts(input: Input, k: nat, st: State)
    requires ValidateState(input, k, st).Ok?
    ensures k <= |input.bars|
    ensures ShapeChecks(input, input.bars[..k], st) && ExtremeChecks(input.account, st) && SetChecks(input, st)
    ensures ValidateTrades(input, input.bars[..k], st.book).Ok?
            && ValidateLots(input.account, input.bars[..k], st.book).Ok?
    ensures ValidateOrders(input, input.bars[..k], st).Ok? && ValidateLedgers(input, input.bars[..k], st.book).Ok?
    ensures ValidateTotals(st.book).Ok? && ValidateCurves(input.account, input.bars[..k], st).Ok?
    ensures ValidateHoldings(input.account, st.book).Ok?
  {
  }

  /** Equal trades and positions make equal books. */
  lemma {:induction false} SameLots(input: Input, bars: seq<Bar>, b: Book, other: Book)
    requires b.trades == other.trades && b.positions == other.positions
    requires ValidateLots(input.account, bars, b).Ok? && ValidateTotals(b).Ok?
    requires LastQuantity(b.positions) == b.quantity && Flattened(b.positions) == b.closedCount
    requires LotsScanned(input.account, bars, other) && TotalsScanned(input.account, other)
    requires LastValues(input.account, other)
    ensures b.quantity == other.quantity && b.closedCount == other.closedCount
    ensures b.longLots == other.longLots && b.shortLots == other.shortLots
    ensures b.totalFees == other.totalFees && b.totalStampDuty == other.totalStampDuty
            && b.totalSlippage == other.totalSlippage
  {
  }

  lemma {:induction false} SameLedgers(input: Input, bars: seq<Bar>, b: Book, other: Book)
    requires b.trades == other.trades
    requires ValidateLedgers(input, bars, b).Ok? && b.cash == b.wallet
    requires LedgersRebuilt(input, bars, other) && other.cash == other.wallet && LastValues(input.account, other)
    requires LastCash(b.cashLedger, input.account.startingBalance)
             == (if input.account.model == AShareCash then b.cash else b.wallet)
    ensures b.cashLedger == other.cashLedger && b.fundingLedger == other.fundingLedger
            && b.totalFunding == other.totalFunding
    ensures b.cash == other.cash && b.wallet == other.wallet
  {
  }

  lemma {:induction false} SameCurves(account: Account, bars: seq<Bar>, st: State, other: State)
    requires st.book == other.book && |st.curve.equity| == |bars| == |st.curve.drawdown|
    requires ValidateCurves(account, bars, st).Ok? && ExtremeChecks(account, st)
    requires PointsScanned(account, bars, other.book, other.curve) && Extremes(account, other.curve)
    ensures st.curve == other.curve
  {
    SamePoints(account, st.book, bars, st.curve, other.curve, |bars|);
    assert st.curve.equity[..|bars|] == st.curve.equity && other.curve.equity[..|bars|] == other.curve.equity;
    assert st.curve.drawdown[..|bars|] == st.curve.drawdown && other.curve.drawdown[..|bars|] == other.curve.drawdown;
  }

  lemma {:induction false} SameBooks(input: Input, k: nat, st: State, other: State)
    requires ValidateState(input, k, st).Ok? && k <= |input.bars|
    requires st.book.trades == other.book.trades && st.book.positions == other.book.positions
    requires Recomputed(input, input.bars[..k], other) && LedgersRebuilt(input, input.bars[..k], other.book)
    requires other.book.cash == other.book.wallet
    ensures st.book == other.book
  {
    AcceptedParts(input, k, st);
    SameLots(input, input.bars[..k], st.book, other.book);
    SameLedgers(input, input.bars[..k], st.book, other.book);
    EntryFollows(input.account, other.book);
  }

  lemma {:induction false} TradesAreKnown(input: Input, bars: seq<Bar>, b: Book)
    requires |b.trades| == |b.positions| && ScanTrades(input, bars, b).Ok?
    ensures KnownTrades(input.intents, b.trades)
  {
    forall i | 0 <= i < |b.trades|
      ensures IntentById(input.intents, b.trades[i].id).Some?
    {
      FoldPassedAt(TradeCheck(input, bars), EMPTY_SCAN, Zip(b.trades, b.positions), |b.trades|, i);
    }
  }

  function ScannedOrders(input: Input, bars: seq<Bar>, trades: seq<TradeRecord>): Result<OrderScan> {
    Fold(BarCheck(input, trades), EMPTY_ORDER_SCAN, bars, 0, |bars|)
  }

  lemma {:induction false} AcceptedIsClaimed(input: Input, bars: seq<Bar>, st: State)
    requires UniqueIds(input.intents) && Order.WellOrdered(input.intents) && IncreasingBars(bars)
    requires GoodSessions(st.book.trades, TradeSession, LastSession(bars))
    requires ValidateTrades(input, bars, st.book).Ok? && ValidateOrders(input, bars, st).Ok?
    ensures ScannedOrders(input, bars, st.book.trades).Ok?
    ensures ScannedOrders(input, bars, st.book.trades).value.log == st.log
    ensures Claimed(input, bars, st.book.trades, st.book.positions, ScannedOrders(input, bars, st.book.trades).value)
  {
    var scan := ScannedOrders(input, bars, st.book.trades).value;
    ScanRunSound(input, st.book.trades, bars, |bars|);
    TradesAreKnown(input, bars, st.book);
    TradesAreFills(input.intents, st.book.trades, scan, BoundOf(bars, |bars|));
  }

  /** An accepted checkpoint state on a well-ordered tape is, field for field, what the
      engine reaches by replaying the bars, unless the replay overflows or, on a
      perpetual account, stops at the 1x cap, which the validators do not check. */
  lemma {:induction false} AcceptedIsReached(input: Input, k: nat, st: State)
    requires ValidInput(input) && Order.WellOrdered(input.intents)
    requires ValidateState(input, k, st).Ok?
    ensures k <= |input.bars|
    ensures match Replay(input, k)
            case Ok(reached) => reached == st
            case Err(e) => Excused(input.account, e)
  {
    AcceptedParts(input, k, st);
    var bars := input.bars[..k];
    IncreasingPrefix(input.bars, k);
    AcceptedIsClaimed(input, bars, st);
    RunAlongside(input, k, st.book.trades, st.book.positions, ScannedOrders(input, bars, st.book.trades).value, k);
    if Replay(input, k).Ok? {
      var reached := Replay(input, k).value;
      AllFilled(input, bars, st, reached);
      RunIsScanned(input, k);
      RunIsRebuilt(input, k);
      SameBooks(input, k, st, reached);
      SameCurves(input.account, bars, st, reached);
    }
  }

  lemma {:induction false} AllFilled(input: Input, bars: seq<Bar>, st: State, reached: State)
    requires Accounts(reached, input.intents) && reached.log == st.log
    requires FilledIds(st.log.orders) == TradeIds(st.book.trades)
    requires TradesScanned(input, bars, reached.book) && |st.book.trades| == |st.book.positions|
    requires reached.book.trades <= st.book.trades && reached.book.positions <= st.book.positions
    ensures reached.book.trades == st.book.trades && reached.book.positions == st.book.positions
  {
    assert |TradeIds(reached.book.trades)| == |TradeIds(st.book.trades)|;
  }
}
