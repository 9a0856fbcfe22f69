/** The checkpoint validators as the program runs them: loops over the records with
    the scan in local variables, stopping at the first thing that is wrong. Each is
    tied to the function that says what it accepts. */
module ValidatorMachine {
  import opened Checked
  import opened Events
  import opened Lots
  import opened Folds
  import opened Engine
  import opened EngineInduction
  import opened Validator

  method CheckRecordSessions<T>(records: seq<T>, sessionOf: T -> nat, last: Option<nat>) returns (ok: bool)
    ensures ok <==> SessionsWithin(records, sessionOf, last)
  {
    for i := 0 to |records|
      invariant i == 0 || (last.Some? && forall j :: 0 <= j < i ==> sessionOf(records[j]) <= last.value)
    {
      if last.None? || sessionOf(records[i]) > last.value { return false; }
    }
    return true;
  }

  method CheckRecordOrder<T>(records: seq<T>, sessionOf: T -> nat) returns (ok: bool)
    ensures ok <==> SessionsOrdered(records, sessionOf)
  {
    var i := 0;
    while i + 1 < |records|
      invariant 0 <= i && (records == [] || i < |records|)
      invariant forall j :: 0 <= j < i && j + 1 < |records| ==> sessionOf(records[j]) <= sessionOf(records[j + 1])
    {
      if sessionOf(records[i]) > sessionOf(records[i + 1]) { return false; }
      i := i + 1;
    }
    return true;
  }

  method CheckSessions<T>(records: seq<T>, sessionOf: T -> nat, last: Option<nat>) returns (ok: bool)
    ensures ok <==> GoodSessions(records, sessionOf, last)
  {
    var within := CheckRecordSessions(records, sessionOf, last);
    if !within { return false; }
    ok := CheckRecordOrder(records, sessionOf);
  }

  method CheckShape(input: Input, bars: seq<Bar>, st: State) returns (ok: bool)
    ensures ok <==> ShapeChecks(input, bars, st)
  {
    var last, b := LastSession(bars), st.book;
    var trades := CheckSessions(b.trades, TradeSession, last);
    var positions := CheckSessions(b.positions, PositionSession, last);
    var cash := CheckSessions(b.cashLedger, CashSession, last);
    var funding := CheckSessions(b.fundingLedger, FundingSession, last);
    var equity := CheckSessions(st.curve.equity, EquitySession, last);
    var drawdown := CheckSessions(st.curve.drawdown, DrawdownSession, last);
    if !(trades && positions && cash && funding && equity && drawdown) { return false; }
    if |st.curve.equity| != |bars| || |st.curve.drawdown| != |bars| || |st.log.orders| < |b.trades| { return false; }
    if LastQuantity(b.positions) != b.quantity { return false; }
    var expected := LastCash(b.cashLedger, input.account.startingBalance);
    return expected == (if input.account.model == AShareCash then b.cash else b.wallet) && b.cash == b.wallet;
  }

  // ---- trades, lots ----

  method CheckTradeOrder(intents: seq<Intent>, trades: seq<TradeRecord>) returns (ok: bool)
    ensures ok <==> TradesInOrder(intents, trades)
  {
    var i := 0;
    while i + 1 < |trades|
      invariant 0 <= i && (trades == [] || i < |trades|)
      invariant forall j :: 0 <= j < i && j + 1 < |trades| && trades[j].session == trades[j + 1].session ==>
                  var left, right := IntentById(intents, trades[j].id), IntentById(intents, trades[j + 1].id);
                  left.Some? && right.Some? && !ExecutesBefore(right.value, left.value)
    {
      if trades[i].session == trades[i + 1].session {
        var left, right := IntentById(intents, trades[i].id), IntentById(intents, trades[i + 1].id);
        if left.None? || right.None? || ExecutesBefore(right.value, left.value) { return false; }
      }
      i := i + 1;
    }
    return true;
  }

  method ValidateTradeSemantics(input: Input, bars: seq<Bar>, b: Book) returns (r: Result<()>)
    ensures r == ValidateTrades(input, bars, b)
  {
    if |b.positions| != |b.trades| { return Err(Inconsistent); }
    var ordered := CheckTradeOrder(input.intents, b.trades);
    if !ordered { return Err(Inconsistent); }
    var scan := EMPTY_SCAN;
    ghost var records := Zip(b.trades, b.positions);
    for i := 0 to |b.trades|
      invariant Fold(TradeCheck(input, bars), EMPTY_SCAN, records, 0, i) == Ok(scan)
    {
      var next := CheckTrade(input, bars, scan, b.trades[i], b.positions[i]);
      if next.Err? {
        FoldStops(TradeCheck(input, bars), EMPTY_SCAN, records, 0, i + 1, |records|);
        return Err(next.error);
      }
      scan := next.value;
    }
    return Require(input.account.model == LinearPerp ==> b.quantity == scan.quantity);
  }

  method ReconstructAShareLots(account: Account, bars: seq<Bar>, b: Book) returns (r: Result<LotScan>)
    ensures r == ReconstructLots(account, bars, b)
  {
    if account.model == LinearPerp { return Ok(LotScan(b.quantity, [], [])); }
    var scan := LotScan(0, [], []);
    for i := 0 to |b.trades|
      invariant Fold(LotCheck(account, bars), LotScan(0, [], []), b.trades, 0, i) == Ok(scan)
    {
      var next := LotStep(account, bars, scan, b.trades[i]);
      if next.Err? {
        FoldStops(LotCheck(account, bars), LotScan(0, [], []), b.trades, 0, i + 1, |b.trades|);
        return Err(next.error);
      }
      scan := next.value;
    }
    return if scan.quantity != b.quantity then Err(Inconsistent) else Ok(scan);
  }

  // ---- orders ----

  method CheckDistinctTrades(trades: seq<TradeRecord>) returns (ok: bool)
    ensures ok <==> DistinctTrades(trades)
  {
    var ids: set<Id> := {};
    for i := 0 to |trades|
      invariant forall id :: id in ids <==> exists j :: 0 <= j < i && trades[j].id == id
      invariant forall j, k :: 0 <= j < k < i ==> trades[j].id != trades[k].id
    {
      if trades[i].id in ids { return false; }
      ids := ids + {trades[i].id};
    }
    return true;
  }

  method ScanBarOrders(input: Input, trades: seq<TradeRecord>, s: OrderScan, bar: Bar) returns (r: Result<OrderScan>)
    ensures r == ScanBar(input, trades, s, bar)
  {
    var due := Schedule(input.intents, s.log.completed, bar.seqNo);
    var scan := s;
    for i := 0 to |due|
      invariant Fold(IntentCheck(input.account, bar, trades), s, due, 0, i) == Ok(scan)
    {
      var next := ScanIntent(input.account, bar, trades, scan, due[i]);
      if next.Err? {
        FoldStops(IntentCheck(input.account, bar, trades), s, due, 0, i + 1, |due|);
        return Err(next.error);
      }
      scan := next.value;
    }
    return Ok(scan);
  }

  method ValidateOrderSemantics(input: Input, bars: seq<Bar>, st: State) returns (r: Result<()>)
    ensures r == ValidateOrders(input, bars, st)
  {
    var trades := st.book.trades;
    var distinct := CheckDistinctTrades(trades);
    if !distinct { return Err(Inconsistent); }
    var scan := EMPTY_ORDER_SCAN;
    for i := 0 to |bars|
      invariant Fold(BarCheck(input, trades), EMPTY_ORDER_SCAN, bars, 0, i) == Ok(scan)
    {
      var next := ScanBarOrders(input, trades, scan, bars[i]);
      if next.Err? {
        FoldStops(BarCheck(input, trades), EMPTY_ORDER_SCAN, bars, 0, i + 1, |bars|);
        return Err(next.error);
      }
      scan := next.value;
    }
    return Require(|scan.seen| == |trades| && scan.log == st.log);
  }

  // ---- ledgers ----

  method RebuildBar(input: Input, trades: seq<TradeRecord>, s: LedgerScan, bar: Bar) returns (r: Result<LedgerScan>)
    ensures r == LedgerBar(input, trades, s, bar)
  {
    var fills, events, scan := TradesOf(trades, bar.seqNo), FundingFor(input.funding, bar.seqNo), s;
    for i := 0 to |fills|
      invariant Fold(LedgerTradeStep(input.account), s, fills, 0, i) == Ok(scan)
    {
      var next := LedgerTrade(input.account, scan, fills[i]);
      if next.Err? {
        FoldStops(LedgerTradeStep(input.account), s, fills, 0, i + 1, |fills|);
        return Err(next.error);
      }
      scan := next.value;
    }
    ghost var traded := scan;
    for i := 0 to |events|
      invariant Fold(LedgerFundingStep(input.account), traded, events, 0, i) == Ok(scan)
    {
      var next := LedgerFunding(input.account, scan, events[i]);
      if next.Err? {
        FoldStops(LedgerFundingStep(input.account), traded, events, 0, i + 1, |events|);
        return Err(next.error);
      }
      scan := next.value;
    }
    return Ok(scan);
  }

  method RebuildLedgers(input: Input, bars: seq<Bar>, trades: seq<TradeRecord>) returns (r: Result<LedgerScan>)
    ensures r == ReconstructLedgers(input, bars, trades)
  {
    var scan := EmptyLedger(input.account);
    for i := 0 to |bars|
      invariant Fold(LedgerBarStep(input, trades), EmptyLedger(input.account), bars, 0, i) == Ok(scan)
    {
      var next := RebuildBar(input, trades, scan, bars[i]);
      if next.Err? {
        FoldStops(LedgerBarStep(input, trades), EmptyLedger(input.account), bars, 0, i + 1, |bars|);
        return Err(next.error);
      }
      scan := next.value;
    }
    return Ok(scan);
  }

  method RunCash(start: int, ledger: seq<CashRecord>) returns (r: Result<int>)
    ensures r == Fold(RunningCash, start, ledger, 0, |ledger|)
  {
    var cash := start;
    for i := 0 to |ledger|
      invariant Fold(RunningCash, start, ledger, 0, i) == Ok(cash)
    {
      var next := RunningCash(cash, ledger[i]);
      if next.Err? {
        FoldStops(RunningCash, start, ledger, 0, i + 1, |ledger|);
        return Err(next.error);
      }
      cash := next.value;
    }
    return Ok(cash);
  }

  method CheckLedgers(input: Input, bars: seq<Bar>, b: Book) returns (r: Result<()>)
    ensures r == ValidateLedgers(input, bars, b)
  {
    var rebuilt := RebuildLedgers(input, bars, b.trades);
    if rebuilt.Err? { return Err(rebuilt.error); }
    var scan := rebuilt.value;
    if scan.cashLedger != b.cashLedger || scan.fundingLedger != b.fundingLedger || scan.totalFunding != b.totalFunding {
      return Err(Inconsistent);
    }
    var cash := RunCash(input.account.startingBalance, b.cashLedger);
    if cash.Err? { return Err(cash.error); }
    return Require(cash.value == b.cash);
  }

  /** A checked total over records. */
  method Total<X>(xs: seq<X>, add: (int, X) -> Result<int>) returns (r: Result<int>)
    ensures r == Fold(add, 0, xs, 0, |xs|)
  {
    var total := 0;
    for i := 0 to |xs|
      invariant Fold(add, 0, xs, 0, i) == Ok(total)
    {
      var next := add(total, xs[i]);
      if next.Err? {
        FoldStops(add, 0, xs, 0, i + 1, |xs|);
        return Err(next.error);
      }
      total := next.value;
    }
    return Ok(total);
  }

  method CheckTotals(b: Book) returns (r: Result<()>)
    ensures r == ValidateTotals(b)
  {
    var fees := Total(b.trades, AddFee);
    if fees.Err? { return Err(fees.error); }
    var stampDuty := Total(b.trades, AddStampDuty);
    if stampDuty.Err? { return Err(stampDuty.error); }
    var slippage := Total(b.trades, AddSlippage);
    if slippage.Err? { return Err(slippage.error); }
    var funding := Total(b.fundingLedger, AddFunding);
    if funding.Err? { return Err(funding.error); }
    return Require(fees.value == b.totalFees && stampDuty.value == b.totalStampDuty
                   && slippage.value == b.totalSlippage && funding.value == b.totalFunding);
  }

  method CheckHoldings(account: Account, b: Book) returns (r: Result<()>)
    ensures r == ValidateHoldings(account, b)
  {
    var long := Total(b.longLots, PositiveTotal);
    if long.Err? { return Err(long.error); }
    var short := Total(b.shortLots, PositiveTotal);
    if short.Err? { return Err(short.error); }
    return Require(account.model == AShareCash ==>
                     if b.quantity >= 0 then long.value == b.quantity else short.value == -b.quantity);
  }

  // ---- counters, extremes, sets ----

  method CountFlattened(positions: seq<PositionRecord>) returns (n: nat)
    ensures n == Flattened(positions)
  {
    n := 0;
    if positions == [] { return; }
    for i := 1 to |positions|
      invariant n == Flattened(positions[..i])
    {
      assert positions[..i + 1][..i] == positions[..i];
      if positions[i - 1].quantity != 0 && positions[i].quantity == 0 { n := n + 1; }
    }
    assert positions[..|positions|] == positions;
  }

  method LowestPoints(points: seq<DrawdownPoint>) returns (drawdown: int, rate: int)
    requires points != []
    ensures drawdown == LowestDrawdown(points) && rate == LowestRate(points)
  {
    drawdown, rate := points[0].drawdown, points[0].rate;
    for i := 1 to |points|
      invariant drawdown == LowestDrawdown(points[..i]) && rate == LowestRate(points[..i])
    {
      assert points[..i + 1][..i] == points[..i];
      drawdown, rate := Min(drawdown, points[i].drawdown), Min(rate, points[i].rate);
    }
    assert points[..|points|] == points;
  }

  method CheckExtremes(account: Account, st: State) returns (ok: bool)
    ensures ok <==> ExtremeChecks(account, st)
  {
    var points, c := st.curve.drawdown, st.curve;
    var closed := CountFlattened(st.book.positions);
    if closed != st.book.closedCount { return false; }
    if points == [] { return c.peak == account.startingBalance && c.maxDrawdown == 0 && c.maxDrawdownRate == 0; }
    var drawdown, rate := LowestPoints(points);
    return c.peak == points[|points| - 1].peak && c.maxDrawdown == drawdown && c.maxDrawdownRate == rate;
  }

  method CollectOrderIds(orders: seq<OrderRecord>) returns (ids: set<Id>)
    ensures ids == OrderIds(orders)
  {
    ids := {};
    for i := 0 to |orders|
      invariant ids == set j | 0 <= j < i :: orders[j].id
    {
      ids := ids + {orders[i].id};
    }
  }

  method CollectGroups(intents: seq<Intent>, trades: seq<TradeRecord>) returns (groups: set<Group>)
    ensures groups == GroupsOf(intents, trades)
  {
    groups := {};
    for i := 0 to |trades|
      invariant groups == GroupsOf(intents, trades[..i])
    {
      assert trades[..i + 1][..i] == trades[..i];
      var t := IntentById(intents, trades[i].id);
      if t.Some? && t.value.oco.Some? { groups := groups + {t.value.oco.value}; }
    }
    assert trades[..|trades|] == trades;
  }

  method FindLastOpen(trades: seq<TradeRecord>) returns (price: Option<int>)
    ensures price == LastOpenPrice(trades)
  {
    var i := |trades|;
    assert trades[..i] == trades;
    while i > 0
      invariant 0 <= i <= |trades|
      invariant LastOpenPrice(trades) == LastOpenPrice(trades[..i])
    {
      assert trades[..i][..i - 1] == trades[..i - 1];
      if trades[i - 1].effect == Open { return Some(trades[i - 1].price); }
      i := i - 1;
    }
    return None;
  }

  method CheckSets(input: Input, st: State) returns (ok: bool)
    ensures ok <==> SetChecks(input, st)
  {
    var completed := CollectOrderIds(st.log.orders);
    if |completed| != |st.log.orders| || completed != st.log.completed { return false; }
    if exists id | id in st.log.completed :: IntentById(input.intents, id).None? { return false; }
    var groups := CollectGroups(input.intents, st.book.trades);
    if groups != st.log.filledOco { return false; }
    if input.account.model == AShareCash || st.book.quantity == 0 { return st.book.entry == None; }
    var price := FindLastOpen(st.book.trades);
    return st.book.entry == price;
  }

  // ---- the curves, with one cursor for each list ----

  /** The first n records are those up to the session. */
  ghost predicate Passed<T>(records: seq<T>, sessionOf: T -> nat, session: int, n: nat) {
    && n <= |records|
    && (forall i :: 0 <= i < n ==> sessionOf(records[i]) <= session)
    && forall i :: n <= i < |records| ==> sessionOf(records[i]) > session
  }

  lemma {:induction false} OrderedSessions<T>(records: seq<T>, sessionOf: T -> nat, i: nat, j: nat)
    requires SessionsOrdered(records, sessionOf) && i <= j < |records|
    ensures sessionOf(records[i]) <= sessionOf(records[j])
  {
    if i < j {
      OrderedSessions(records, sessionOf, i, j - 1);
      assert sessionOf(records[j - 1]) <= sessionOf(records[j - 1 + 1]);
    }
  }

  /** The inner while loops: move on while the next record is not later. */
  method MoveOn<T>(records: seq<T>, sessionOf: T -> nat, start: nat, session: nat) returns (index: nat)
    requires SessionsOrdered(records, sessionOf) && start <= |records|
    requires forall i :: 0 <= i < start ==> sessionOf(records[i]) <= session
    ensures Passed(records, sessionOf, session, index)
  {
    index := start;
    while index < |records| && sessionOf(records[index]) <= session
      invariant index <= |records|
      invariant forall i :: 0 <= i < index ==> sessionOf(records[i]) <= session
    {
      index := index + 1;
    }
    forall i | index <= i < |records| ensures sessionOf(records[i]) > session {
      OrderedSessions(records, sessionOf, index, i);
    }
  }

  lemma {:induction false} QuantityAtCursor(positions: seq<PositionRecord>, session: nat, n: nat)
    requires Passed(positions, PositionSession, session, n)
    ensures QuantityAt(positions, session) == if n == 0 then 0 else positions[n - 1].quantity
  {
    if |positions| > 0 {
      var last := |positions| - 1;
      if n <= last {
        assert PositionSession(positions[last]) > session;
        QuantityAtCursor(positions[..last], session, n);
      } else {
        assert PositionSession(positions[last]) <= session;
      }
    }
  }

  lemma {:induction false} CashAtCursor(ledger: seq<CashRecord>, start: int, session: nat, n: nat)
    requires Passed(ledger, CashSession, session, n)
    ensures CashAt(ledger, start, session) == if n == 0 then start else ledger[n - 1].resultingCash
  {
    if |ledger| > 0 {
      var last := |ledger| - 1;
      if n <= last {
        assert CashSession(ledger[last]) > session;
        CashAtCursor(ledger[..last], start, session, n);
      } else {
        assert CashSession(ledger[last]) <= session;
      }
    }
  }

  lemma {:induction false} EntryAtCursor(trades: seq<TradeRecord>, session: nat, n: nat)
    requires Passed(trades, TradeSession, session, n)
    ensures EntryAt(trades, session) ==
            if n > 0 && trades[n - 1].effect == Open then Some(trades[n - 1].price) else None
  {
    if |trades| > 0 {
      var last := |trades| - 1;
      if n <= last {
        assert TradeSession(trades[last]) > session;
        EntryAtCursor(trades[..last], session, n);
      } else {
        assert TradeSession(trades[last]) <= session;
      }
    }
  }

  /** Cursors into positions, cash ledger and trades. */
  datatype Cursors = Cursors(position: nat, cash: nat, trade: nat)

  ghost predicate CursorsUpTo(b: Book, session: int, at: Cursors) {
    && at.position <= |b.positions| && at.cash <= |b.cashLedger| && at.trade <= |b.trades|
    && (forall i :: 0 <= i < at.position ==> PositionSession(b.positions[i]) <= session)
    && (forall i :: 0 <= i < at.cash ==> CashSession(b.cashLedger[i]) <= session)
    && forall i :: 0 <= i < at.trade ==> TradeSession(b.trades[i]) <= session
  }

  method ReadAt(account: Account, b: Book, bar: Bar, at: Cursors)
      returns (next: Cursors, quantity: int, cash: int, entry: Option<int>)
    requires SessionsOrdered(b.positions, PositionSession) && SessionsOrdered(b.cashLedger, CashSession)
    requires SessionsOrdered(b.trades, TradeSession) && CursorsUpTo(b, bar.seqNo, at)
    ensures CursorsUpTo(b, bar.seqNo, next)
    ensures quantity == QuantityAt(b.positions, bar.seqNo)
    ensures cash == CashAt(b.cashLedger, account.startingBalance, bar.seqNo)
    ensures entry == EntryAt(b.trades, bar.seqNo)
  {
    var p := MoveOn(b.positions, PositionSession, at.position, bar.seqNo);
    var c := MoveOn(b.cashLedger, CashSession, at.cash, bar.seqNo);
    var t := MoveOn(b.trades, TradeSession, at.trade, bar.seqNo);
    QuantityAtCursor(b.positions, bar.seqNo, p);
    CashAtCursor(b.cashLedger, account.startingBalance, bar.seqNo, c);
    EntryAtCursor(b.trades, bar.seqNo, t);
    quantity := if p == 0 then 0 else b.positions[p - 1].quantity;
    cash := if c == 0 then account.startingBalance else b.cashLedger[c - 1].resultingCash;
    entry := if t > 0 && b.trades[t - 1].effect == Open then Some(b.trades[t - 1].price) else None;
    next := Cursors(p, c, t);
  }

  /** One bar of the curves, from what the cursors read. */
  method CheckPoint(account: Account, b: Book, bar: Bar, peak: int, quantity: int, cash: int, entry: Option<int>,
      point: EquityPoint, drawdown: DrawdownPoint)
    returns (r: Result<int>)
    requires quantity == QuantityAt(b.positions, bar.seqNo) && entry == EntryAt(b.trades, bar.seqNo)
    requires cash == CashAt(b.cashLedger, account.startingBalance, bar.seqNo)
    ensures r == CheckPoints(account, b, peak, (bar, (point, drawdown)))
  {
    var marked := if account.model == LinearPerp then UnrealizedPnl(quantity, entry, bar.close)
                  else CheckedMul(quantity, bar.close);
    if marked.Err? { return Err(Inconsistent); }
    var equity := CheckedAdd(cash, marked.value);
    if equity.Err? { return Err(Inconsistent); }
    var newPeak := Max(peak, equity.value);
    var fall := CheckedSub(equity.value, newPeak);
    if fall.Err? { return Err(Inconsistent); }
    var numerator := CheckedMul(fall.value, account.rateScale);
    if numerator.Err? { return Err(Inconsistent); }
    var rate := CheckedDiv(numerator.value, newPeak);
    if rate.Err? { return Err(Inconsistent); }
    if point != EquityPoint(bar.seqNo, bar.timestamp, bar.close, cash, quantity, equity.value)
       || drawdown != DrawdownPoint(bar.seqNo, equity.value, newPeak, fall.value, rate.value)
    {
      return Err(Inconsistent);
    }
    return Ok(newPeak);
  }

  method ValidateCurveSemantics(account: Account, bars: seq<Bar>, st: State) returns (r: Result<()>)
    requires IncreasingBars(bars) && SessionsOrdered(st.book.positions, PositionSession)
    requires SessionsOrdered(st.book.cashLedger, CashSession) && SessionsOrdered(st.book.trades, TradeSession)
    ensures r == ValidateCurves(account, bars, st)
  {
    if |bars| > |st.curve.equity| || |bars| > |st.curve.drawdown| { return Err(Inconsistent); }
    var peak, at := account.startingBalance, Cursors(0, 0, 0);
    ghost var points := ZipPoints(bars, st.curve);
    for i := 0 to |bars|
      invariant Fold(PointCheck(account, st.book), account.startingBalance, points, 0, i) == Ok(peak)
      invariant CursorsUpTo(st.book, if i == 0 then -1 else bars[i - 1].seqNo, at)
    {
      assert i > 0 ==> bars[i - 1].seqNo < bars[i - 1 + 1].seqNo;
      var next, quantity, cash, entry := ReadAt(account, st.book, bars[i], at);
      var checked := CheckPoint(account, st.book, bars[i], peak, quantity, cash, entry, st.curve.equity[i],
                                st.curve.drawdown[i]);
      if checked.Err? {
        FoldStops(PointCheck(account, st.book), account.startingBalance, points, 0, i + 1, |bars|);
        return Err(checked.error);
      }
      peak, at := checked.value, next;
    }
    return Ok(());
  }

  // ---- all of it ----

  method ValidateAuthoritativeState(input: Input, cursor: nat, st: State) returns (r: Result<()>)
    requires IncreasingBars(input.bars)
    ensures r == ValidateState(input, cursor, st)
  {
    if cursor > |input.bars| { return Err(Inconsistent); }
    var bars := input.bars[..cursor];
    var shape := CheckShape(input, bars, st);
    if !shape { return Err(Inconsistent); }
    r := ValidateTradeSemantics(input, bars, st.book);
    if r.Err? { return; }
    var lots := ReconstructAShareLots(input.account, bars, st.book);
    if lots.Err? { return Err(lots.error); }
    if lots.value.longLots != st.book.longLots || lots.value.shortLots != st.book.shortLots {
      return Err(Inconsistent);
    }
    r := ValidateOrderSemantics(input, bars, st);
    if r.Err? { return; }
    r := CheckLedgers(input, bars, st.book);
    if r.Err? { return; }
    r := CheckTotals(st.book);
    if r.Err? { return; }
    var extremes := CheckExtremes(input.account, st);
    if !extremes { return Err(Inconsistent); }
    var sets := CheckSets(input, st);
    if !sets { return Err(Inconsistent); }
    r := CheckHoldings(input.account, st.book);
    if r.Err? { return; }
    IncreasingPrefix(input.bars, cursor);
    r := ValidateCurveSemantics(input.account, bars, st);
  }
}
