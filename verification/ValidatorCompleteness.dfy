/** Which states of the engine the validators accept. Everything they recompute they
    find, with two exceptions that are stated exactly: a fill that came after its
    intent had already rested on an earlier bar, and, on a perpetual account, a ledger
    record whose partial sums do not fit in 128 bits. */
module ValidatorCompleteness {
  import opened Checked
  import opened Events
  import opened Lots
  import opened Folds
  import opened Ids
  import opened Engine
  import opened EngineInduction
  import opened EngineAccounting
  import opened Validator
  import opened ValidatorMirror
  import opened ValidatorCurve
  import opened ValidatorLedger
  import opened ValidatorOrders
  import opened ValidatorSoundness
  import Order = EngineOrder
  import Ledger = EngineLedger
  import Sorting

  // ---- the engine's log tells its trades, in order ----

  ghost predicate Told(intents: seq<Intent>, st: State) {
    FillEvents(st.log.orders, intents) == TradeEvents(st.book.trades, intents)
  }

  lemma {:induction false} EngineIsOutcome(account: Account, bar: Bar, st: State, t: Intent)
    requires ProcessIntent(account, bar, st, t).Ok?
    ensures Outcome(st.log, t, bar.seqNo, ProcessIntent(account, bar, st, t).value.log)
  {
  }

  lemma {:induction false} EngineKeepsNotYet(account: Account, bar: Bar, st: State, due: seq<Intent>, m: nat)
    requires m < |due| && NotYet(st.log, due, m) && UniqueIds(due) && ProcessIntent(account, bar, st, due[m]).Ok?
    ensures NotYet(ProcessIntent(account, bar, st, due[m]).value.log, due, m + 1)
  {
    EngineIsOutcome(account, bar, st, due[m]);
    OutcomeCompletes(st.log, due[m], bar.seqNo, ProcessIntent(account, bar, st, due[m]).value.log);
    KeepsNotYet(st.log, due, m, ProcessIntent(account, bar, st, due[m]).value.log);
  }

  lemma {:induction false} UnfilledKeepsTold(intents: seq<Intent>, st: State, t: Intent, status: Status)
    requires UniqueIds(intents) && t in intents && Told(intents, st) && status != Filled
    ensures Told(intents, st.(log := LogUnfilled(st.log, t, status)))
  {
    EventsAppend(st.log.orders, t, OrderOf(t, status, None, None), intents);
  }

  lemma {:induction false} TradeEventsAppend(intents: seq<Intent>, trades: seq<TradeRecord>, trade: TradeRecord,
      t: Intent)
    requires UniqueIds(intents) && t in intents && trade.id == t.id
    ensures TradeEvents(trades + [trade], intents) == TradeEvents(trades, intents) + [Event(trade.session, t)]
  {
    assert (trades + [trade])[..|trades|] == trades;
    IntentIsFound(intents, t);
  }

  lemma {:induction false} FillKeepsTold(intents: seq<Intent>, account: Account, session: nat, st: State, t: Intent,
      fill: Fill)
    requires UniqueIds(intents) && t in intents && Told(intents, st)
    requires BookFill(account, session, st.book, t, fill).Ok?
    ensures Told(intents,
                 State(LogFill(st.log, t, session, fill), BookFill(account, session, st.book, t, fill).value, st.curve))
  {
    EventsAppend(st.log.orders, t, OrderOf(t, Filled, Some(session), Some(fill.phase)), intents);
    FillParts(account, session, st.book, t, fill);
    TradeEventsAppend(intents, st.book.trades, TradeOf(t, session, fill, CostsOf(account, t, fill).value), t);
  }

  lemma {:induction false} IntentKeepsTold(intents: seq<Intent>, account: Account, bar: Bar, st: State, t: Intent)
    requires UniqueIds(intents) && t in intents && Told(intents, st)
    requires ProcessIntent(account, bar, st, t).Ok?
    ensures Told(intents, ProcessIntent(account, bar, st, t).value)
  {
    if OcoDone(st.log, t) {
      UnfilledKeepsTold(intents, st, t, Cancelled);
    } else if FillDecision(account, bar, t).value.Some? {
      IntentParts(account, bar, st, t);
      FillKeepsTold(intents, account, bar.seqNo, st, t, FillDecision(account, bar, t).value.value);
    } else if t.timeInForce == Day {
      UnfilledKeepsTold(intents, st, t, Expired);
    }
  }

  ghost predicate EngineSound(intents: seq<Intent>, st: State, session: nat, due: seq<Intent>, m: nat) {
    && Orderly(intents, st.log, session, due, m) && NotYet(st.log, due, m)
    && EventsWithin(intents, st.log, session) && Told(intents, st)
  }

  lemma {:induction false} EngineStepSound(intents: seq<Intent>, account: Account, bar: Bar, st: State,
      due: seq<Intent>, m: nat)
    requires UniqueIds(intents) && m < |due| && GoodSchedule(intents, due)
    requires EngineSound(intents, st, bar.seqNo, due, m) && ProcessIntent(account, bar, st, due[m]).Ok?
    ensures EngineSound(intents, ProcessIntent(account, bar, st, due[m]).value, bar.seqNo, due, m + 1)
  {
    EngineIsOutcome(account, bar, st, due[m]);
    var next := ProcessIntent(account, bar, st, due[m]).value;
    OutcomeKeepsOrderly(intents, st.log, bar.seqNo, due, m, next.log);
    EngineKeepsNotYet(account, bar, st, due, m);
    OutcomeKeepsWithin(intents, st.log, due[m], bar.seqNo, next.log);
    IntentKeepsTold(intents, account, bar, st, due[m]);
  }

  lemma {:induction false} EngineFoldSound(intents: seq<Intent>, account: Account, bar: Bar, st: State,
      due: seq<Intent>, n: nat)
    requires UniqueIds(intents) && n <= |due| && GoodSchedule(intents, due)
    requires EngineSound(intents, st, bar.seqNo, due, 0) && ProcessIntents(account, bar, st, due, n).Ok?
    ensures EngineSound(intents, ProcessIntents(account, bar, st, due, n).value, bar.seqNo, due, n)
  {
    if n > 0 {
      EngineFoldSound(intents, account, bar, st, due, n - 1);
      EngineStepSound(intents, account, bar, ProcessIntents(account, bar, st, due, n - 1).value, due, n - 1);
    }
  }

  lemma {:induction false} EngineBarStarts(intents: seq<Intent>, st: State, session: nat, bound: int)
    requires UniqueIds(intents) && Order.WellOrdered(intents) && bound < session
    requires OrderlyUpTo(intents, st.log, bound) && Told(intents, st)
    ensures var due := Schedule(intents, st.log.completed, session);
            GoodSchedule(intents, due) && EngineSound(intents, st, session, due, 0)
  {
    ScheduleIsGood(intents, st.log, session);
    OrderlyStarts(intents, st.log, bound, session, Schedule(intents, st.log.completed, session));
  }

  /** What a bar leaves of the log and the trades once its intents are done. */
  lemma {:induction false} AfterIntents(input: Input, bar: Bar, st: State)
    requires ProcessBar(input, bar, st).Ok?
    ensures var due := Schedule(input.intents, st.log.completed, bar.seqNo);
            && ProcessIntents(input.account, bar, st, due, |due|).Ok?
            && ProcessBar(input, bar, st).value.log == ProcessIntents(input.account, bar, st, due, |due|).value.log
            && ProcessBar(input, bar, st).value.book.trades
               == ProcessIntents(input.account, bar, st, due, |due|).value.book.trades
  {
    BarParts(input, bar, st);
    var due := Schedule(input.intents, st.log.completed, bar.seqNo);
    SettlementKeepsTrades(input, bar.seqNo, ProcessIntents(input.account, bar, st, due, |due|).value.book);
  }

  lemma {:induction false} SettlementKeepsTrades(input: Input, session: nat, b: Book)
    requires SettleFunding(input, session, b).Ok?
    ensures SettleFunding(input, session, b).value.trades == b.trades
  {
    var events := FundingFor(input.funding, session);
    if input.account.model == LinearPerp { FundingsKeepTrades(input.account, b, events, |events|); }
  }

  lemma {:induction false} FundingsKeepTrades(account: Account, b: Book, events: seq<FundingEvent>, n: nat)
    requires n <= |events| && BookFundings(account, b, events, n).Ok?
    ensures BookFundings(account, b, events, n).value.trades == b.trades
  {
    if n > 0 { FundingsKeepTrades(account, b, events, n - 1); }
  }

  lemma {:induction false} EngineBarSound(input: Input, bar: Bar, st: State, bound: int)
    requires UniqueIds(input.intents) && Order.WellOrdered(input.intents) && bound < bar.seqNo
    requires OrderlyUpTo(input.intents, st.log, bound) && Told(input.intents, st)
    requires ProcessBar(input, bar, st).Ok?
    ensures var next := ProcessBar(input, bar, st).value;
            OrderlyUpTo(input.intents, next.log, bar.seqNo) && Told(input.intents, next)
  {
    var due := Schedule(input.intents, st.log.completed, bar.seqNo);
    EngineBarStarts(input.intents, st, bar.seqNo, bound);
    AfterIntents(input, bar, st);
    EngineFoldSound(input.intents, input.account, bar, st, due, |due|);
  }

  lemma {:induction false} RunIsTold(input: Input, k: nat)
    requires ValidInput(input) && Order.WellOrdered(input.intents) && k <= |input.bars| && Replay(input, k).Ok?
    ensures OrderlyUpTo(input.intents, Replay(input, k).value.log, BoundOf(input.bars, k))
    ensures Told(input.intents, Replay(input, k).value)
  {
    if k > 0 {
      LastReplay(input, k);
      RunIsTold(input, k - 1);
      assert k > 1 ==> input.bars[k - 2].seqNo < input.bars[k - 2 + 1].seqNo;
      EngineBarSound(input, input.bars[k - 1], Replay(input, k - 1).value, BoundOf(input.bars, k - 1));
    }
  }

  // ---- trades of a run ----

  lemma {:induction false} FilledAreOrders(orders: seq<OrderRecord>, j: nat) returns (i: nat)
    requires j < |FilledIds(orders)|
    ensures i < |orders| && orders[i].status == Filled && orders[i].id == FilledIds(orders)[j]
  {
    var n := |orders| - 1;
    if j < |FilledIds(orders[..n])| {
      i := FilledAreOrders(orders[..n], j);
    } else {
      i := n;
    }
  }

  lemma {:induction false} FilledNoRepeats(orders: seq<OrderRecord>)
    requires NoRepeats(OrderIdList(orders))
    ensures NoRepeats(FilledIds(orders))
  {
    if orders != [] {
      var n := |orders| - 1;
      assert OrderIdList(orders)[..n] == OrderIdList(orders[..n]);
      FilledNoRepeats(orders[..n]);
      var front := FilledIds(orders[..n]);
      forall j | 0 <= j < |front|
        ensures front[j] != orders[n].id
      {
        var i := FilledAreOrders(orders[..n], j);
        assert OrderIdList(orders)[i] != OrderIdList(orders)[n];
      }
    }
  }

  lemma {:induction false} TradesAreDistinct(st: State, intents: seq<Intent>)
    requires Accounts(st, intents)
    ensures DistinctTrades(st.book.trades) && NoRepeats(TradeIds(st.book.trades))
  {
    FilledNoRepeats(st.log.orders);
    forall i, j | 0 <= i < j < |st.book.trades| ensures st.book.trades[i].id != st.book.trades[j].id {
      assert TradeIds(st.book.trades)[i] != TradeIds(st.book.trades)[j];
    }
  }

  lemma {:induction false} OrderedTradesPass(intents: seq<Intent>, trades: seq<TradeRecord>)
    requires Order.WellOrdered(intents) && KnownTrades(intents, trades)
    requires Sorting.Ordered(TradeEvents(trades, intents), EventBefore)
    ensures TradesInOrder(intents, trades)
  {
    TapeIsTotal(intents);
    TradeEventsAre(intents, trades);
    var events := TradeEvents(trades, intents);
    forall i | 0 <= i < |trades| - 1 && trades[i].session == trades[i + 1].session
      ensures !ExecutesBefore(events[i + 1].intent, events[i].intent)
    {
      assert EventBefore(events[i], events[i + 1]);
      assert events[i].intent in Order.Elements(intents) && events[i + 1].intent in Order.Elements(intents);
    }
  }

  /** What is known of the state whose trades are validated. */
  ghost predicate Final(intents: seq<Intent>, st: State) {
    Accounts(st, intents) && Told(intents, st) && KnownTrades(intents, st.book.trades)
  }

  lemma {:induction false} FillEventsGrow(xs: seq<OrderRecord>, ys: seq<OrderRecord>, intents: seq<Intent>)
    requires xs <= ys
    ensures FillEvents(xs, intents) <= FillEvents(ys, intents)
  {
    if |xs| < |ys| {
      assert xs <= ys[..|ys| - 1];
      FillEventsGrow(xs, ys[..|ys| - 1], intents);
    } else {
      assert xs == ys;
    }
  }

  /** A filled order is a trade of its session, any other order is none. */
  lemma {:induction false} FilledTells(intents: seq<Intent>, final: State, orders: seq<OrderRecord>, t: Intent,
      session: nat, phase: Phase)
    requires UniqueIds(intents) && t in intents && Final(intents, final)
    requires orders + [OrderOf(t, Filled, Some(session), Some(phase))] <= final.log.orders
    ensures TradeById(final.book.trades, t.id).Some? && TradeById(final.book.trades, t.id).value.session == session
  {
    var o, n := OrderOf(t, Filled, Some(session), Some(phase)), |FillEvents(orders, intents)|;
    EventsAppend(orders, t, o, intents);
    FillEventsGrow(orders + [o], final.log.orders, intents);
    assert FillEvents(orders + [o], intents)[n] == Event(session, t);
    TradeEventsAre(intents, final.book.trades);
    TradesAreDistinct(final, intents);
    assert TradeEvents(final.book.trades, intents)[n] == Event(session, t);
    DistinctFound(final.book.trades, n);
  }

  lemma {:induction false} OnePlace(orders: seq<OrderRecord>, i: nat, j: nat)
    requires NoRepeats(OrderIdList(orders)) && i < |orders| && j < |orders|
    ensures orders[i].id == orders[j].id ==> i == j
  {
    assert OrderIdList(orders)[i] == orders[i].id && OrderIdList(orders)[j] == orders[j].id;
  }

  lemma {:induction false} UnfilledTells(intents: seq<Intent>, final: State, orders: seq<OrderRecord>, o: OrderRecord)
    requires Final(intents, final) && orders + [o] <= final.log.orders && o.status != Filled
    ensures TradeById(final.book.trades, o.id).None?
  {
    var trades := final.book.trades;
    if TradeById(trades, o.id).Some? {
      TradeIsFound(trades, o.id);
      var j :| 0 <= j < |trades| && trades[j] == TradeById(trades, o.id).value;
      assert TradeIds(trades)[j] == o.id;
      var i := FilledAreOrders(final.log.orders, j);
      OnePlace(final.log.orders, i, |orders|);
    }
  }

  // ---- the scan beside the engine ----

  /** The scan state that says what a log says. */
  function ScanOf(log: OrderLog): OrderScan {
    OrderScan(log, IdSet(FilledIds(log.orders)))
  }

  /** A scan that has the log of the engine, or has failed where it may not pass. */
  ghost predicate Follows(scan: Result<OrderScan>, passes: bool, log: OrderLog) {
    (scan.Ok? <==> passes) && (scan.Ok? ==> scan.value == ScanOf(log))
  }

  lemma {:induction false} FollowsOn(scan: Result<OrderScan>, passes: bool, log: OrderLog, step: Result<OrderScan>,
      more: bool, next: OrderLog, after: Result<OrderScan>)
    requires Follows(scan, passes, log) && Follows(step, more, next) && after == if scan.Ok? then step else scan
    ensures Follows(after, passes && more, next)
  {
  }

  /** The intent stays on the book although the trade list fills it later. */
  predicate Rests(account: Account, bar: Bar, trades: seq<TradeRecord>, log: OrderLog, t: Intent) {
    && !OcoDone(log, t) && FillDecision(account, bar, t) == Ok(None)
    && t.timeInForce == Gtc && TradeById(trades, t.id).Some?
  }

  lemma {:induction false} ScanUnfilled(log: OrderLog, o: OrderRecord, completed: set<Id>)
    requires o.status != Filled
    ensures ScanOf(OrderLog(log.orders + [o], completed, log.filledOco)).seen == ScanOf(log).seen
  {
    FilledConcat(log.orders, [o]);
    assert FilledIds([o]) == [];
    assert FilledIds(log.orders) + [] == FilledIds(log.orders);
  }

  lemma {:induction false} ScanFilled(log: OrderLog, o: OrderRecord)
    requires o.status == Filled
    ensures IdSet(FilledIds(log.orders + [o])) == IdSet(FilledIds(log.orders)) + {o.id}
  {
    assert (log.orders + [o])[..|log.orders|] == log.orders;
    AppendId(FilledIds(log.orders), o.id);
  }

  /** The scan follows the engine through an intent, except where it rests. */
  lemma {:induction false} ScanFollows(intents: seq<Intent>, final: State, account: Account, bar: Bar, st: State,
      t: Intent)
    requires UniqueIds(intents) && t in intents && Final(intents, final)
    requires ProcessIntent(account, bar, st, t).Ok?
    requires ProcessIntent(account, bar, st, t).value.log.orders <= final.log.orders
    ensures Follows(ScanIntent(account, bar, final.book.trades, ScanOf(st.log), t),
                    !Rests(account, bar, final.book.trades, st.log, t), ProcessIntent(account, bar, st, t).value.log)
  {
    IntentParts(account, bar, st, t);
    if OcoDone(st.log, t) {
      ScanUnfilled(st.log, OrderOf(t, Cancelled, None, None), st.log.completed + {t.id});
    } else if FillDecision(account, bar, t).value.Some? {
      var fill := FillDecision(account, bar, t).value.value;
      FilledTells(intents, final, st.log.orders, t, bar.seqNo, fill.phase);
      TradeIsFound(final.book.trades, t.id);
      ScanFilled(st.log, OrderOf(t, Filled, Some(bar.seqNo), Some(fill.phase)));
    } else if t.timeInForce == Day {
      UnfilledTells(intents, final, st.log.orders, OrderOf(t, Expired, None, None));
      ScanUnfilled(st.log, OrderOf(t, Expired, None, None), st.log.completed + {t.id});
    }
  }

  /** Filled, but in a later session. */
  predicate Waits(trades: seq<TradeRecord>, t: Intent, bar: Bar) {
    TradeById(trades, t.id).Some? && TradeById(trades, t.id).value.session > bar.seqNo
  }

  /** The trades of the run up to a state, and those that come later. */
  ghost predicate SplitsAt(end: State, trades: seq<TradeRecord>, session: nat) {
    && end.book.trades <= trades && IdSet(TradeIds(end.book.trades)) <= end.log.completed
    && forall j :: |end.book.trades| <= j < |trades| ==> TradeSession(trades[j]) > session
  }

  lemma {:induction false} TradesAreCompleted(st: State)
    requires IdSet(TradeIds(st.book.trades)) <= st.log.completed
    ensures forall j :: 0 <= j < |st.book.trades| ==> st.book.trades[j].id in st.log.completed
  {
    forall j | 0 <= j < |st.book.trades| ensures st.book.trades[j].id in st.log.completed {
      assert TradeIds(st.book.trades)[j] in IdSet(TradeIds(st.book.trades));
    }
  }

  /** An intent rests exactly where its trade comes later. */
  lemma {:induction false} RestsExactly(intents: seq<Intent>, final: State, account: Account, bar: Bar, st: State,
      t: Intent, end: State)
    requires UniqueIds(intents) && t in intents && Final(intents, final) && t.id !in st.log.completed
    requires ProcessIntent(account, bar, st, t).Ok?
    requires ProcessIntent(account, bar, st, t).value.log.orders <= final.log.orders
    requires SplitsAt(end, final.book.trades, bar.seqNo)
    requires t.id !in ProcessIntent(account, bar, st, t).value.log.completed ==> t.id !in end.log.completed
    ensures Rests(account, bar, final.book.trades, st.log, t) <==> Waits(final.book.trades, t, bar)
  {
    IntentParts(account, bar, st, t);
    if OcoDone(st.log, t) {
      UnfilledTells(intents, final, st.log.orders, OrderOf(t, Cancelled, None, None));
    } else if FillDecision(account, bar, t).value.Some? {
      FilledTells(intents, final, st.log.orders, t, bar.seqNo, FillDecision(account, bar, t).value.value.phase);
    } else if t.timeInForce == Day {
      UnfilledTells(intents, final, st.log.orders, OrderOf(t, Expired, None, None));
    } else if TradeById(final.book.trades, t.id).Some? {
      var trades := final.book.trades;
      TradeIsFound(trades, t.id);
      var j :| 0 <= j < |trades| && trades[j] == TradeById(trades, t.id).value;
      TradesAreCompleted(end);
      assert TradeSession(trades[j]) > bar.seqNo;
    }
  }

  // ---- later states contain earlier ones ----

  lemma {:induction false} OrdersOnlyGrow(account: Account, bar: Bar, st: State, due: seq<Intent>, m: nat, n: nat)
    requires m <= n <= |due| && ProcessIntents(account, bar, st, due, n).Ok?
    ensures ProcessIntents(account, bar, st, due, m).Ok?
    ensures ProcessIntents(account, bar, st, due, m).value.log.orders
            <= ProcessIntents(account, bar, st, due, n).value.log.orders
    ensures forall id :: id in ProcessIntents(account, bar, st, due, n).value.log.completed ==>
              id in ProcessIntents(account, bar, st, due, m).value.log.completed
              || exists j :: m <= j < n && due[j].id == id
  {
    if m < n {
      OrdersOnlyGrow(account, bar, st, due, m, n - 1);
      EngineIsOutcome(account, bar, ProcessIntents(account, bar, st, due, n - 1).value, due[n - 1]);
    }
  }

  /** Intent m of a schedule, if it did not complete at its turn, is open after the bar. */
  lemma {:induction false} OpenAtEnd(account: Account, bar: Bar, st: State, due: seq<Intent>, m: nat, n: nat)
    requires m < n <= |due| && ProcessIntents(account, bar, st, due, n).Ok?
    requires UniqueIds(due)
    ensures ProcessIntents(account, bar, st, due, m + 1).Ok?
    ensures due[m].id !in ProcessIntents(account, bar, st, due, m + 1).value.log.completed ==>
              due[m].id !in ProcessIntents(account, bar, st, due, n).value.log.completed
  {
    OrdersOnlyGrow(account, bar, st, due, m + 1, n);
  }

  lemma {:induction false} NextReplay(input: Input, i: nat)
    requires i < |input.bars|
    ensures Replay(input, i + 1) == match Replay(input, i)
                                    case Ok(st) => ProcessBar(input, input.bars[i], st)
                                    case Err(e) => Err(e)
  {
  }

  /** `later` holds all orders and trades of `st`, and the trades it has besides come
      after the bound. */
  ghost predicate Contains(later: State, st: State, bound: int) {
    && st.log.orders <= later.log.orders && st.book.trades <= later.book.trades
    && st.book.cashLedger <= later.book.cashLedger
    && forall j :: |st.book.trades| <= j < |later.book.trades| ==> TradeSession(later.book.trades[j]) > bound
  }

  lemma {:induction false} BarContains(input: Input, bar: Bar, before: State, st: State, bound: int)
    requires UniqueIds(input.intents) && ProcessBar(input, bar, before).Ok?
    requires Contains(before, st, bound) && bound < bar.seqNo
    ensures Contains(ProcessBar(input, bar, before).value, st, bound)
  {
    var next := ProcessBar(input, bar, before).value;
    BarGrows(input, bar, before);
    AfterIntents(input, bar, before);
    var due := Schedule(input.intents, before.log.completed, bar.seqNo);
    OrdersOnlyGrow(input.account, bar, before, due, 0, |due|);
    LaterTrades(before.book.trades, next.book.trades, bar.seqNo, |st.book.trades|, bound);
  }

  lemma {:induction false} FromGrows(input: Input, st: State, i: nat, k: nat, bound: int)
    requires UniqueIds(input.intents) && i <= k <= |input.bars| && BarsFrom(input, st, i, k).Ok?
    requires forall j :: i <= j < k ==> bound < input.bars[j].seqNo
    ensures Contains(BarsFrom(input, st, i, k).value, st, bound)
  {
    if i < k {
      FromGrows(input, st, i, k - 1, bound);
      BarContains(input, input.bars[k - 1], BarsFrom(input, st, i, k - 1).value, st, bound);
    }
  }

  lemma {:induction false} RunContinues(input: Input, i: nat, k: nat)
    requires i <= k <= |input.bars| && Replay(input, k).Ok?
    ensures Replay(input, i).Ok?
    ensures BarsFrom(input, Replay(input, i).value, i, k) == Replay(input, k)
  {
    var start := InitialState(input.account);
    if Replay(input, i).Err? { FoldStops(BarStep(input), start, input.bars, 0, i, k); }
    FoldComposes(BarStep(input), start, input.bars, 0, i, k);
  }

  lemma {:induction false} LaterBars(bars: seq<Bar>, i: nat, j: nat)
    requires IncreasingBars(bars) && i <= j < |bars|
    ensures BoundOf(bars, i) < bars[j].seqNo
  {
    if 0 < i { BarsIncrease(bars, i - 1, j); }
  }

  lemma {:induction false} RunGrows(input: Input, i: nat, k: nat)
    requires UniqueIds(input.intents) && IncreasingBars(input.bars) && i <= k <= |input.bars| && Replay(input, k).Ok?
    ensures Replay(input, i).Ok?
    ensures Contains(Replay(input, k).value, Replay(input, i).value, BoundOf(input.bars, i))
  {
    RunContinues(input, i, k);
    forall j | i <= j < k ensures BoundOf(input.bars, i) < input.bars[j].seqNo { LaterBars(input.bars, i, j); }
    FromGrows(input, Replay(input, i).value, i, k, BoundOf(input.bars, i));
  }

  lemma {:induction false} LaterTrades(xs: seq<TradeRecord>, ys: seq<TradeRecord>, session: nat, n: nat, bound: int)
    requires Grows(xs, ys, TradeSession, session) && bound < session && n <= |xs|
    requires forall j :: n <= j < |xs| ==> TradeSession(xs[j]) > bound
    ensures xs <= ys
    ensures forall j :: n <= j < |ys| ==> TradeSession(ys[j]) > bound
  {
    forall j | n <= j < |ys| ensures TradeSession(ys[j]) > bound {
      if j < |xs| { assert ys[j] == xs[j]; }
    }
  }

  // ---- one bar ----

  ghost predicate SomeWaits(trades: seq<TradeRecord>, due: seq<Intent>, bar: Bar, n: nat)
    requires n <= |due|
  {
    exists m :: 0 <= m < n && Waits(trades, due[m], bar)
  }

  /** A bar that ends in `end`, with the schedule of its intents, inside a run with the final state. */
  ghost predicate BarEnds(intents: seq<Intent>, final: State, account: Account, bar: Bar, st: State, due: seq<Intent>,
      end: State) {
    && UniqueIds(intents) && Final(intents, final) && UniqueIds(due) && NotYet(st.log, due, 0)
    && (forall j :: 0 <= j < |due| ==> due[j] in intents)
    && ProcessIntents(account, bar, st, due, |due|).Ok?
    && ProcessIntents(account, bar, st, due, |due|).value.log == end.log
    && end.log.orders <= final.log.orders && SplitsAt(end, final.book.trades, bar.seqNo)
  }

  /** One intent of the bar, scanned beside the engine. */
  lemma {:induction false} TurnFollows(intents: seq<Intent>, final: State, account: Account, bar: Bar, before: State,
      t: Intent, after: State, end: State)
    requires UniqueIds(intents) && t in intents && Final(intents, final) && t.id !in before.log.completed
    requires ProcessIntent(account, bar, before, t) == Ok(after) && after.log.orders <= final.log.orders
    requires SplitsAt(end, final.book.trades, bar.seqNo)
    requires t.id !in after.log.completed ==> t.id !in end.log.completed
    ensures Follows(ScanIntent(account, bar, final.book.trades, ScanOf(before.log), t),
                    !Waits(final.book.trades, t, bar), after.log)
  {
    ScanFollows(intents, final, account, bar, before, t);
    RestsExactly(intents, final, account, bar, before, t, end);
  }

  lemma {:induction false} EngineNotYet(account: Account, bar: Bar, st: State, due: seq<Intent>, n: nat)
    requires n <= |due| && UniqueIds(due) && NotYet(st.log, due, 0) && ProcessIntents(account, bar, st, due, n).Ok?
    ensures NotYet(ProcessIntents(account, bar, st, due, n).value.log, due, n)
  {
    if n > 0 {
      EngineNotYet(account, bar, st, due, n - 1);
      EngineKeepsNotYet(account, bar, ProcessIntents(account, bar, st, due, n - 1).value, due, n - 1);
    }
  }

  /** The engine before and after the last of n intents of a bar. */
  lemma {:induction false} EngineTurn(account: Account, bar: Bar, st: State, due: seq<Intent>, n: nat)
    requires 0 < n <= |due| && UniqueIds(due) && NotYet(st.log, due, 0)
    requires ProcessIntents(account, bar, st, due, |due|).Ok?
    ensures ProcessIntents(account, bar, st, due, n - 1).Ok? && ProcessIntents(account, bar, st, due, n).Ok?
    ensures ProcessIntent(account, bar, ProcessIntents(account, bar, st, due, n - 1).value, due[n - 1])
            == ProcessIntents(account, bar, st, due, n)
    ensures due[n - 1].id !in ProcessIntents(account, bar, st, due, n - 1).value.log.completed
    ensures due[n - 1].id !in ProcessIntents(account, bar, st, due, n).value.log.completed ==>
              due[n - 1].id !in ProcessIntents(account, bar, st, due, |due|).value.log.completed
    ensures ProcessIntents(account, bar, st, due, n).value.log.orders
            <= ProcessIntents(account, bar, st, due, |due|).value.log.orders
  {
    OrdersOnlyGrow(account, bar, st, due, n, |due|);
    EngineNotYet(account, bar, st, due, n - 1);
    OpenAtEnd(account, bar, st, due, n - 1, |due|);
  }

  /** The scan of n intents has the log of the engine exactly when none of them waits. */
  ghost predicate IntentsFollowed(trades: seq<TradeRecord>, account: Account, bar: Bar, st: State, due: seq<Intent>,
      n: nat)
    requires n <= |due|
  {
    && ProcessIntents(account, bar, st, due, n).Ok?
    && Follows(Fold(IntentCheck(account, bar, trades), ScanOf(st.log), due, 0, n), !SomeWaits(trades, due, bar, n),
               ProcessIntents(account, bar, st, due, n).value.log)
  }

  lemma {:induction false} ScanTurn(account: Account, bar: Bar, trades: seq<TradeRecord>, s: OrderScan,
      due: seq<Intent>, n: nat, log: OrderLog)
    requires 0 < n <= |due|
    requires var before := Fold(IntentCheck(account, bar, trades), s, due, 0, n - 1);
             before.Ok? ==> before.value == ScanOf(log)
    ensures var before := Fold(IntentCheck(account, bar, trades), s, due, 0, n - 1);
            Fold(IntentCheck(account, bar, trades), s, due, 0, n)
            == if before.Ok? then ScanIntent(account, bar, trades, ScanOf(log), due[n - 1]) else before
  {
  }

  lemma {:induction false} ScanFollowsTurn(trades: seq<TradeRecord>, account: Account, bar: Bar, st: State,
      due: seq<Intent>, n: nat)
    requires 0 < n <= |due| && IntentsFollowed(trades, account, bar, st, due, n - 1)
    requires ProcessIntents(account, bar, st, due, n).Ok?
    requires Follows(ScanIntent(account, bar, trades, ScanOf(ProcessIntents(account, bar, st, due, n - 1).value.log),
                                due[n - 1]),
                     !Waits(trades, due[n - 1], bar), ProcessIntents(account, bar, st, due, n).value.log)
    ensures IntentsFollowed(trades, account, bar, st, due, n)
  {
    var before, after := ProcessIntents(account, bar, st, due, n - 1).value.log,
                         ProcessIntents(account, bar, st, due, n).value.log;
    ScanTurn(account, bar, trades, ScanOf(st.log), due, n, before);
    SomeWaitsNext(trades, due, bar, n);
    FollowsOn(Fold(IntentCheck(account, bar, trades), ScanOf(st.log), due, 0, n - 1),
              !SomeWaits(trades, due, bar, n - 1), before,
              ScanIntent(account, bar, trades, ScanOf(before), due[n - 1]), !Waits(trades, due[n - 1], bar), after,
              Fold(IntentCheck(account, bar, trades), ScanOf(st.log), due, 0, n));
  }

  lemma {:induction false} ScanFollowsNext(intents: seq<Intent>, final: State, account: Account, bar: Bar, st: State,
      due: seq<Intent>, n: nat, end: State)
    requires BarEnds(intents, final, account, bar, st, due, end) && 0 < n <= |due|
    requires IntentsFollowed(final.book.trades, account, bar, st, due, n - 1)
    ensures IntentsFollowed(final.book.trades, account, bar, st, due, n)
  {
    EngineTurn(account, bar, st, due, n);
    TurnFollows(intents, final, account, bar, ProcessIntents(account, bar, st, due, n - 1).value, due[n - 1],
                ProcessIntents(account, bar, st, due, n).value, end);
    ScanFollowsTurn(final.book.trades, account, bar, st, due, n);
  }

  /** The scan of a bar follows the engine exactly when none of its intents waits. */
  lemma {:induction false} ScanFollowsIntents(intents: seq<Intent>, final: State, account: Account, bar: Bar, st: State,
      due: seq<Intent>, n: nat, end: State)
    requires BarEnds(intents, final, account, bar, st, due, end) && n <= |due|
    ensures IntentsFollowed(final.book.trades, account, bar, st, due, n)
  {
    if n > 0 {
      ScanFollowsIntents(intents, final, account, bar, st, due, n - 1, end);
      ScanFollowsNext(intents, final, account, bar, st, due, n, end);
    }
  }

  lemma {:induction false} SomeWaitsNext(trades: seq<TradeRecord>, due: seq<Intent>, bar: Bar, n: nat)
    requires 0 < n <= |due|
    ensures SomeWaits(trades, due, bar, n) <==> SomeWaits(trades, due, bar, n - 1) || Waits(trades, due[n - 1], bar)
  {
  }

  /** No trade of the list could have been filled by this bar but was filled later. */
  predicate FilledAtOnce(intents: seq<Intent>, trades: seq<TradeRecord>, bar: Bar) {
    forall i :: 0 <= i < |trades| ==>
      var t := IntentById(intents, trades[i].id);
      t.Some? && Live(t.value, bar.seqNo) ==> trades[i].session <= bar.seqNo
  }

  /** A trade whose intent has completed by then is among the trades by then. */
  lemma {:induction false} CompletedTrade(intents: seq<Intent>, final: State, st: State, i: nat)
    requires Final(intents, final) && Accounts(st, intents) && i < |final.book.trades|
    requires st.log.orders <= final.log.orders && st.book.trades <= final.book.trades
    requires final.book.trades[i].id in st.log.completed
    ensures i < |st.book.trades|
  {
    var id := final.book.trades[i].id;
    var p :| 0 <= p < |st.log.orders| && OrderIdList(st.log.orders)[p] == id;
    assert TradeIds(final.book.trades)[i] == id;
    var q := FilledAreOrders(final.log.orders, i);
    OnePlace(final.log.orders, p, q);
    var n := FilledPosition(st.log.orders, p);
    assert TradeIds(st.book.trades)[n] == id;
    TradesAreDistinct(final, intents);
    assert final.book.trades[n].id == id;
  }

  lemma {:induction false} FilledPosition(orders: seq<OrderRecord>, p: nat) returns (n: nat)
    requires p < |orders| && orders[p].status == Filled
    ensures n < |FilledIds(orders)| && FilledIds(orders)[n] == orders[p].id
  {
    var last := |orders| - 1;
    if p < last {
      n := FilledPosition(orders[..last], p);
    } else {
      n := |FilledIds(orders[..last])|;
    }
  }

  /** Some intent of the schedule waits exactly when some trade was not filled at once. */
  lemma {:induction false} WaitsExactly(intents: seq<Intent>, final: State, st: State, bar: Bar)
    requires UniqueIds(intents) && Final(intents, final) && Accounts(st, intents)
    requires st.log.orders <= final.log.orders && st.book.trades <= final.book.trades
    requires forall j :: 0 <= j < |st.book.trades| ==> TradeSession(st.book.trades[j]) < bar.seqNo
    ensures var due := Schedule(intents, st.log.completed, bar.seqNo);
            SomeWaits(final.book.trades, due, bar, |due|) <==> !FilledAtOnce(intents, final.book.trades, bar)
  {
    var due, trades := Schedule(intents, st.log.completed, bar.seqNo), final.book.trades;
    ScheduleIs(intents, st.log.completed, bar.seqNo);
    if !FilledAtOnce(intents, trades, bar) {
      var i :| 0 <= i < |trades| && IntentById(intents, trades[i].id).Some?
               && Live(IntentById(intents, trades[i].id).value, bar.seqNo) && trades[i].session > bar.seqNo;
      var t := IntentById(intents, trades[i].id).value;
      LookupFinds(intents, trades[i].id);
      if t.id in st.log.completed { CompletedTrade(intents, final, st, i); }
      assert i < |st.book.trades| ==> TradeSession(st.book.trades[i]) < bar.seqNo;
      TradesAreDistinct(final, intents);
      DistinctFound(trades, i);
      assert t in due;
      var m :| 0 <= m < |due| && due[m] == t;
      assert Waits(trades, due[m], bar);
    }
    if SomeWaits(trades, due, bar, |due|) {
      var m :| 0 <= m < |due| && Waits(trades, due[m], bar);
      assert due[m] in due;
      IntentIsFound(intents, due[m]);
      TradeIsFound(trades, due[m].id);
      var i :| 0 <= i < |trades| && trades[i] == TradeById(trades, due[m].id).value;
    }
  }

  // ---- the run ----

  predicate AllAtOnce(input: Input, trades: seq<TradeRecord>, i: nat)
    requires i <= |input.bars|
  {
    forall j :: 0 <= j < i ==> FilledAtOnce(input.intents, trades, input.bars[j])
  }

  lemma {:induction false} RunIsFinal(input: Input, k: nat)
    requires ValidInput(input) && Order.WellOrdered(input.intents) && k <= |input.bars| && Replay(input, k).Ok?
    ensures Final(input.intents, Replay(input, k).value)
  {
    RunAccounted(input, k);
    RunIsTold(input, k);
    RunIsRecomputed(input, k);
    TradesAreKnown(input, input.bars[..k], Replay(input, k).value.book);
  }

  /** The states around bar i, seen from the end of the run. */
  ghost predicate Around(input: Input, st: State, bar: Bar, end: State, final: State) {
    && ProcessBar(input, bar, st) == Ok(end)
    && Final(input.intents, final) && Accounts(st, input.intents)
    && st.log.orders <= final.log.orders && st.book.trades <= final.book.trades
    && end.log.orders <= final.log.orders && SplitsAt(end, final.book.trades, bar.seqNo)
    && forall j :: 0 <= j < |st.book.trades| ==> TradeSession(st.book.trades[j]) < bar.seqNo
  }

  lemma {:induction false} ContainedSplits(end: State, final: State, session: nat)
    requires Contains(final, end, session) && IdSet(TradeIds(end.book.trades)) <= end.log.completed
    ensures SplitsAt(end, final.book.trades, session) && end.log.orders <= final.log.orders
  {
  }

  lemma {:induction false} RunTradesCompleted(input: Input, k: nat)
    requires ValidTape(input.intents, input.account) && IncreasingBars(input.bars)
    requires k <= |input.bars| && Replay(input, k).Ok?
    ensures IdSet(TradeIds(Replay(input, k).value.book.trades)) <= Replay(input, k).value.log.completed
  {
    RunIsRecomputed(input, k);
  }

  lemma {:induction false} ContainedAfter(input: Input, i: nat, k: nat)
    requires UniqueIds(input.intents) && IncreasingBars(input.bars) && i < k <= |input.bars| && Replay(input, k).Ok?
    ensures Replay(input, i + 1).Ok?
    ensures Contains(Replay(input, k).value, Replay(input, i + 1).value, input.bars[i].seqNo)
  {
    RunGrows(input, i + 1, k);
    assert BoundOf(input.bars, i + 1) == input.bars[i].seqNo;
  }

  lemma {:induction false} SplitsAfter(input: Input, i: nat, k: nat)
    requires ValidTape(input.intents, input.account) && IncreasingBars(input.bars)
    requires i < k <= |input.bars| && Replay(input, k).Ok?
    ensures Replay(input, i + 1).Ok?
    ensures Replay(input, i + 1).value.log.orders <= Replay(input, k).value.log.orders
    ensures SplitsAt(Replay(input, i + 1).value, Replay(input, k).value.book.trades, input.bars[i].seqNo)
  {
    ContainedAfter(input, i, k);
    RunTradesCompleted(input, i + 1);
    ContainedSplits(Replay(input, i + 1).value, Replay(input, k).value, input.bars[i].seqNo);
  }

  lemma {:induction false} StartsBefore(input: Input, i: nat, k: nat)
    requires ValidInput(input) && i < k <= |input.bars| && Replay(input, k).Ok?
    ensures Replay(input, i).Ok?
    ensures Replay(input, i).value.log.orders <= Replay(input, k).value.log.orders
    ensures Replay(input, i).value.book.trades <= Replay(input, k).value.book.trades
    ensures var trades := Replay(input, i).value.book.trades;
            forall j :: 0 <= j < |trades| ==> TradeSession(trades[j]) < input.bars[i].seqNo
  {
    RunGrows(input, i, k);
    RunIsScanned(input, i);
    EarlierBars(input.bars, i);
    EarlierSessions(Replay(input, i).value.book.trades, input.bars[..i], input.bars[i].seqNo);
  }

  lemma {:induction false} RunIsAround(input: Input, i: nat, k: nat)
    requires ValidInput(input) && Order.WellOrdered(input.intents)
    requires i < k <= |input.bars| && Replay(input, k).Ok?
    ensures Replay(input, i).Ok? && Replay(input, i + 1).Ok?
    ensures Around(input, Replay(input, i).value, input.bars[i], Replay(input, i + 1).value, Replay(input, k).value)
  {
    StartsBefore(input, i, k);
    SplitsAfter(input, i, k);
    NextReplay(input, i);
    RunIsFinal(input, k);
    RunAccounted(input, i);
  }

  lemma {:induction false} ScanFollowsBar(input: Input, st: State, bar: Bar, end: State, final: State)
    requires UniqueIds(input.intents) && Order.WellOrdered(input.intents) && Around(input, st, bar, end, final)
    ensures Follows(ScanBar(input, final.book.trades, ScanOf(st.log), bar),
                    FilledAtOnce(input.intents, final.book.trades, bar), end.log)
  {
    AfterIntents(input, bar, st);
    WaitsExactly(input.intents, final, st, bar);
    var due := Schedule(input.intents, st.log.completed, bar.seqNo);
    ScheduleIsGood(input.intents, st.log, bar.seqNo);
    ScanFollowsIntents(input.intents, final, input.account, bar, st, due, |due|, end);
  }

  lemma {:induction false} BarScanFollows(input: Input, i: nat, k: nat)
    requires ValidInput(input) && Order.WellOrdered(input.intents)
    requires 0 < i <= k <= |input.bars| && Replay(input, k).Ok?
    ensures Replay(input, i - 1).Ok? && Replay(input, i).Ok?
    ensures Follows(ScanBar(input, Replay(input, k).value.book.trades, ScanOf(Replay(input, i - 1).value.log),
                            input.bars[i - 1]),
                    FilledAtOnce(input.intents, Replay(input, k).value.book.trades, input.bars[i - 1]),
                    Replay(input, i).value.log)
  {
    RunIsAround(input, i - 1, k);
    ScanFollowsBar(input, Replay(input, i - 1).value, input.bars[i - 1], Replay(input, i).value,
                   Replay(input, k).value);
  }

  /** After i bars the order scan has the engine's log exactly when every fill came at once. */
  ghost predicate ScanHasLog(input: Input, trades: seq<TradeRecord>, bars: seq<Bar>, i: nat, log: OrderLog)
    requires i <= |bars| && i <= |input.bars|
  {
    Follows(Fold(BarCheck(input, trades), EMPTY_ORDER_SCAN, bars, 0, i), AllAtOnce(input, trades, i), log)
  }

  lemma {:induction false} ScanStarts(input: Input, trades: seq<TradeRecord>, bars: seq<Bar>)
    ensures ScanHasLog(input, trades, bars, 0, InitialState(input.account).log)
  {
    assert IdSet(FilledIds([])) == {};
  }

  lemma {:induction false} ScanBarNext(input: Input, trades: seq<TradeRecord>, bars: seq<Bar>, i: nat, log: OrderLog)
    requires 0 < i <= |bars|
    requires var before := Fold(BarCheck(input, trades), EMPTY_ORDER_SCAN, bars, 0, i - 1);
             before.Ok? ==> before.value == ScanOf(log)
    ensures var before := Fold(BarCheck(input, trades), EMPTY_ORDER_SCAN, bars, 0, i - 1);
            Fold(BarCheck(input, trades), EMPTY_ORDER_SCAN, bars, 0, i)
            == if before.Ok? then ScanBar(input, trades, ScanOf(log), bars[i - 1]) else before
  {
  }

  lemma {:induction false} NextHasLog(input: Input, trades: seq<TradeRecord>, bars: seq<Bar>, i: nat, before: OrderLog,
      after: OrderLog)
    requires 0 < i <= |bars| && i <= |input.bars| && bars[i - 1] == input.bars[i - 1]
    requires ScanHasLog(input, trades, bars, i - 1, before)
    requires Follows(ScanBar(input, trades, ScanOf(before), input.bars[i - 1]),
                     FilledAtOnce(input.intents, trades, input.bars[i - 1]), after)
    ensures ScanHasLog(input, trades, bars, i, after)
  {
    AllAtOnceNext(input, trades, i);
    ScanBarNext(input, trades, bars, i, before);
    FollowsOn(Fold(BarCheck(input, trades), EMPTY_ORDER_SCAN, bars, 0, i - 1), AllAtOnce(input, trades, i - 1), before,
              ScanBar(input, trades, ScanOf(before), bars[i - 1]), FilledAtOnce(input.intents, trades, bars[i - 1]),
              after,
              Fold(BarCheck(input, trades), EMPTY_ORDER_SCAN, bars, 0, i));
  }

  /** The scan over the bars of a replay has the log of its state after i bars, as ScanHasLog says. */
  ghost predicate ReplayScanned(input: Input, i: nat, k: nat) {
    && i <= k <= |input.bars| && Replay(input, i).Ok? && Replay(input, k).Ok?
    && ScanHasLog(input, Replay(input, k).value.book.trades, input.bars[..k], i, Replay(input, i).value.log)
  }

  lemma {:induction false} RunScanNext(input: Input, i: nat, k: nat)
    requires ValidInput(input) && Order.WellOrdered(input.intents)
    requires 0 < i <= k <= |input.bars| && ReplayScanned(input, i - 1, k)
    ensures ReplayScanned(input, i, k)
  {
    BarScanFollows(input, i, k);
    NextHasLog(input, Replay(input, k).value.book.trades, input.bars[..k], i, Replay(input, i - 1).value.log,
               Replay(input, i).value.log);
  }

  lemma {:induction false} RunScanBegins(input: Input, k: nat)
    requires k <= |input.bars| && Replay(input, k).Ok?
    ensures ReplayScanned(input, 0, k)
  {
    ScanStarts(input, Replay(input, k).value.book.trades, input.bars[..k]);
  }

  lemma {:induction false} RunScanFollows(input: Input, i: nat, k: nat)
    requires ValidInput(input) && Order.WellOrdered(input.intents) && i <= k <= |input.bars|
    requires ReplayScanned(input, 0, k)
    ensures ReplayScanned(input, i, k)
  {
    if i > 0 {
      RunScanFollows(input, i - 1, k);
      RunScanNext(input, i, k);
    }
  }

  lemma {:induction false} AllAtOnceNext(input: Input, trades: seq<TradeRecord>, i: nat)
    requires 0 < i <= |input.bars|
    ensures AllAtOnce(input, trades, i)
            <==> AllAtOnce(input, trades, i - 1) && FilledAtOnce(input.intents, trades, input.bars[i - 1])
  {
  }

  // ---- the validators, one at a time ----

  lemma {:induction false} OrdersPassExactly(input: Input, k: nat)
    requires ValidInput(input) && Order.WellOrdered(input.intents) && k <= |input.bars| && Replay(input, k).Ok?
    ensures ValidateOrders(input, input.bars[..k], Replay(input, k).value).Ok?
            <==> AllAtOnce(input, Replay(input, k).value.book.trades, k)
  {
    var st := Replay(input, k).value;
    RunScanBegins(input, k);
    RunScanFollows(input, k, k);
    RunAccounted(input, k);
    TradesAreDistinct(st, input.intents);
    SizeOfIds(TradeIds(st.book.trades));
  }

  lemma {:induction false} RunTradesKnown(input: Input, k: nat)
    requires ValidInput(input) && Order.WellOrdered(input.intents) && k <= |input.bars| && Replay(input, k).Ok?
    ensures KnownTrades(input.intents, Replay(input, k).value.book.trades)
  {
    RunIsFinal(input, k);
  }

  lemma {:induction false} RecomputedPasses(input: Input, bars: seq<Bar>, b: Book)
    requires TradesInOrder(input.intents, b.trades)
    requires TradesScanned(input, bars, b) && LotsScanned(input.account, bars, b) && TotalsScanned(input.account, b)
    ensures ValidateTrades(input, bars, b).Ok? && ValidateLots(input.account, bars, b).Ok? && ValidateTotals(b).Ok?
  {
  }

  lemma {:induction false} TradesPass(input: Input, k: nat)
    requires ValidInput(input) && Order.WellOrdered(input.intents) && k <= |input.bars| && Replay(input, k).Ok?
    ensures ValidateTrades(input, input.bars[..k], Replay(input, k).value.book).Ok?
    ensures ValidateLots(input.account, input.bars[..k], Replay(input, k).value.book).Ok?
    ensures ValidateTotals(Replay(input, k).value.book).Ok?
  {
    var b := Replay(input, k).value.book;
    RunIsTold(input, k);
    RunTradesKnown(input, k);
    OrderedTradesPass(input.intents, b.trades);
    RunIsRecomputed(input, k);
    RecomputedPasses(input, input.bars[..k], b);
  }

  lemma {:induction false} LedgersPassExactly(input: Input, k: nat)
    requires ValidInput(input) && k <= |input.bars| && Replay(input, k).Ok?
    ensures ValidateLedgers(input, input.bars[..k], Replay(input, k).value.book).Ok?
            <==> AllFit(Replay(input, k).value.book.cashLedger)
  {
    RunIsRebuilt(input, k);
    RunFits(input, k);
    RunIsScanned(input, k);
    LedgersCheckOut(input, input.bars[..k], Replay(input, k).value.book);
  }

  lemma {:induction false} LedgersCheckOut(input: Input, bars: seq<Bar>, b: Book)
    requires LedgersRebuilt(input, bars, b) && CashRuns(input.account, b) && b.cash == b.wallet
    ensures ValidateLedgers(input, bars, b).Ok? <==> AllFit(b.cashLedger)
  {
  }

  lemma {:induction false} FilledAreFewer(orders: seq<OrderRecord>)
    ensures |FilledIds(orders)| <= |orders|
  {
    if orders != [] { FilledAreFewer(orders[..|orders| - 1]); }
  }

  lemma {:induction false} ShapePasses(input: Input, k: nat)
    requires ValidInput(input) && k <= |input.bars| && Replay(input, k).Ok?
    ensures ShapeChecks(input, input.bars[..k], Replay(input, k).value)
    ensures ExtremeChecks(input.account, Replay(input, k).value)
    ensures ValidateCurves(input.account, input.bars[..k], Replay(input, k).value).Ok?
  {
    RunIsScanned(input, k);
    RunIsRecomputed(input, k);
    RunAccounted(input, k);
    FilledAreFewer(Replay(input, k).value.log.orders);
  }

  lemma {:induction false} OrderIdsAre(orders: seq<OrderRecord>)
    ensures OrderIds(orders) == IdSet(OrderIdList(orders))
  {
    forall id | id in OrderIds(orders) ensures id in IdSet(OrderIdList(orders)) {
      var i :| 0 <= i < |orders| && orders[i].id == id;
      assert OrderIdList(orders)[i] == id;
    }
  }

  lemma {:induction false} SetsPass(input: Input, st: State)
    requires UniqueIds(input.intents) && Accounts(st, input.intents) && LastValues(input.account, st.book)
    ensures SetChecks(input, st)
  {
    var orders := st.log.orders;
    OrderIdsAre(orders);
    SizeOfIds(OrderIdList(orders));
    EntryFollows(input.account, st.book);
    forall id | id in st.log.completed ensures IntentById(input.intents, id).Some? {
      var i :| 0 <= i < |orders| && OrderIdList(orders)[i] == id;
      var j := IntentOfOrder(orders, input.intents, i);
      IntentIsFound(input.intents, input.intents[j]);
    }
  }

  lemma {:induction false} LotsAddUp(lots: seq<Lot>, bound: int, n: nat)
    requires WellFormed(lots, bound) && InI128(Total(lots)) && n <= |lots|
    ensures Fold(PositiveTotal, 0, lots, 0, n) == Ok(Total(lots[..n])) && 0 <= Total(lots[..n]) <= Total(lots)
  {
    if n > 0 {
      LotsAddUp(lots, bound, n - 1);
      AppendAmounts(lots[..n - 1], lots[n - 1].quantity, lots[n - 1].acquired);
      assert lots[..n] == lots[..n - 1] + [lots[n - 1]];
      TotalOfPrefix(lots, bound, n);
    } else {
      TotalOfPrefix(lots, bound, 0);
    }
  }

  lemma {:induction false} TotalOfPrefix(lots: seq<Lot>, bound: int, n: nat)
    requires WellFormed(lots, bound) && n <= |lots|
    ensures 0 <= Total(lots[..n]) <= Total(lots)
    decreases |lots| - n
  {
    if n == |lots| {
      assert lots[..n] == lots;
      ChecksAreExact(lots, 0, bound, 0);
    } else {
      TotalOfPrefix(lots, bound, n + 1);
      assert lots[..n + 1] == lots[..n] + [lots[n]];
      AppendAmounts(lots[..n], lots[n].quantity, lots[n].acquired);
      ChecksAreExact(lots[..n], 0, bound, 0);
    }
  }

  lemma {:induction false} HoldingsPass(input: Input, k: nat)
    requires ValidInput(input) && k <= |input.bars| && Replay(input, k).Ok?
    ensures ValidateHoldings(input.account, Replay(input, k).value.book).Ok?
  {
    var b := Replay(input, k).value.book;
    if input.account.model == AShareCash {
      Ledger.LedgerIsFifo(input, k);
      var bound := Ledger.LastSession(input, k);
      LotsAddUp(b.longLots, bound, |b.longLots|);
      LotsAddUp(b.shortLots, bound, |b.shortLots|);
      assert b.longLots[..|b.longLots|] == b.longLots && b.shortLots[..|b.shortLots|] == b.shortLots;
      EmptyTotals(b.longLots, b.shortLots, bound);
    } else {
      RunIsRecomputed(input, k);
    }
  }

  lemma {:induction false} EmptyTotals(longLots: seq<Lot>, shortLots: seq<Lot>, bound: int)
    requires WellFormed(longLots, bound) && WellFormed(shortLots, bound)
    requires longLots == [] || shortLots == []
    ensures Total(longLots) == 0 || Total(shortLots) == 0
    ensures Total(longLots) >= 0 && Total(shortLots) >= 0
  {
    ChecksAreExact(longLots, 0, bound, 0);
    ChecksAreExact(shortLots, 0, bound, 0);
  }

  /** The state the engine itself reached after k bars of a well-ordered tape is
      accepted if and only if no fill came after a bar its intent was already live on,
      and, on a perpetual account, the deltas of every ledger record fit. */
  lemma {:induction false} ReachedIsAcceptedExactly(input: Input, k: nat)
    requires ValidInput(input) && Order.WellOrdered(input.intents) && k <= |input.bars| && Replay(input, k).Ok?
    ensures var st := Replay(input, k).value;
            ValidateState(input, k, st).Ok? <==>
            && AllAtOnce(input, st.book.trades, k)
            && (input.account.model == LinearPerp ==> AllFit(st.book.cashLedger))
  {
    var st := Replay(input, k).value;
    ShapePasses(input, k);
    TradesPass(input, k);
    OrdersPassExactly(input, k);
    LedgersPassExactly(input, k);
    RunFits(input, k);
    RunAccounted(input, k);
    RunIsRecomputed(input, k);
    SetsPass(input, st);
    HoldingsPass(input, k);
  }

  ghost predicate AllDay(intents: seq<Intent>) {
    forall i :: 0 <= i < |intents| ==> intents[i].timeInForce == Day
  }

  /** A tape of day orders leaves nothing resting: on A-share accounts the engine is
      always accepted. */
  lemma {:induction false} DayTapesAreAccepted(input: Input, k: nat)
    requires ValidInput(input) && Order.WellOrdered(input.intents) && AllDay(input.intents)
    requires k <= |input.bars| && Replay(input, k).Ok?
    ensures AllAtOnce(input, Replay(input, k).value.book.trades, k)
    ensures input.account.model == AShareCash ==> ValidateState(input, k, Replay(input, k).value).Ok?
  {
    var trades := Replay(input, k).value.book.trades;
    RunIsRecomputed(input, k);
    forall j | 0 <= j < k ensures FilledAtOnce(input.intents, trades, input.bars[j]) {
      forall i | 0 <= i < |trades| && IntentById(input.intents, trades[i].id).Some?
                 && Live(IntentById(input.intents, trades[i].id).value, input.bars[j].seqNo)
        ensures trades[i].session <= input.bars[j].seqNo
      {
        LookupFinds(input.intents, trades[i].id);
        TradeWasLive(input, input.bars[..k], Replay(input, k).value.book, i);
      }
    }
    ReachedIsAcceptedExactly(input, k);
  }

  lemma {:induction false} TradeWasLive(input: Input, bars: seq<Bar>, b: Book, i: nat)
    requires TradesScanned(input, bars, b) && i < |b.trades|
    ensures IntentById(input.intents, b.trades[i].id).Some?
    ensures Live(IntentById(input.intents, b.trades[i].id).value, b.trades[i].session)
  {
    FoldPassedAt(TradeCheck(input, bars), EMPTY_SCAN, Zip(b.trades, b.positions), |b.trades|, i);
  }
}
