/** Fills as events in execution order. The order log lists them in that order, the
    trade list is checked to be in it, and the order is total: so a trade list the
    validators accept can only be the fills of the log, one after the other. */
module ValidatorOrders {
  import opened Checked
  import opened Events
  import opened Folds
  import opened Ids
  import opened Engine
  import opened EngineInduction
  import opened EngineAccounting
  import opened Validator
  import Sorting
  import Order = EngineOrder

  datatype Event = Event(session: nat, intent: Intent)

  predicate EventBefore(a: Event, b: Event) {
    a.session < b.session || (a.session == b.session && ExecutesBefore(a.intent, b.intent))
  }

  function FillEvents(orders: seq<OrderRecord>, intents: seq<Intent>): seq<Event> {
    if orders == [] then []
    else
      var last := orders[|orders| - 1];
      var t := IntentById(intents, last.id);
      FillEvents(orders[..|orders| - 1], intents)
      + if last.status == Filled && last.filledSession.Some? && t.Some? then [Event(last.filledSession.value, t.value)]
        else []
  }

  function TradeEvents(trades: seq<TradeRecord>, intents: seq<Intent>): seq<Event> {
    if trades == [] then []
    else
      var last := trades[|trades| - 1];
      var t := IntentById(intents, last.id);
      TradeEvents(trades[..|trades| - 1], intents) + if t.Some? then [Event(last.session, t.value)] else []
  }

  function EventIds(events: seq<Event>): (ids: seq<Id>)
    ensures |ids| == |events| && forall i :: 0 <= i < |events| ==> ids[i] == events[i].intent.id
  {
    if events == [] then [] else EventIds(events[..|events| - 1]) + [events[|events| - 1].intent.id]
  }

  function EventSet(events: seq<Event>): set<Event> {
    set i | 0 <= i < |events| :: events[i]
  }

  // ---- the order of events is total ----

  lemma {:induction false} TapeIsTotal(intents: seq<Intent>)
    requires Order.WellOrdered(intents)
    ensures Sorting.StrictTotalOrder(Order.Elements(intents), ExecutesBefore)
  {
    Order.OrderIsTotalExactly(intents);
  }

  ghost predicate OnTape(events: seq<Event>, intents: seq<Intent>) {
    forall i :: 0 <= i < |events| ==> events[i].intent in Order.Elements(intents)
  }

  lemma {:induction false} EventsAreTotal(events: seq<Event>, intents: seq<Intent>)
    requires Sorting.StrictTotalOrder(Order.Elements(intents), ExecutesBefore) && OnTape(events, intents)
    ensures Sorting.StrictTotalOrder(EventSet(events), EventBefore)
    ensures Sorting.Within(events, EventSet(events))
  {
    var dom, tape := EventSet(events), Order.Elements(intents);
    forall a | a in dom ensures a.intent in tape && !EventBefore(a, a) {
    }
    forall a, b | a in dom && b in dom && a != b ensures EventBefore(a, b) != EventBefore(b, a) {
      assert a.intent in tape && b.intent in tape;
    }
    forall a, b, c | a in dom && b in dom && c in dom && EventBefore(a, b) && EventBefore(b, c)
      ensures EventBefore(a, c)
    {
      assert a.intent in tape && b.intent in tape && c.intent in tape;
      if a.session == b.session == c.session {
        assert ExecutesBefore(a.intent, b.intent) && ExecutesBefore(b.intent, c.intent);
      }
    }
  }

  // ---- logs ----

  /** The events of a log are in order, belong to completed intents, and come before
      what is still due in the running session. */
  ghost predicate Orderly(intents: seq<Intent>, log: OrderLog, session: nat, due: seq<Intent>, m: nat) {
    var events := FillEvents(log.orders, intents);
    && Sorting.Ordered(events, EventBefore) && OnTape(events, intents)
    && EventIds(events) == FilledIds(log.orders)
    && forall i :: 0 <= i < |events| ==>
         && events[i].intent.id in log.completed
         && forall j :: m <= j < |due| ==> EventBefore(events[i], Event(session, due[j]))
  }

  /** The same at the end of a bar, with nothing due. */
  ghost predicate OrderlyUpTo(intents: seq<Intent>, log: OrderLog, bound: int) {
    var events := FillEvents(log.orders, intents);
    && Orderly(intents, log, 0, [], 0)
    && forall i :: 0 <= i < |events| ==> events[i].session <= bound
  }

  lemma {:induction false} OrderlyStarts(intents: seq<Intent>, log: OrderLog, bound: int, session: nat,
      due: seq<Intent>)
    requires OrderlyUpTo(intents, log, bound) && bound < session
    ensures Orderly(intents, log, session, due, 0)
  {
  }

  /** What an intent can do to the log. */
  ghost predicate Outcome(log: OrderLog, t: Intent, session: nat, next: OrderLog) {
    || next == log
    || next == LogUnfilled(log, t, Cancelled)
    || next == LogUnfilled(log, t, Expired)
    || exists fill :: next == LogFill(log, t, session, fill)
  }

  lemma {:induction false} EventsAppend(orders: seq<OrderRecord>, t: Intent, o: OrderRecord, intents: seq<Intent>)
    requires UniqueIds(intents) && t in intents && o.id == t.id
    ensures FillEvents(orders + [o], intents) == FillEvents(orders, intents)
            + if o.status == Filled && o.filledSession.Some? then [Event(o.filledSession.value, t)] else []
    ensures FilledIds(orders + [o]) == FilledIds(orders) + if o.status == Filled then [t.id] else []
  {
    assert (orders + [o])[..|orders|] == orders;
    IntentIsFound(intents, t);
  }

  lemma {:induction false} EventIdsAppend(events: seq<Event>, e: Event)
    ensures EventIds(events + [e]) == EventIds(events) + [e.intent.id]
  {
    assert (events + [e])[..|events|] == events;
  }

  lemma {:induction false} UnfilledKeepsOrderly(intents: seq<Intent>, log: OrderLog, session: nat, due: seq<Intent>,
      m: nat, status: Status)
    requires UniqueIds(intents) && m < |due| && due[m] in intents && status != Filled
    requires Orderly(intents, log, session, due, m)
    ensures Orderly(intents, LogUnfilled(log, due[m], status), session, due, m + 1)
  {
    EventsAppend(log.orders, due[m], OrderOf(due[m], status, None, None), intents);
  }

  lemma {:induction false} EventsStayOrdered(events: seq<Event>, e: Event)
    requires Sorting.Ordered(events, EventBefore) && forall i :: 0 <= i < |events| ==> EventBefore(events[i], e)
    ensures Sorting.Ordered(events + [e], EventBefore)
  {
  }

  lemma {:induction false} FillKeepsOrderly(intents: seq<Intent>, log: OrderLog, session: nat, due: seq<Intent>, m: nat,
      fill: Fill)
    requires UniqueIds(intents) && m < |due| && due[m] in intents
    requires Sorting.Ordered(due, ExecutesBefore)
    requires Orderly(intents, log, session, due, m)
    ensures Orderly(intents, LogFill(log, due[m], session, fill), session, due, m + 1)
  {
    var t, events := due[m], FillEvents(log.orders, intents);
    EventsAppend(log.orders, t, OrderOf(t, Filled, Some(session), Some(fill.phase)), intents);
    EventIdsAppend(events, Event(session, t));
    EventsStayOrdered(events, Event(session, t));
  }

  lemma {:induction false} OutcomeKeepsOrderly(intents: seq<Intent>, log: OrderLog, session: nat, due: seq<Intent>,
      m: nat, next: OrderLog)
    requires UniqueIds(intents) && m < |due| && due[m] in intents
    requires Sorting.Ordered(due, ExecutesBefore)
    requires Orderly(intents, log, session, due, m) && Outcome(log, due[m], session, next)
    ensures Orderly(intents, next, session, due, m + 1)
  {
    if next == LogUnfilled(log, due[m], Cancelled) {
      UnfilledKeepsOrderly(intents, log, session, due, m, Cancelled);
    } else if next == LogUnfilled(log, due[m], Expired) {
      UnfilledKeepsOrderly(intents, log, session, due, m, Expired);
    } else if next != log {
      var fill :| next == LogFill(log, due[m], session, fill);
      FillKeepsOrderly(intents, log, session, due, m, fill);
    }
  }

  // ---- the order scan ----

  /** Every fill of the scan is a trade of that session, and has been seen. */
  ghost predicate Seen(intents: seq<Intent>, trades: seq<TradeRecord>, s: OrderScan) {
    var events := FillEvents(s.log.orders, intents);
    && s.seen <= s.log.completed && |s.seen| == |events|
    && forall i :: 0 <= i < |events| ==>
         TradeById(trades, events[i].intent.id).Some?
         && TradeById(trades, events[i].intent.id).value.session == events[i].session
  }

  lemma {:induction false} TradeIsFound(trades: seq<TradeRecord>, id: Id)
    ensures TradeById(trades, id).Some? ==> TradeById(trades, id).value.id == id
    ensures TradeById(trades, id).Some? ==> exists i :: 0 <= i < |trades| && trades[i] == TradeById(trades, id).value
  {
    if trades != [] && trades[0].id != id {
      TradeIsFound(trades[1..], id);
      if TradeById(trades, id).Some? {
        var i :| 0 <= i < |trades[1..]| && trades[1..][i] == TradeById(trades[1..], id).value;
        assert trades[i + 1] == TradeById(trades, id).value;
      }
    }
  }

  lemma {:induction false} ScanIsOutcome(account: Account, bar: Bar, trades: seq<TradeRecord>, s: OrderScan, t: Intent)
    requires ScanIntent(account, bar, trades, s, t).Ok?
    ensures Outcome(s.log, t, bar.seqNo, ScanIntent(account, bar, trades, s, t).value.log)
  {
  }

  lemma {:induction false} FillIsSeen(intents: seq<Intent>, trades: seq<TradeRecord>, s: OrderScan, next: OrderScan,
      t: Intent, session: nat)
    requires Seen(intents, trades, s) && t.id !in s.log.completed
    requires FillEvents(next.log.orders, intents) == FillEvents(s.log.orders, intents) + [Event(session, t)]
    requires next.seen == s.seen + {t.id} && next.log.completed == s.log.completed + {t.id}
    requires TradeById(trades, t.id).Some? && TradeById(trades, t.id).value.session == session
    ensures Seen(intents, trades, next)
  {
  }

  lemma {:induction false} ScanKeepsSeen(intents: seq<Intent>, account: Account, bar: Bar, trades: seq<TradeRecord>,
      s: OrderScan, t: Intent)
    requires UniqueIds(intents) && t in intents && t.id !in s.log.completed
    requires Seen(intents, trades, s) && ScanIntent(account, bar, trades, s, t).Ok?
    ensures Seen(intents, trades, ScanIntent(account, bar, trades, s, t).value)
  {
    TradeIsFound(trades, t.id);
    var next := ScanIntent(account, bar, trades, s, t).value;
    if next.log != s.log {
      var o := next.log.orders[|s.log.orders|];
      EventsAppend(s.log.orders, t, o, intents);
      if o.status == Filled { FillIsSeen(intents, trades, s, next, t, bar.seqNo); }
    }
  }

  ghost predicate NotYet(log: OrderLog, due: seq<Intent>, m: nat) {
    forall j :: m <= j < |due| ==> due[j].id !in log.completed
  }

  lemma {:induction false} KeepsNotYet(log: OrderLog, due: seq<Intent>, m: nat, next: OrderLog)
    requires m < |due| && NotYet(log, due, m) && next.completed <= log.completed + {due[m].id} && UniqueIds(due)
    ensures NotYet(next, due, m + 1)
  {
  }

  lemma {:induction false} OutcomeCompletes(log: OrderLog, t: Intent, session: nat, next: OrderLog)
    requires Outcome(log, t, session, next)
    ensures next.completed <= log.completed + {t.id}
  {
  }

  lemma {:induction false} ScanKeepsNotYet(account: Account, bar: Bar, trades: seq<TradeRecord>, s: OrderScan,
      due: seq<Intent>, m: nat)
    requires m < |due| && NotYet(s.log, due, m) && UniqueIds(due) && ScanIntent(account, bar, trades, s, due[m]).Ok?
    ensures NotYet(ScanIntent(account, bar, trades, s, due[m]).value.log, due, m + 1)
  {
    ScanIsOutcome(account, bar, trades, s, due[m]);
    OutcomeCompletes(s.log, due[m], bar.seqNo, ScanIntent(account, bar, trades, s, due[m]).value.log);
    KeepsNotYet(s.log, due, m, ScanIntent(account, bar, trades, s, due[m]).value.log);
  }

  /** A schedule of live intents of the tape, none of them completed. */
  ghost predicate Waiting(intents: seq<Intent>, log: OrderLog, session: nat, due: seq<Intent>) {
    && UniqueIds(due) && NotYet(log, due, 0)
    && forall j :: 0 <= j < |due| ==> due[j] in intents && Live(due[j], session)
  }

  lemma {:induction false} ScheduleWaits(intents: seq<Intent>, log: OrderLog, session: nat)
    requires UniqueIds(intents)
    ensures Waiting(intents, log, session, Schedule(intents, log.completed, session))
  {
    ScheduleIs(intents, log.completed, session);
    var due := Schedule(intents, log.completed, session);
    forall j | 0 <= j < |due|
      ensures due[j] in intents && Live(due[j], session) && due[j].id !in log.completed
    {
      assert due[j] in due;
    }
  }

  lemma {:induction false} ScannedNotYet(account: Account, bar: Bar, trades: seq<TradeRecord>, s: OrderScan,
      due: seq<Intent>, n: nat)
    requires n <= |due| && UniqueIds(due) && NotYet(s.log, due, 0)
    requires Fold(IntentCheck(account, bar, trades), s, due, 0, n).Ok?
    ensures NotYet(Fold(IntentCheck(account, bar, trades), s, due, 0, n).value.log, due, n)
  {
    if n > 0 {
      ScannedNotYet(account, bar, trades, s, due, n - 1);
      ScanKeepsNotYet(account, bar, trades, Fold(IntentCheck(account, bar, trades), s, due, 0, n - 1).value, due,
                      n - 1);
    }
  }

  /** When its turn comes, a waiting intent is still not completed. */
  lemma {:induction false} TurnComes(intents: seq<Intent>, account: Account, bar: Bar, trades: seq<TradeRecord>,
      s: OrderScan, due: seq<Intent>, m: nat)
    requires Waiting(intents, s.log, bar.seqNo, due) && m < |due|
    requires Fold(IntentCheck(account, bar, trades), s, due, 0, m).Ok?
    ensures due[m] in intents && Live(due[m], bar.seqNo)
    ensures due[m].id !in Fold(IntentCheck(account, bar, trades), s, due, 0, m).value.log.completed
  {
    ScannedNotYet(account, bar, trades, s, due, m);
  }

  ghost predicate ScanSound(intents: seq<Intent>, trades: seq<TradeRecord>, s: OrderScan, session: nat,
      due: seq<Intent>, m: nat) {
    Orderly(intents, s.log, session, due, m) && Seen(intents, trades, s) && NotYet(s.log, due, m)
  }

  ghost predicate GoodSchedule(intents: seq<Intent>, due: seq<Intent>) {
    && (forall j :: 0 <= j < |due| ==> due[j] in intents)
    && UniqueIds(due)
    && Sorting.Ordered(due, ExecutesBefore)
  }

  lemma {:induction false} ScheduleIsGood(intents: seq<Intent>, log: OrderLog, session: nat)
    requires UniqueIds(intents) && Order.WellOrdered(intents)
    ensures var due := Schedule(intents, log.completed, session);
            GoodSchedule(intents, due) && NotYet(log, due, 0)
  {
    ScheduleIs(intents, log.completed, session);
    Order.ScheduleIsOrdered(intents, log.completed, session);
    var due := Schedule(intents, log.completed, session);
    forall j | 0 <= j < |due| ensures due[j] in intents && due[j].id !in log.completed { assert due[j] in due; }
  }

  lemma {:induction false} ScanStepSound(intents: seq<Intent>, account: Account, bar: Bar, trades: seq<TradeRecord>,
      s: OrderScan, due: seq<Intent>, m: nat)
    requires UniqueIds(intents) && m < |due| && GoodSchedule(intents, due)
    requires ScanSound(intents, trades, s, bar.seqNo, due, m)
    requires ScanIntent(account, bar, trades, s, due[m]).Ok?
    ensures ScanSound(intents, trades, ScanIntent(account, bar, trades, s, due[m]).value, bar.seqNo, due, m + 1)
  {
    ScanIsOutcome(account, bar, trades, s, due[m]);
    var next := ScanIntent(account, bar, trades, s, due[m]).value;
    OutcomeKeepsOrderly(intents, s.log, bar.seqNo, due, m, next.log);
    ScanKeepsNotYet(account, bar, trades, s, due, m);
    ScanKeepsSeen(intents, account, bar, trades, s, due[m]);
  }

  /** The fills of a bar carry its session. */
  ghost predicate EventsWithin(intents: seq<Intent>, log: OrderLog, bound: int) {
    var events := FillEvents(log.orders, intents);
    forall i :: 0 <= i < |events| ==> events[i].session <= bound
  }

  lemma {:induction false} OutcomeKeepsWithin(intents: seq<Intent>, log: OrderLog, t: Intent, session: nat,
      next: OrderLog)
    requires UniqueIds(intents) && t in intents && EventsWithin(intents, log, session) && Outcome(log, t, session, next)
    ensures EventsWithin(intents, next, session)
  {
    if next != log { EventsAppend(log.orders, t, next.orders[|log.orders|], intents); }
  }

  ghost predicate BarSound(intents: seq<Intent>, trades: seq<TradeRecord>, s: OrderScan, session: nat, due: seq<Intent>,
      m: nat) {
    ScanSound(intents, trades, s, session, due, m) && EventsWithin(intents, s.log, session)
  }

  lemma {:induction false} BarStepSound(intents: seq<Intent>, account: Account, bar: Bar, trades: seq<TradeRecord>,
      s: OrderScan, due: seq<Intent>, m: nat)
    requires UniqueIds(intents) && m < |due| && GoodSchedule(intents, due)
    requires BarSound(intents, trades, s, bar.seqNo, due, m)
    requires ScanIntent(account, bar, trades, s, due[m]).Ok?
    ensures BarSound(intents, trades, ScanIntent(account, bar, trades, s, due[m]).value, bar.seqNo, due, m + 1)
  {
    ScanStepSound(intents, account, bar, trades, s, due, m);
    ScanIsOutcome(account, bar, trades, s, due[m]);
    OutcomeKeepsWithin(intents, s.log, due[m], bar.seqNo, ScanIntent(account, bar, trades, s, due[m]).value.log);
  }

  lemma {:induction false} BarSoundStarts(intents: seq<Intent>, trades: seq<TradeRecord>, s: OrderScan, session: nat,
      bound: int)
    requires UniqueIds(intents) && Order.WellOrdered(intents) && bound < session
    requires OrderlyUpTo(intents, s.log, bound) && Seen(intents, trades, s)
    ensures var due := Schedule(intents, s.log.completed, session);
            GoodSchedule(intents, due) && BarSound(intents, trades, s, session, due, 0)
  {
    ScheduleIsGood(intents, s.log, session);
    OrderlyStarts(intents, s.log, bound, session, Schedule(intents, s.log.completed, session));
  }

  lemma {:induction false} ScanBarSound(input: Input, trades: seq<TradeRecord>, s: OrderScan, bar: Bar, bound: int)
    requires UniqueIds(input.intents) && Order.WellOrdered(input.intents) && bound < bar.seqNo
    requires OrderlyUpTo(input.intents, s.log, bound) && Seen(input.intents, trades, s)
    requires ScanBar(input, trades, s, bar).Ok?
    ensures var next := ScanBar(input, trades, s, bar).value;
            OrderlyUpTo(input.intents, next.log, bar.seqNo) && Seen(input.intents, trades, next)
  {
    var due := Schedule(input.intents, s.log.completed, bar.seqNo);
    BarSoundStarts(input.intents, trades, s, bar.seqNo, bound);
    FoldBarSound(input, trades, s, bar, due, |due|);
  }

  lemma {:induction false} FoldBarSound(input: Input, trades: seq<TradeRecord>, s: OrderScan, bar: Bar,
      due: seq<Intent>, n: nat)
    requires UniqueIds(input.intents) && n <= |due| && GoodSchedule(input.intents, due)
    requires BarSound(input.intents, trades, s, bar.seqNo, due, 0)
    requires Fold(IntentCheck(input.account, bar, trades), s, due, 0, n).Ok?
    ensures BarSound(input.intents, trades, Fold(IntentCheck(input.account, bar, trades), s, due, 0, n).value,
                     bar.seqNo, due, n)
  {
    if n > 0 {
      FoldBarSound(input, trades, s, bar, due, n - 1);
      var before := Fold(IntentCheck(input.account, bar, trades), s, due, 0, n - 1).value;
      BarStepSound(input.intents, input.account, bar, trades, before, due, n - 1);
    }
  }

  function BoundOf(bars: seq<Bar>, i: nat): int
    requires i <= |bars|
  {
    if i == 0 then -1 else bars[i - 1].seqNo
  }

  lemma {:induction false} ScanRunSound(input: Input, trades: seq<TradeRecord>, bars: seq<Bar>, i: nat)
    requires UniqueIds(input.intents) && Order.WellOrdered(input.intents) && IncreasingBars(bars) && i <= |bars|
    requires Fold(BarCheck(input, trades), EMPTY_ORDER_SCAN, bars, 0, i).Ok?
    ensures var s := Fold(BarCheck(input, trades), EMPTY_ORDER_SCAN, bars, 0, i).value;
            OrderlyUpTo(input.intents, s.log, BoundOf(bars, i)) && Seen(input.intents, trades, s)
  {
    if i > 0 {
      ScanRunSound(input, trades, bars, i - 1);
      assert i > 1 ==> bars[i - 2].seqNo < bars[i - 2 + 1].seqNo;
      ScanBarSound(input, trades, Fold(BarCheck(input, trades), EMPTY_ORDER_SCAN, bars, 0, i - 1).value, bars[i - 1],
                   BoundOf(bars, i - 1));
    }
  }

  // ---- trades in order ----

  ghost predicate KnownTrades(intents: seq<Intent>, trades: seq<TradeRecord>) {
    forall i :: 0 <= i < |trades| ==> IntentById(intents, trades[i].id).Some?
  }

  lemma {:induction false} LookupFinds(intents: seq<Intent>, id: Id)
    ensures IntentById(intents, id).Some? ==>
              IntentById(intents, id).value in intents && IntentById(intents, id).value.id == id
  {
    if intents != [] && intents[0].id != id { LookupFinds(intents[1..], id); }
  }

  lemma {:induction false} TradeEventsAre(intents: seq<Intent>, trades: seq<TradeRecord>)
    requires KnownTrades(intents, trades)
    ensures var events := TradeEvents(trades, intents);
            && |events| == |trades| && OnTape(events, intents)
            && forall i :: 0 <= i < |trades| ==>
                 events[i].session == trades[i].session && events[i].intent.id == trades[i].id
                 && IntentById(intents, trades[i].id) == Some(events[i].intent)
  {
    if trades != [] {
      var n := |trades| - 1;
      TradeEventsAre(intents, trades[..n]);
      LookupFinds(intents, trades[n].id);
      var events := TradeEvents(trades, intents);
      forall i | 0 <= i < |trades|
        ensures events[i].session == trades[i].session && events[i].intent.id == trades[i].id
        ensures IntentById(intents, trades[i].id) == Some(events[i].intent)
      {
        if i < n { assert trades[..n][i] == trades[i]; }
      }
    }
  }

  lemma {:induction false} TradesAreOrdered(intents: seq<Intent>, trades: seq<TradeRecord>)
    requires Sorting.StrictTotalOrder(Order.Elements(intents), ExecutesBefore)
    requires KnownTrades(intents, trades) && DistinctTrades(trades)
    requires TradesInOrder(intents, trades) && SessionsOrdered(trades, TradeSession)
    ensures Sorting.Ordered(TradeEvents(trades, intents), EventBefore)
  {
    TradeEventsAre(intents, trades);
    var events := TradeEvents(trades, intents);
    EventsAreTotal(events, intents);
    forall k | 0 <= k < |events| - 1
      ensures EventBefore(events[k], events[k + 1])
    {
      assert TradeSession(trades[k]) <= TradeSession(trades[k + 1]);
      if trades[k].session == trades[k + 1].session {
        assert events[k].intent in Order.Elements(intents) && events[k + 1].intent in Order.Elements(intents);
        assert trades[k].id != trades[k + 1].id;
      }
    }
    forall i, j | 0 <= i < j < |events|
      ensures EventBefore(events[i], events[j])
    {
      Sorting.AdjacentOrdered(events, EventBefore, EventSet(events), i, j);
    }
  }

  lemma {:induction false} FillsAreTrades(intents: seq<Intent>, trades: seq<TradeRecord>, s: OrderScan, bound: int)
    requires Order.WellOrdered(intents)
    requires KnownTrades(intents, trades) && DistinctTrades(trades)
    requires TradesInOrder(intents, trades) && SessionsOrdered(trades, TradeSession)
    requires OrderlyUpTo(intents, s.log, bound) && Seen(intents, trades, s) && |s.seen| == |trades|
    ensures FillEvents(s.log.orders, intents) == TradeEvents(trades, intents)
  {
    TapeIsTotal(intents);
    var fills, events := FillEvents(s.log.orders, intents), TradeEvents(trades, intents);
    TradesAreOrdered(intents, trades);
    TradeEventsAre(intents, trades);
    EventsAreTotal(fills, intents);
    EventsAreTotal(events, intents);
    Sorting.OrderedDistinct(fills, EventBefore, EventSet(fills));
    Sorting.OrderedDistinct(events, EventBefore, EventSet(events));
    FillEventsResolve(s.log.orders, intents);
    forall i | 0 <= i < |fills| ensures fills[i] in events { FillIsTrade(intents, trades, s, i); }
    Sorting.SameElements(fills, events);
    Sorting.SortedUnique(fills, events, EventBefore, EventSet(fills));
  }

  /** An accepted trade list is the list of fills of the accepted order log. */
  lemma {:induction false} TradesAreFills(intents: seq<Intent>, trades: seq<TradeRecord>, s: OrderScan, bound: int)
    requires Order.WellOrdered(intents)
    requires KnownTrades(intents, trades) && DistinctTrades(trades)
    requires TradesInOrder(intents, trades) && SessionsOrdered(trades, TradeSession)
    requires OrderlyUpTo(intents, s.log, bound) && Seen(intents, trades, s) && |s.seen| == |trades|
    ensures FillEvents(s.log.orders, intents) == TradeEvents(trades, intents)
    ensures FilledIds(s.log.orders) == TradeIds(trades)
  {
    FillsAreTrades(intents, trades, s, bound);
    TradeEventsAre(intents, trades);
    assert EventIds(TradeEvents(trades, intents)) == TradeIds(trades);
  }

  lemma {:induction false} FillIsTrade(intents: seq<Intent>, trades: seq<TradeRecord>, s: OrderScan, i: nat)
    requires KnownTrades(intents, trades) && Seen(intents, trades, s)
    requires OnTape(FillEvents(s.log.orders, intents), intents) && Order.WellOrdered(intents)
    requires i < |FillEvents(s.log.orders, intents)|
    requires EventsResolve(intents, FillEvents(s.log.orders, intents))
    ensures FillEvents(s.log.orders, intents)[i] in TradeEvents(trades, intents)
  {
    var e := FillEvents(s.log.orders, intents)[i];
    TradeIsFound(trades, e.intent.id);
    TradeEventsAre(intents, trades);
    var j :| 0 <= j < |trades| && trades[j] == TradeById(trades, e.intent.id).value;
    assert TradeEvents(trades, intents)[j] == e;
  }

  lemma {:induction false} FillEventsResolve(orders: seq<OrderRecord>, intents: seq<Intent>)
    ensures EventsResolve(intents, FillEvents(orders, intents))
  {
    if orders != [] {
      FillEventsResolve(orders[..|orders| - 1], intents);
      LookupFinds(intents, orders[|orders| - 1].id);
    }
  }

  ghost predicate EventsResolve(intents: seq<Intent>, events: seq<Event>) {
    forall i :: 0 <= i < |events| ==> IntentById(intents, events[i].intent.id) == Some(events[i].intent)
  }
}
