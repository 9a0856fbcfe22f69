/** Every v1 intent ends in exactly one order record, trades are the filled orders,
    and an OCO group fills at most once. */
module EngineAccounting {
  import opened Checked
  import opened Events
  import opened Ids
  import opened Engine
  import opened EngineInduction
  import opened Validator
  import Sorting

  function OrderIdList(orders: seq<OrderRecord>): (ids: seq<Id>)
    ensures |ids| == |orders| && forall i :: 0 <= i < |orders| ==> ids[i] == orders[i].id
  {
    IdsOf(orders, (o: OrderRecord) => o.id)
  }

  function TradeIds(trades: seq<TradeRecord>): (ids: seq<Id>)
    ensures |ids| == |trades| && forall i :: 0 <= i < |trades| ==> ids[i] == trades[i].id
  {
    IdsOf(trades, (r: TradeRecord) => r.id)
  }

  function FilledIds(orders: seq<OrderRecord>): seq<Id> {
    if orders == [] then []
    else FilledIds(orders[..|orders| - 1])
         + if orders[|orders| - 1].status == Filled then [orders[|orders| - 1].id] else []
  }

  ghost predicate RecordsIntent(o: OrderRecord, intents: seq<Intent>) {
    exists t | t in intents :: o == OrderOf(t, o.status, o.filledSession, o.filledPhase)
  }

  ghost predicate RecordsTape(orders: seq<OrderRecord>, intents: seq<Intent>) {
    forall i :: 0 <= i < |orders| ==> RecordsIntent(orders[i], intents)
  }

  /** The OCO group of a trade, through its intent. */
  function GroupOf(intents: seq<Intent>, id: Id): Option<Group> {
    var t := IntentById(intents, id);
    if t.Some? then t.value.oco else None
  }

  ghost predicate OneFillPerGroup(intents: seq<Intent>, trades: seq<TradeRecord>) {
    forall i, j :: 0 <= i < j < |trades| && GroupOf(intents, trades[i].id).Some? ==>
      GroupOf(intents, trades[i].id) != GroupOf(intents, trades[j].id)
  }

  ghost predicate Accounts(st: State, intents: seq<Intent>) {
    && NoRepeats(OrderIdList(st.log.orders))
    && st.log.completed == IdSet(OrderIdList(st.log.orders))
    && RecordsTape(st.log.orders, intents)
    && FilledIds(st.log.orders) == TradeIds(st.book.trades)
    && GroupsOf(intents, st.book.trades) == st.log.filledOco
    && OneFillPerGroup(intents, st.book.trades)
  }

  lemma {:induction false} IntentIsFound(intents: seq<Intent>, t: Intent)
    requires UniqueIds(intents) && t in intents
    ensures IntentById(intents, t.id) == Some(t)
  {
    if intents[0] != t {
      var i :| 0 <= i < |intents| && intents[i] == t;
      assert intents[0].id != intents[i].id;
      assert intents[1..][i - 1] == t;
      IntentIsFound(intents[1..], t);
    }
  }

  lemma {:induction false} LogAppend(log: OrderLog, t: Intent, o: OrderRecord, intents: seq<Intent>)
    requires NoRepeats(OrderIdList(log.orders)) && log.completed == IdSet(OrderIdList(log.orders))
    requires RecordsTape(log.orders, intents) && t in intents && t.id !in log.completed
    requires o == OrderOf(t, o.status, o.filledSession, o.filledPhase)
    ensures NoRepeats(OrderIdList(log.orders + [o]))
    ensures log.completed + {t.id} == IdSet(OrderIdList(log.orders + [o]))
    ensures RecordsTape(log.orders + [o], intents)
    ensures FilledIds(log.orders + [o]) == FilledIds(log.orders) + if o.status == Filled then [t.id] else []
  {
    var more := log.orders + [o];
    assert more[..|log.orders|] == log.orders;
    AppendId(OrderIdList(log.orders), t.id);
    forall i | 0 <= i < |log.orders|
      ensures log.orders[i].id != t.id
    {
      assert OrderIdList(log.orders)[i] in IdSet(OrderIdList(log.orders));
    }
    forall i | 0 <= i < |more|
      ensures RecordsIntent(more[i], intents)
    {
      if i < |log.orders| { assert RecordsIntent(log.orders[i], intents); }
    }
  }

  lemma {:induction false} GroupIsKnown(intents: seq<Intent>, trades: seq<TradeRecord>, i: nat)
    requires i < |trades| && GroupOf(intents, trades[i].id).Some?
    ensures GroupOf(intents, trades[i].id).value in GroupsOf(intents, trades)
  {
    if i < |trades| - 1 { GroupIsKnown(intents, trades[..|trades| - 1], i); }
  }

  lemma {:induction false} TradeAppend(trades: seq<TradeRecord>, trade: TradeRecord, t: Intent, intents: seq<Intent>)
    requires UniqueIds(intents) && t in intents && trade.id == t.id
    requires OneFillPerGroup(intents, trades)
    requires t.oco.Some? ==> t.oco.value !in GroupsOf(intents, trades)
    ensures OneFillPerGroup(intents, trades + [trade])
    ensures TradeIds(trades + [trade]) == TradeIds(trades) + [t.id]
    ensures GroupsOf(intents, trades + [trade])
            == GroupsOf(intents, trades) + if t.oco.Some? then {t.oco.value} else {}
  {
    var more := trades + [trade];
    assert more[..|trades|] == trades;
    IntentIsFound(intents, t);
    forall i, j | 0 <= i < j < |more| && GroupOf(intents, more[i].id).Some?
      ensures GroupOf(intents, more[i].id) != GroupOf(intents, more[j].id)
    {
      GroupIsKnown(intents, trades, i);
    }
  }

  lemma {:induction false} FillAccounted(input: Input, bar: Bar, st: State, t: Intent, fill: Fill)
    requires UniqueIds(input.intents) && Accounts(st, input.intents)
    requires t in input.intents && t.id !in st.log.completed && !OcoDone(st.log, t)
    requires BookFill(input.account, bar.seqNo, st.book, t, fill).Ok?
    ensures Accounts(State(LogFill(st.log, t, bar.seqNo, fill),
                           BookFill(input.account, bar.seqNo, st.book, t, fill).value, st.curve), input.intents)
  {
    FillParts(input.account, bar.seqNo, st.book, t, fill);
    var c := CostsOf(input.account, t, fill).value;
    LogAppend(st.log, t, OrderOf(t, Filled, Some(bar.seqNo), Some(fill.phase)), input.intents);
    TradeAppend(st.book.trades, TradeOf(t, bar.seqNo, fill, c), t, input.intents);
  }

  lemma {:induction false} IntentAccounted(input: Input, bar: Bar, st: State, t: Intent)
    requires UniqueIds(input.intents) && Accounts(st, input.intents)
    requires t in input.intents && t.id !in st.log.completed
    requires ProcessIntent(input.account, bar, st, t).Ok?
    ensures Accounts(ProcessIntent(input.account, bar, st, t).value, input.intents)
  {
    if OcoDone(st.log, t) {
      LogAppend(st.log, t, OrderOf(t, Cancelled, None, None), input.intents);
    } else {
      var decision := FillDecision(input.account, bar, t).value;
      if decision.Some? {
        FillAccounted(input, bar, st, t, decision.value);
      } else if t.timeInForce == Day {
        LogAppend(st.log, t, OrderOf(t, Expired, None, None), input.intents);
      }
    }
  }

  lemma {:induction false} RunAccounted(input: Input, k: nat)
    requires UniqueIds(input.intents) && k <= |input.bars| && Replay(input, k).Ok?
    ensures Accounts(Replay(input, k).value, input.intents)
  {
    var inv := (st: State) => Accounts(st, input.intents);
    var runs := (st: State, i: nat) => inv(st);
    forall st: State, i: nat | i < |input.bars| && runs(st, i) && ProcessBar(input, input.bars[i], st).Ok?
      ensures runs(ProcessBar(input, input.bars[i], st).value, i + 1)
    {
      BarAccounted(input, input.bars[i], st);
    }
    RunInduction(input, k, runs);
  }

  lemma {:induction false} SameAccounts(before: State, after: State, intents: seq<Intent>)
    requires Accounts(before, intents) && after.log == before.log && after.book.trades == before.book.trades
    ensures Accounts(after, intents)
  {
  }

  lemma {:induction false} BarAccounted(input: Input, bar: Bar, st: State)
    requires UniqueIds(input.intents) && Accounts(st, input.intents)
    requires ProcessBar(input, bar, st).Ok?
    ensures Accounts(ProcessBar(input, bar, st).value, input.intents)
  {
    var inv := (s: State) => Accounts(s, input.intents);
    forall s: State, t: Intent | inv(s) && t in input.intents && Live(t, bar.seqNo) && t.id !in s.log.completed
                                 && ProcessIntent(input.account, bar, s, t).Ok?
      ensures inv(ProcessIntent(input.account, bar, s, t).value)
    {
      IntentAccounted(input, bar, s, t);
    }
    BarParts(input, bar, st);
    BarInduction(input, bar, st, inv);
    SameAccounts(BeforeMark(input, bar, st).value, ProcessBar(input, bar, st).value, input.intents);
  }

  // ---- the output ----

  lemma {:induction false} IntentOfOrder(orders: seq<OrderRecord>, intents: seq<Intent>, i: nat) returns (j: nat)
    requires RecordsTape(orders, intents) && i < |orders|
    ensures j < |intents|
            && orders[i] == OrderOf(intents[j], orders[i].status, orders[i].filledSession, orders[i].filledPhase)
  {
    assert RecordsIntent(orders[i], intents);
    var t :| t in intents && orders[i] == OrderOf(t, orders[i].status, orders[i].filledSession, orders[i].filledPhase);
    j :| 0 <= j < |intents| && intents[j] == t;
  }

  function TapeIds(intents: seq<Intent>): (ids: seq<Id>)
    ensures |ids| == |intents| && forall i :: 0 <= i < |intents| ==> ids[i] == intents[i].id
  {
    IdsOf(intents, (t: Intent) => t.id)
  }

  /** Orders that name intents once each, and whose ids are `ids`. */
  ghost predicate Covers(orders: seq<OrderRecord>, intents: seq<Intent>, ids: set<Id>) {
    NoRepeats(OrderIdList(orders)) && RecordsTape(orders, intents) && IdSet(OrderIdList(orders)) == ids
  }

  lemma {:induction false} CoversNext(orders: seq<OrderRecord>, intents: seq<Intent>, ids: set<Id>, t: Intent)
    requires Covers(orders, intents, ids) && t in intents && t.id !in ids
    ensures Covers(orders + [OrderOf(t, Expired, None, None)], intents, ids + {t.id})
  {
    LogAppend(OrderLog(orders, ids, {}), t, OrderOf(t, Expired, None, None), intents);
  }

  lemma {:induction false} NextTapeId(intents: seq<Intent>, n: nat)
    requires UniqueIds(intents) && n < |intents|
    ensures IdSet(TapeIds(intents[..n + 1])) == IdSet(TapeIds(intents[..n])) + {intents[n].id}
    ensures intents[n].id !in IdSet(TapeIds(intents[..n]))
  {
    assert intents[..n + 1][..n] == intents[..n];
    AppendId(TapeIds(intents[..n]), intents[n].id);
    forall i {:trigger TapeIds(intents[..n])[i]} | 0 <= i < n
      ensures TapeIds(intents[..n])[i] != intents[n].id
    {
      assert intents[i].id != intents[n].id;
    }
  }

  function CoveredIds(log: OrderLog, intents: seq<Intent>, n: nat): set<Id>
    requires n <= |intents|
  {
    log.completed + IdSet(TapeIds(intents[..n]))
  }

  lemma {:induction false} CoveredNext(log: OrderLog, intents: seq<Intent>, n: nat)
    requires UniqueIds(intents) && n < |intents|
    ensures CoveredIds(log, intents, n + 1) == CoveredIds(log, intents, n) + {intents[n].id}
    ensures intents[n].id in CoveredIds(log, intents, n) <==> intents[n].id in log.completed
  {
    NextTapeId(intents, n);
  }

  lemma {:induction false} ExpireNext(log: OrderLog, intents: seq<Intent>, n: nat)
    requires n < |intents|
    ensures ExpireRest(log.orders, intents, log.completed, n + 1) == ExpireRest(log.orders, intents, log.completed, n) +
            if intents[n].id in log.completed then [] else [OrderOf(intents[n], Expired, None, None)]
  {
  }

  lemma {:induction false} CoversEither(before: seq<OrderRecord>, intents: seq<Intent>, ids: set<Id>, t: Intent,
      next: seq<OrderRecord>, all: set<Id>)
    requires Covers(before, intents, ids) && t in intents && all == ids + {t.id}
    requires next == before + if t.id in ids then [] else [OrderOf(t, Expired, None, None)]
    ensures Covers(next, intents, all)
  {
    if t.id in ids {
      assert next == before && all == ids;
    } else {
      CoversNext(before, intents, ids, t);
    }
  }

  lemma {:induction false} ExpireNextCovers(log: OrderLog, intents: seq<Intent>, n: nat, before: seq<OrderRecord>)
    requires UniqueIds(intents) && 0 < n <= |intents|
    requires before == ExpireRest(log.orders, intents, log.completed, n - 1)
    requires Covers(before, intents, CoveredIds(log, intents, n - 1))
    ensures Covers(ExpireRest(log.orders, intents, log.completed, n), intents, CoveredIds(log, intents, n))
  {
    ExpireNext(log, intents, n - 1);
    CoveredNext(log, intents, n - 1);
    CoversEither(before, intents, CoveredIds(log, intents, n - 1), intents[n - 1],
                 ExpireRest(log.orders, intents, log.completed, n), CoveredIds(log, intents, n));
  }

  lemma {:induction false} NothingCovered(log: OrderLog, intents: seq<Intent>)
    ensures CoveredIds(log, intents, 0) == log.completed
  {
    assert TapeIds(intents[..0]) == [];
  }

  /** After the expiry loop the orders cover the first n intents as well. */
  lemma {:induction false} ExpireRestCovers(log: OrderLog, intents: seq<Intent>, n: nat)
    requires UniqueIds(intents) && n <= |intents|
    requires Covers(log.orders, intents, log.completed)
    ensures Covers(ExpireRest(log.orders, intents, log.completed, n), intents, CoveredIds(log, intents, n))
  {
    if n == 0 {
      NothingCovered(log, intents);
    } else {
      ExpireRestCovers(log, intents, n - 1);
      ExpireNextCovers(log, intents, n, ExpireRest(log.orders, intents, log.completed, n - 1));
    }
  }

  /** Every order ever written names an intent, so all of them are the tape. */
  lemma {:induction false} AllOrdersAreTape(log: OrderLog, intents: seq<Intent>)
    requires UniqueIds(intents)
    requires Covers(log.orders, intents, log.completed)
    ensures var orders := ExpireRest(log.orders, intents, log.completed, |intents|);
            && NoRepeats(OrderIdList(orders)) && RecordsTape(orders, intents) && |orders| == |intents|
  {
    var n := |intents|;
    ExpireRestCovers(log, intents, n);
    assert intents[..n] == intents;
    var orders := ExpireRest(log.orders, intents, log.completed, n);
    forall id | id in log.completed
      ensures id in IdSet(TapeIds(intents))
    {
      var i :| 0 <= i < |log.orders| && OrderIdList(log.orders)[i] == id;
      var j := IntentOfOrder(log.orders, intents, i);
      assert TapeIds(intents)[j] == id;
    }
    assert IdSet(OrderIdList(orders)) == IdSet(TapeIds(intents));
    SizeOfIds(OrderIdList(orders));
    SizeOfIds(TapeIds(intents));
  }

  lemma {:induction false} OrdersAreTotallyOrdered(orders: seq<OrderRecord>, intents: seq<Intent>)
    requires UniqueIds(intents) && IncreasingSeqNos(intents)
    requires NoRepeats(OrderIdList(orders)) && RecordsTape(orders, intents)
    ensures Sorting.StrictTotalOrder((set o | o in orders), EarlierOrder)
    ensures Sorting.Distinct(orders)
  {
    forall a, b | a in orders && b in orders && a != b
      ensures a.seqNo != b.seqNo
    {
      var i :| 0 <= i < |orders| && orders[i] == a;
      var j :| 0 <= j < |orders| && orders[j] == b;
      var x := IntentOfOrder(orders, intents, i);
      var y := IntentOfOrder(orders, intents, j);
      assert OrderIdList(orders)[i] != OrderIdList(orders)[j];
      if x < y { TapeIncreases(intents, x, y); } else { TapeIncreases(intents, y, x); }
    }
    forall i, j | 0 <= i < j < |orders|
      ensures orders[i] != orders[j]
    {
      assert OrderIdList(orders)[i] != OrderIdList(orders)[j];
    }
  }

  lemma {:induction false} SortedTape(orders: seq<OrderRecord>, intents: seq<Intent>)
    requires UniqueIds(intents) && IncreasingSeqNos(intents)
    requires RecordsTape(orders, intents) && |orders| == |intents|
    requires Sorting.Ordered(orders, EarlierOrder)
    ensures forall i :: 0 <= i < |intents| ==>
              orders[i] == OrderOf(intents[i], orders[i].status, orders[i].filledSession, orders[i].filledPhase)
  {
    var f: seq<nat> := [];
    while |f| < |orders|
      invariant |f| <= |orders|
      invariant forall i :: 0 <= i < |f| ==> f[i] < |intents|
      invariant forall i :: 0 <= i < |f| ==>
                  orders[i] == OrderOf(intents[f[i]], orders[i].status, orders[i].filledSession, orders[i].filledPhase)
    {
      var j := IntentOfOrder(orders, intents, |f|);
      f := f + [j];
    }
    forall i, j | 0 <= i < j < |f|
      ensures f[i] < f[j]
    {
      assert EarlierOrder(orders[i], orders[j]);
      if f[j] < f[i] { TapeIncreases(intents, f[j], f[i]); }
    }
    forall i | 0 <= i < |intents|
      ensures f[i] == i
    {
      IncreasingIsIdentity(f, |intents|, i);
    }
  }

  /** A successful run hands out exactly one order per intent, in intent order; the
      trades are the filled orders in the order they filled, and no OCO group fills
      twice. */
  lemma {:induction false} OneOrderPerIntent(input: Input)
    requires RunEngine(input).Ok?
    ensures var out := RunEngine(input).value;
            && |out.orders| == |input.intents|
            && (forall i :: 0 <= i < |input.intents| ==>
                  out.orders[i] == OrderOf(input.intents[i], out.orders[i].status,
                                           out.orders[i].filledSession, out.orders[i].filledPhase))
            && OneFillPerGroup(input.intents, out.trades)
            && multiset(FilledIds(out.orders)) == multiset(TradeIds(out.trades))
  {
    RunParts(input);
    var st := Replay(input, |input.bars|).value;
    var orders := ExpireRest(st.log.orders, input.intents, st.log.completed, |input.intents|);
    RunAccounted(input, |input.bars|);
    AllOrdersAreTape(st.log, input.intents);
    OrdersAreTotallyOrdered(orders, input.intents);
    SortKeepsTape(orders, input.intents);
    SortedTape(Sorting.Sort(orders, EarlierOrder), input.intents);
    FilledCount(orders, Sorting.Sort(orders, EarlierOrder));
    ExpiryFillsNothing(st.log, input.intents, |input.intents|);
  }

  lemma {:induction false} SortKeepsTape(orders: seq<OrderRecord>, intents: seq<Intent>)
    requires RecordsTape(orders, intents) && Sorting.Distinct(orders)
    requires Sorting.StrictTotalOrder((set o | o in orders), EarlierOrder)
    ensures var s := Sorting.Sort(orders, EarlierOrder);
            && RecordsTape(s, intents) && |s| == |orders|
            && multiset(s) == multiset(orders) && Sorting.Ordered(s, EarlierOrder)
  {
    var s, dom := Sorting.Sort(orders, EarlierOrder), set o | o in orders;
    Sorting.SortPermutes(orders, EarlierOrder);
    assert |multiset(s)| == |s| && |multiset(orders)| == |orders|;
    forall i | 0 <= i < |orders| ensures orders[i] in dom { assert orders[i] in orders; }
    Sorting.SortOrders(orders, EarlierOrder, dom);
    forall i | 0 <= i < |s|
      ensures RecordsIntent(s[i], intents)
    {
      assert s[i] in multiset(orders);
      var j :| 0 <= j < |orders| && orders[j] == s[i];
    }
  }

  lemma {:induction false} FilledConcat(a: seq<OrderRecord>, b: seq<OrderRecord>)
    ensures FilledIds(a + b) == FilledIds(a) + FilledIds(b)
  {
    if b == [] {
      assert a + b == a;
    } else {
      var last := |b| - 1;
      FilledConcat(a, b[..last]);
      assert (a + b)[..|a + b| - 1] == a + b[..last];
    }
  }

  lemma {:induction false} FilledCount(xs: seq<OrderRecord>, ys: seq<OrderRecord>)
    requires multiset(xs) == multiset(ys)
    ensures multiset(FilledIds(xs)) == multiset(FilledIds(ys))
  {
    assert |multiset(xs)| == |xs| && |multiset(ys)| == |ys|;
    if xs != [] {
      var front, x := xs[..|xs| - 1], xs[|xs| - 1];
      assert xs == front + [x];
      assert x in multiset(ys);
      var i :| 0 <= i < |ys| && ys[i] == x;
      assert ys == ys[..i] + ([x] + ys[i + 1..]);
      assert multiset(front) == multiset(xs) - multiset{x};
      assert multiset(ys) == multiset(ys[..i]) + (multiset{x} + multiset(ys[i + 1..]));
      assert multiset(ys[..i] + ys[i + 1..]) == multiset(ys[..i]) + multiset(ys[i + 1..]);
      FilledCount(front, ys[..i] + ys[i + 1..]);
      FilledConcat(ys[..i], ys[i + 1..]);
      FilledConcat(ys[..i], [x] + ys[i + 1..]);
      FilledConcat([x], ys[i + 1..]);
      FilledConcat(front, [x]);
    }
  }

  lemma {:induction false} ExpiryFillsNothing(log: OrderLog, intents: seq<Intent>, n: nat)
    requires n <= |intents|
    ensures FilledIds(ExpireRest(log.orders, intents, log.completed, n)) == FilledIds(log.orders)
  {
    if n > 0 {
      ExpiryFillsNothing(log, intents, n - 1);
      var before := ExpireRest(log.orders, intents, log.completed, n - 1);
      FilledConcat(before, [OrderOf(intents[n - 1], Expired, None, None)]);
    }
  }
}
