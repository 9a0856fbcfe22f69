/** Every intent ends in exactly one order record. */
module PortfolioAccounting {
  import opened Checked
  import opened Events
  import opened Ids
  import opened Portfolio
  import opened PortfolioInvariant
  import Sorting

  ghost predicate DistinctIds(intents: seq<Intent>) {
    forall i, j :: 0 <= i < j < |intents| ==> intents[i].id != intents[j].id
  }

  ghost predicate DistinctOrders(orders: seq<OrderRecord>) {
    forall i, j :: 0 <= i < j < |orders| ==> orders[i].id != orders[j].id
  }

  function OrderIds(orders: seq<OrderRecord>): (ids: seq<Id>)
    ensures |ids| == |orders| && forall i :: 0 <= i < |orders| ==> ids[i] == orders[i].id
  {
    IdsOf(orders, (o: OrderRecord) => o.id)
  }

  function TradeIds(trades: seq<TradeRecord>): (ids: seq<Id>)
    ensures |ids| == |trades| && forall i :: 0 <= i < |trades| ==> ids[i] == trades[i].id
  {
    IdsOf(trades, (r: TradeRecord) => r.id)
  }

  function IntentIds(intents: seq<Intent>): (ids: seq<Id>)
    ensures |ids| == |intents| && forall i :: 0 <= i < |intents| ==> ids[i] == intents[i].id
  {
    IdsOf(intents, (t: Intent) => t.id)
  }

  /** The order record repeats the fields of an intent of the tape. */
  ghost predicate RecordsIntent(o: OrderRecord, intents: seq<Intent>) {
    exists t | t in intents :: o == OrderOf(t, o.status, o.filledSession)
  }

  /** The trades are the filled orders, in the same order. */
  function FilledIds(orders: seq<OrderRecord>): seq<Id> {
    if orders == [] then []
    else FilledIds(orders[..|orders| - 1])
         + if orders[|orders| - 1].status == Filled then [orders[|orders| - 1].id] else []
  }

  ghost predicate Accounts(st: State, intents: seq<Intent>) {
    && DistinctOrders(st.orders)
    && st.completed == IdSet(OrderIds(st.orders))
    && (forall i :: 0 <= i < |st.orders| ==> RecordsIntent(st.orders[i], intents))
    && FilledIds(st.orders) == TradeIds(st.trades)
  }

  lemma {:induction false} AppendOrder(st: State, next: State, intents: seq<Intent>, t: Intent, o: OrderRecord)
    requires Accounts(st, intents) && t in intents && t.id !in st.completed
    requires o == OrderOf(t, o.status, o.filledSession)
    requires next.orders == st.orders + [o] && next.completed == st.completed + {t.id}
    requires o.status == Expired ==> next.trades == st.trades
    requires o.status == Filled ==>
               |next.trades| == |st.trades| + 1
               && next.trades[..|st.trades|] == st.trades && next.trades[|st.trades|].id == t.id
    ensures Accounts(next, intents)
  {
    assert next.orders[..|st.orders|] == st.orders;
    AppendId(OrderIds(st.orders), t.id);
    forall i | 0 <= i < |next.orders|
      ensures RecordsIntent(next.orders[i], intents)
    {
      if i < |st.orders| { assert RecordsIntent(st.orders[i], intents); }
    }
    forall i | 0 <= i < |st.orders|
      ensures st.orders[i].id != t.id
    {
      assert OrderIds(st.orders)[i] in IdSet(OrderIds(st.orders));
    }
  }

  lemma {:induction false} IntentAccounted(account: Account, session: Session, st: State, t: Intent,
      intents: seq<Intent>)
    requires Accounts(st, intents) && t in intents && t.id !in st.completed
    requires ProcessIntent(account, session, st, t).Ok?
    ensures Accounts(ProcessIntent(account, session, st, t).value, intents)
    ensures ProcessIntent(account, session, st, t).value.completed == st.completed + {t.id}
  {
    var next := ProcessIntent(account, session, st, t).value;
    AppendOrder(st, next, intents, t, next.orders[|st.orders|]);
  }

  lemma {:induction false} NotYetDone(due: seq<Intent>, n: nat)
    requires n < |due| && DistinctIds(due)
    ensures due[n].id !in IdSet(IntentIds(due[..n]))
    ensures IdSet(IntentIds(due[..n + 1])) == IdSet(IntentIds(due[..n])) + {due[n].id}
  {
    assert due[..n + 1][..n] == due[..n];
    AppendId(IntentIds(due[..n]), due[n].id);
  }

  ghost predicate Progress(start: State, st: State, due: seq<Intent>, n: nat, intents: seq<Intent>) {
    n <= |due| && Accounts(st, intents) && st.completed == start.completed + IdSet(IntentIds(due[..n]))
  }

  ghost predicate NewOnTape(start: State, due: seq<Intent>, intents: seq<Intent>) {
    DistinctIds(due) && forall i :: 0 <= i < |due| ==> due[i] in intents && due[i].id !in start.completed
  }

  lemma {:induction false} ProgressStep(account: Account, session: Session, start: State, st: State, due: seq<Intent>,
      n: nat, intents: seq<Intent>)
    requires Progress(start, st, due, n, intents) && NewOnTape(start, due, intents)
    requires n < |due| && ProcessIntent(account, session, st, due[n]).Ok?
    ensures Progress(start, ProcessIntent(account, session, st, due[n]).value, due, n + 1, intents)
  {
    NotYetDone(due, n);
    IntentAccounted(account, session, st, due[n], intents);
  }

  lemma {:induction false} IntentsAccounted(account: Account, session: Session, st: State, due: seq<Intent>, n: nat,
      intents: seq<Intent>)
    requires n <= |due| && Accounts(st, intents) && NewOnTape(st, due, intents)
    requires ProcessIntents(account, session, st, due, n).Ok?
    ensures Progress(st, ProcessIntents(account, session, st, due, n).value, due, n, intents)
  {
    if n == 0 {
      assert IdSet(IntentIds(due[..0])) == {};
    } else {
      IntentsAccounted(account, session, st, due, n - 1, intents);
      ProgressStep(account, session, st, ProcessIntents(account, session, st, due, n - 1).value, due, n - 1, intents);
    }
  }

  lemma {:induction false} DueIsDistinct(intents: seq<Intent>, completed: set<Id>, session: nat)
    requires UniqueIds(intents)
    ensures DistinctIds(DueIntents(intents, completed, session))
  {
    if intents != [] {
      DueIsDistinct(intents[1..], completed, session);
      DueIntentsAre(intents[1..], completed, session);
      forall t | t in intents[1..]
        ensures t.id != intents[0].id
      {
        var i :| 0 <= i < |intents[1..]| && intents[1..][i] == t;
        assert intents[i + 1] == t;
      }
    }
  }

  lemma {:induction false} ScheduleIsDistinct(intents: seq<Intent>, completed: set<Id>, session: nat)
    requires UniqueIds(intents) && IncreasingSeqNos(intents)
    ensures DistinctIds(Schedule(intents, completed, session))
    ensures Sorting.Ordered(Schedule(intents, completed, session), RunsBefore)
  {
    var due, dom := DueIntents(intents, completed, session), set t | t in intents;
    DueIsDistinct(intents, completed, session);
    DueIntentsAre(intents, completed, session);
    forall i | 0 <= i < |due|
      ensures due[i] in dom
    {
      assert due[i] in due;
    }
    TapeIsDistinct(intents);
    ScheduleOrderIsTotal(dom);
    Sorting.SortOrders(due, RunsBefore, dom);
    var s := Schedule(intents, completed, session);
    ScheduleIsDue(intents, completed, session);
    forall i, j | 0 <= i < j < |s|
      ensures s[i].id != s[j].id
    {
      assert RunsBefore(s[i], s[j]);
      assert s[i] in s && s[j] in s;
      SameIdSameIntent(intents, s[i], s[j]);
    }
  }

  lemma {:induction false} SameIdSameIntent(intents: seq<Intent>, a: Intent, b: Intent)
    requires UniqueIds(intents) && a in intents && b in intents
    ensures a.id == b.id ==> a == b
  {
    var i :| 0 <= i < |intents| && intents[i] == a;
    var j :| 0 <= j < |intents| && intents[j] == b;
  }

  lemma {:induction false} ScheduleIsNew(intents: seq<Intent>, st: State, session: nat)
    requires UniqueIds(intents) && IncreasingSeqNos(intents)
    ensures NewOnTape(st, Schedule(intents, st.completed, session), intents)
  {
    var due := Schedule(intents, st.completed, session);
    ScheduleIsDue(intents, st.completed, session);
    ScheduleIsDistinct(intents, st.completed, session);
    assert forall i :: 0 <= i < |due| ==> due[i] in due;
  }

  lemma {:induction false} DueComplete(intents: seq<Intent>, st: State, session: nat, completed: set<Id>)
    requires completed == st.completed + IdSet(IntentIds(Schedule(intents, st.completed, session)))
    ensures forall t | t in intents && t.effectiveAt.session == session :: t.id in completed
  {
    var due := Schedule(intents, st.completed, session);
    ScheduleIsDue(intents, st.completed, session);
    forall t | t in intents && t.effectiveAt.session == session
      ensures t.id in completed
    {
      if t.id !in st.completed {
        assert t in due;
        var i :| 0 <= i < |due| && due[i] == t;
        assert IntentIds(due)[i] == t.id;
      }
    }
  }

  lemma {:induction false} SessionAccounted(input: Input, session: Session, st: State)
    requires UniqueIds(input.intents) && IncreasingSeqNos(input.intents)
    requires Accounts(st, input.intents)
    requires ProcessSession(input, session, st).Ok?
    ensures Accounts(ProcessSession(input, session, st).value, input.intents)
    ensures st.completed <= ProcessSession(input, session, st).value.completed
    ensures forall t | t in input.intents && t.effectiveAt.session == session.seqNo ::
              t.id in ProcessSession(input, session, st).value.completed
  {
    var due := Schedule(input.intents, st.completed, session.seqNo);
    SessionParts(input, session, st);
    var traded := ProcessIntents(input.account, session, st, due, |due|).value;
    MarkFrame(input.account, session, traded);
    ScheduleIsNew(input.intents, st, session.seqNo);
    IntentsAccounted(input.account, session, st, due, |due|, input.intents);
    assert due[..|due|] == due;
    DueComplete(input.intents, st, session.seqNo, traded.completed);
  }

  /** The intents of the first k sessions have completed. */
  ghost predicate CompletedUpTo(input: Input, k: nat, st: State)
    requires k <= |input.sessions|
  {
    forall t, i | t in input.intents && 0 <= i < k && t.effectiveAt.session == input.sessions[i].seqNo ::
      t.id in st.completed
  }

  lemma {:induction false} CompletedNext(input: Input, k: nat, before: State, after: State)
    requires k < |input.sessions| && CompletedUpTo(input, k, before) && before.completed <= after.completed
    requires forall t | t in input.intents && t.effectiveAt.session == input.sessions[k].seqNo ::
               t.id in after.completed
    ensures CompletedUpTo(input, k + 1, after)
  {
  }

  lemma {:induction false} RunAccounted(input: Input, k: nat)
    requires ValidInput(input) && k <= |input.sessions|
    requires RunSessions(input, k).Ok?
    ensures Accounts(RunSessions(input, k).value, input.intents)
    ensures CompletedUpTo(input, k, RunSessions(input, k).value)
  {
    if k > 0 {
      RunAccounted(input, k - 1);
      var before := RunSessions(input, k - 1).value;
      SessionAccounted(input, input.sessions[k - 1], before);
      CompletedNext(input, k - 1, before, RunSessions(input, k).value);
    }
  }

  lemma {:induction false} NothingExpires(st: State, intents: seq<Intent>, n: nat)
    requires n <= |intents|
    requires forall i :: 0 <= i < |intents| ==> intents[i].id in st.completed
    ensures ExpireRest(st, intents, n) == st
  {
    if n > 0 { NothingExpires(st, intents, n - 1); }
  }

  /** Whatever a run completed, at its end it is every intent. */
  lemma {:induction false} AllCompleted(input: Input)
    requires ValidInput(input) && RunSessions(input, |input.sessions|).Ok?
    ensures Accounts(RunSessions(input, |input.sessions|).value, input.intents)
    ensures forall i :: 0 <= i < |input.intents| ==>
              input.intents[i].id in RunSessions(input, |input.sessions|).value.completed
  {
    RunAccounted(input, |input.sessions|);
    forall i | 0 <= i < |input.intents|
      ensures input.intents[i].id in RunSessions(input, |input.sessions|).value.completed
    {
      assert ValidIntent(input.intents[i], input);
      assert input.intents[i] in input.intents;
    }
  }

  /** A successful run gives exactly one order per intent, its trades are its filled
      orders in the same order, and the final expiry loop had nothing to add. */
  lemma {:induction false} OneOrderPerIntent(input: Input)
    requires RunEngine(input).Ok?
    ensures var out := RunEngine(input).value;
            && DistinctOrders(out.orders)
            && |out.orders| == |input.intents|
            && (forall t | t in input.intents :: HasOrder(out.orders, t))
            && FilledIds(out.orders) == TradeIds(out.trades)
    ensures ExpireRest(RunSessions(input, |input.sessions|).value, input.intents, |input.intents|)
            == RunSessions(input, |input.sessions|).value
  {
    RunParts(input);
    var st := RunSessions(input, |input.sessions|).value;
    AllCompleted(input);
    NothingExpires(st, input.intents, |input.intents|);
    OrdersCoverIntents(st, input.intents);
  }

  ghost predicate HasOrder(orders: seq<OrderRecord>, t: Intent) {
    exists i :: 0 <= i < |orders| && orders[i] == OrderOf(t, orders[i].status, orders[i].filledSession)
  }

  lemma {:induction false} IntentOfOrder(st: State, intents: seq<Intent>, i: nat) returns (j: nat)
    requires Accounts(st, intents) && i < |st.orders|
    ensures j < |intents| && st.orders[i] == OrderOf(intents[j], st.orders[i].status, st.orders[i].filledSession)
  {
    assert RecordsIntent(st.orders[i], intents);
    var u :| u in intents && st.orders[i] == OrderOf(u, st.orders[i].status, st.orders[i].filledSession);
    j :| 0 <= j < |intents| && intents[j] == u;
  }

  lemma {:induction false} OrderOfIntent(st: State, intents: seq<Intent>, t: Intent)
    requires Accounts(st, intents) && UniqueIds(intents)
    requires t in intents && t.id in st.completed
    ensures HasOrder(st.orders, t)
  {
    assert t.id in IdSet(OrderIds(st.orders));
    var i :| 0 <= i < |st.orders| && OrderIds(st.orders)[i] == t.id;
    var j := IntentOfOrder(st, intents, i);
    SameIdSameIntent(intents, t, intents[j]);
  }

  lemma {:induction false} CompletedIsTape(st: State, intents: seq<Intent>)
    requires Accounts(st, intents) && forall i :: 0 <= i < |intents| ==> intents[i].id in st.completed
    ensures st.completed == IdSet(IntentIds(intents))
  {
    forall id | id in st.completed
      ensures id in IdSet(IntentIds(intents))
    {
      var i :| 0 <= i < |st.orders| && OrderIds(st.orders)[i] == id;
      var j := IntentOfOrder(st, intents, i);
      assert IntentIds(intents)[j] == id;
    }
  }

  lemma {:induction false} AsManyOrders(st: State, intents: seq<Intent>)
    requires Accounts(st, intents) && UniqueIds(intents)
    requires forall i :: 0 <= i < |intents| ==> intents[i].id in st.completed
    ensures |st.orders| == |intents|
  {
    CompletedIsTape(st, intents);
    SizeOfIds(OrderIds(st.orders));
    SizeOfIds(IntentIds(intents));
  }

  lemma {:induction false} OrdersCoverIntents(st: State, intents: seq<Intent>)
    requires Accounts(st, intents) && UniqueIds(intents)
    requires forall i :: 0 <= i < |intents| ==> intents[i].id in st.completed
    ensures |st.orders| == |intents|
    ensures forall t | t in intents :: HasOrder(st.orders, t)
  {
    forall t | t in intents
      ensures HasOrder(st.orders, t)
    {
      OrderOfIntent(st, intents, t);
    }
    AsManyOrders(st, intents);
  }
}
