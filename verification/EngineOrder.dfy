/** When the execution order of intents is an order at all. Within an OCO event stops
    run before limits whatever their place on the tape, everything else follows the
    tape; the two rules clash when an outsider stands between two inverted legs. */
module EngineOrder {
  import opened Checked
  import opened Events
  import opened Engine
  import opened EngineInduction
  import Sorting

  function Elements(tape: seq<Intent>): set<Intent> {
    set t | t in tape
  }

  ghost predicate DistinctSeqNos(dom: set<Intent>) {
    forall a, b | a in dom && b in dom && a != b :: a.seqNo != b.seqNo
  }

  /** c stands, in tape order, between two legs of one event that execute in reverse. */
  ghost predicate Intrudes(a: Intent, b: Intent, c: Intent) {
    && SameOcoEvent(a, b) && TypePriority(a.orderType) > TypePriority(b.orderType)
    && !SameOcoEvent(a, c) && BaseBefore(a, c) && BaseBefore(c, b)
  }

  ghost predicate NoIntruder(dom: set<Intent>) {
    forall a, b, c {:trigger Intrudes(a, b, c)} | a in dom && b in dom && c in dom :: !Intrudes(a, b, c)
  }

  lemma {:induction false} BaseOrderTotal(a: Intent, b: Intent)
    requires a.seqNo != b.seqNo
    ensures BaseBefore(a, b) != BaseBefore(b, a)
  {
  }

  lemma {:induction false} BaseOrderTransitive(a: Intent, b: Intent, c: Intent)
    requires BaseBefore(a, b) && BaseBefore(b, c)
    ensures BaseBefore(a, c)
  {
  }

  lemma {:induction false} EventsShare(a: Intent, b: Intent, c: Intent)
    requires SameOcoEvent(a, b)
    ensures SameOcoEvent(b, a)
    ensures SameOcoEvent(a, c) <==> SameOcoEvent(b, c)
    ensures SameOcoEvent(c, a) <==> SameOcoEvent(c, b)
  {
  }

  /** The comparison never ties and never contradicts itself on two intents. */
  lemma {:induction false} ComparesAnyTwo(dom: set<Intent>)
    requires DistinctSeqNos(dom)
    ensures Sorting.Irreflexive(dom, ExecutesBefore) && Sorting.Connex(dom, ExecutesBefore)
  {
    forall a, b | a in dom && b in dom && a != b
      ensures ExecutesBefore(a, b) != ExecutesBefore(b, a)
    {
      BaseOrderTotal(a, b);
    }
  }

  lemma {:induction false} ChainsWithout(dom: set<Intent>, a: Intent, b: Intent, c: Intent)
    requires DistinctSeqNos(dom) && NoIntruder(dom) && a in dom && b in dom && c in dom
    requires ExecutesBefore(a, b) && ExecutesBefore(b, c)
    ensures ExecutesBefore(a, c)
  {
    if a == c {
      if a != b { BaseOrderTotal(a, b); }
    } else if SameOcoEvent(a, b) {
      EventsShare(a, b, c);
      if !SameOcoEvent(a, c) {
        if !BaseBefore(a, b) {
          if a != b { BaseOrderTotal(a, b); }
          BaseOrderTotal(a, c);
          assert !Intrudes(b, a, c);
        } else {
          BaseOrderTransitive(a, b, c);
        }
      } else if TypePriority(a.orderType) == TypePriority(b.orderType) == TypePriority(c.orderType) {
        BaseOrderTransitive(a, b, c);
      }
    } else if SameOcoEvent(b, c) {
      EventsShare(b, c, a);
      if !BaseBefore(b, c) {
        if b != c { BaseOrderTotal(b, c); }
        BaseOrderTotal(a, c);
        assert !Intrudes(c, b, a);
      } else {
        BaseOrderTransitive(a, b, c);
      }
    } else {
      BaseOrderTransitive(a, b, c);
      if SameOcoEvent(a, c) {
        assert !Intrudes(a, c, b);
      }
    }
  }

  /** An intruder closes a cycle of three. */
  lemma {:induction false} IntruderCycles(a: Intent, b: Intent, c: Intent)
    requires Intrudes(a, b, c)
    ensures ExecutesBefore(a, c) && ExecutesBefore(c, b) && ExecutesBefore(b, a) && !ExecutesBefore(a, b)
  {
    EventsShare(a, b, c);
  }

  /** The execution order of a tape is a strict total order if and only if no intent
      outside an OCO event stands between two of its legs that execute in reverse. */
  lemma {:induction false} OrderIsTotalExactly(tape: seq<Intent>)
    requires IncreasingSeqNos(tape)
    ensures var dom := Elements(tape);
            Sorting.StrictTotalOrder(dom, ExecutesBefore) <==> NoIntruder(dom)
  {
    var dom := Elements(tape);
    TapeIsDistinct(tape);
    ComparesAnyTwo(dom);
    if NoIntruder(dom) {
      forall a, b, c | a in dom && b in dom && c in dom && ExecutesBefore(a, b) && ExecutesBefore(b, c)
        ensures ExecutesBefore(a, c)
      {
        ChainsWithout(dom, a, b, c);
      }
    } else {
      var a, b, c :| a in dom && b in dom && c in dom && Intrudes(a, b, c);
      IntruderCycles(a, b, c);
    }
  }

  lemma {:induction false} TapeIsDistinct(tape: seq<Intent>)
    requires IncreasingSeqNos(tape)
    ensures DistinctSeqNos(Elements(tape))
  {
    forall a, b | a in tape && b in tape && a != b
      ensures a.seqNo != b.seqNo
    {
      var i :| 0 <= i < |tape| && tape[i] == a;
      var j :| 0 <= j < |tape| && tape[j] == b;
      if i < j { TapeIncreases(tape, i, j); } else { TapeIncreases(tape, j, i); }
    }
  }

  // ---- the shortest tape without an order ----

  /** A valid limit leg, an unrelated market order, and the stop leg of the same group. */
  function Clash(account: Account): seq<Intent>
    requires account.lotSize > 0
  {
    var known, effective := EventKey(0, AtClose, 0), EventKey(1, AtOpen, 0);
    [Intent(1, 1, account.symbol, Sell, Close, account.lotSize, Limit, known, effective, Some(10), None, Day, Some(7)),
     Intent(2, 2, account.symbol, Buy, Open, account.lotSize, Market, known, effective, None, None, Day, None),
     Intent(3, 3, account.symbol, Sell, Close, account.lotSize, Stop, known, effective, None, Some(5), Day, Some(7))]
  }

  /** It passes validation, and its three intents wait for each other in a circle. */
  lemma {:induction false} ClashHasNoOrder(account: Account)
    requires 0 < account.lotSize <= I128_MAX
    ensures ValidTape(Clash(account), account)
    ensures var t := Clash(account);
            ExecutesBefore(t[0], t[1]) && ExecutesBefore(t[1], t[2]) && ExecutesBefore(t[2], t[0])
    ensures !Sorting.StrictTotalOrder(Elements(Clash(account)), ExecutesBefore)
  {
    var t := Clash(account);
    assert t[0] in t && t[1] in t && t[2] in t;
    assert Intrudes(t[0], t[2], t[1]);
    OrderIsTotalExactly(t);
  }

  const CLASH_ACCOUNT := Account(AShareCash, 1, 1, 1, 1000000, 10000, 100, false, 0, 0, 0, 0, 0)

  /** One bar, on which the three legs of the clash are live. */
  const CLASH_INPUT := Input(CLASH_ACCOUNT, [Bar(1, 1, 8, 12, 4, 8, true, true)], [], Clash(CLASH_ACCOUNT))

  lemma {:induction false} ClashIsValid()
    ensures ValidInput(CLASH_INPUT)
  {
    ClashHasNoOrder(CLASH_ACCOUNT);
  }

  lemma {:induction false} ClashIsLive()
    ensures LiveIntents(CLASH_INPUT.intents, {}, 1) == CLASH_INPUT.intents
  {
    var t := CLASH_INPUT.intents;
    assert t[1..] == [t[1], t[2]] && t[1..][1..] == [t[2]] && [t[2]][1..] == [];
    assert LiveIntents([t[2]], {}, 1) == [t[2]];
    assert LiveIntents(t[1..], {}, 1) == [t[1], t[2]];
  }

  lemma {:induction false} CycleIsUnordered(other: seq<Intent>, a: Intent, b: Intent, c: Intent)
    requires a in other && b in other && c in other
    requires ExecutesBefore(a, b) && ExecutesBefore(b, c) && ExecutesBefore(c, a)
    requires !ExecutesBefore(b, a) && !ExecutesBefore(c, b) && !ExecutesBefore(a, c)
    ensures !Sorting.Ordered(other, ExecutesBefore)
  {
    var i :| 0 <= i < |other| && other[i] == a;
    var j :| 0 <= j < |other| && other[j] == b;
    var k :| 0 <= k < |other| && other[k] == c;
    assert i != j && j != k && i != k;
  }

  /** A valid input whose one bar has three live intents: in every arrangement of them one
      stands after an intent it executes before. */
  lemma {:induction false} ClashedBarHasNoOrder(other: seq<Intent>)
    requires multiset(other) == multiset(LiveIntents(CLASH_INPUT.intents, {}, CLASH_INPUT.bars[0].seqNo))
    ensures ValidInput(CLASH_INPUT) && |other| == 3 && !Sorting.Ordered(other, ExecutesBefore)
  {
    ClashIsValid();
    ClashIsLive();
    ClashHasNoOrder(CLASH_ACCOUNT);
    var t := CLASH_INPUT.intents;
    assert |multiset(other)| == |other| && |multiset(t)| == |t|;
    assert t[0] in multiset(t) && t[1] in multiset(t) && t[2] in multiset(t);
    CycleIsUnordered(other, t[0], t[1], t[2]);
  }

  /** On a well-ordered tape every schedule is in execution order, whatever stable or
      unstable sort produced it. */
  ghost predicate WellOrdered(tape: seq<Intent>) {
    IncreasingSeqNos(tape) && NoIntruder(Elements(tape))
  }

  lemma {:induction false} ScheduleIsOrdered(tape: seq<Intent>, completed: set<Id>, session: nat)
    requires WellOrdered(tape) && UniqueIds(tape)
    ensures Sorting.Ordered(Schedule(tape, completed, session), ExecutesBefore)
  {
    var dom, live := Elements(tape), LiveIntents(tape, completed, session);
    OrderIsTotalExactly(tape);
    LiveIntentsAre(tape, completed, session);
    LiveIntentsDistinct(tape, completed, session);
    forall i | 0 <= i < |live| ensures live[i] in dom { assert live[i] in live; }
    Sorting.SortOrders(live, ExecutesBefore, dom);
  }

  lemma {:induction false} AnySortAgrees(tape: seq<Intent>, completed: set<Id>, session: nat, other: seq<Intent>)
    requires WellOrdered(tape) && UniqueIds(tape)
    requires multiset(other) == multiset(LiveIntents(tape, completed, session))
    requires Sorting.Ordered(other, ExecutesBefore)
    ensures other == Schedule(tape, completed, session)
  {
    var dom, live := Elements(tape), LiveIntents(tape, completed, session);
    OrderIsTotalExactly(tape);
    ScheduleIsOrdered(tape, completed, session);
    ScheduleIs(tape, completed, session);
    Sorting.SortPermutes(live, ExecutesBefore);
    var due := Schedule(tape, completed, session);
    forall i | 0 <= i < |due| ensures due[i] in dom { assert due[i] in due; }
    Sorting.SortedUnique(due, other, ExecutesBefore, dom);
  }
}
