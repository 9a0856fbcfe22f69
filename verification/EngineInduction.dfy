/** How to prove something about every state of a v1 run: show that the intents, the
    funding events and the end of a bar keep it. */
module EngineInduction {
  import opened Checked
  import opened Events
  import opened Folds
  import opened Engine
  import Sorting

  // ---- the tape ----

  lemma {:induction false} LiveIntentsAre(intents: seq<Intent>, completed: set<Id>, session: nat)
    ensures var live := LiveIntents(intents, completed, session);
            forall t :: t in live <==> t in intents && t.id !in completed && Live(t, session)
  {
    if intents != [] {
      LiveIntentsAre(intents[1..], completed, session);
      assert intents == [intents[0]] + intents[1..];
    }
  }

  lemma {:induction false} LiveIntentsDistinct(intents: seq<Intent>, completed: set<Id>, session: nat)
    requires UniqueIds(intents)
    ensures Sorting.Distinct(LiveIntents(intents, completed, session))
  {
    if intents != [] {
      LiveIntentsDistinct(intents[1..], completed, session);
      LiveIntentsAre(intents[1..], completed, session);
    }
  }

  lemma {:induction false} SameIdSameIntent(intents: seq<Intent>, a: Intent, b: Intent)
    requires UniqueIds(intents) && a in intents && b in intents
    ensures a.id == b.id ==> a == b
  {
    var i :| 0 <= i < |intents| && intents[i] == a;
    var j :| 0 <= j < |intents| && intents[j] == b;
  }

  /** A schedule holds every live intent once. */
  lemma {:induction false} ScheduleIs(intents: seq<Intent>, completed: set<Id>, session: nat)
    requires UniqueIds(intents)
    ensures var due := Schedule(intents, completed, session);
            && (forall t :: t in due <==> t in intents && t.id !in completed && Live(t, session))
            && UniqueIds(due)
  {
    var live, due := LiveIntents(intents, completed, session), Schedule(intents, completed, session);
    LiveIntentsAre(intents, completed, session);
    LiveIntentsDistinct(intents, completed, session);
    Sorting.SortPermutes(live, ExecutesBefore);
    Sorting.PermutationDistinct(live, due);
    forall t
      ensures t in due <==> t in live
    {
      assert t in due <==> t in multiset(due);
    }
    forall i, j | 0 <= i < j < |due|
      ensures due[i].id != due[j].id
    {
      assert due[i] in due && due[j] in due;
      SameIdSameIntent(intents, due[i], due[j]);
    }
  }

  // ---- inside a bar ----

  /** The state of a bar before it is marked: intents, then funding. */
  function BeforeMark(input: Input, bar: Bar, st: State): Result<State> {
    var due := Schedule(input.intents, st.log.completed, bar.seqNo);
    var traded :- ProcessIntents(input.account, bar, st, due, |due|);
    var book :- SettleFunding(input, bar.seqNo, traded.book);
    Ok(traded.(book := book))
  }

  lemma {:induction false} BarParts(input: Input, bar: Bar, st: State)
    requires ProcessBar(input, bar, st).Ok?
    ensures BeforeMark(input, bar, st).Ok?
    ensures var before := BeforeMark(input, bar, st).value;
            && MarkCurve(input.account, bar, before.book, before.curve).Ok?
            && ProcessBar(input, bar, st).value
               == State(before.log, CloseBook(input.account, before.book),
                        MarkCurve(input.account, bar, before.book, before.curve).value)
  {
  }

  ghost predicate KeptByIntents(input: Input, bar: Bar, inv: State -> bool) {
    forall st: State, t: Intent {:trigger ProcessIntent(input.account, bar, st, t)} |
      && inv(st) && t in input.intents && Live(t, bar.seqNo) && t.id !in st.log.completed
      && ProcessIntent(input.account, bar, st, t).Ok? ::
      inv(ProcessIntent(input.account, bar, st, t).value)
  }

  ghost predicate KeptByFunding(input: Input, bar: Bar, inv: State -> bool) {
    forall st: State, event: FundingEvent {:trigger BookFunding(input.account, st.book, event)} |
      && inv(st) && event in FundingFor(input.funding, bar.seqNo) && input.account.model == LinearPerp
      && BookFunding(input.account, st.book, event).Ok? ::
      inv(st.(book := BookFunding(input.account, st.book, event).value))
  }

  ghost predicate Pending(st: State, due: seq<Intent>, i: nat) {
    forall j :: i <= j < |due| ==> due[j].id !in st.log.completed
  }

  lemma {:induction false} PendingStep(account: Account, bar: Bar, st: State, due: seq<Intent>, i: nat)
    requires i < |due| && Pending(st, due, i)
    requires forall j :: i < j < |due| ==> due[i].id != due[j].id
    requires ProcessIntent(account, bar, st, due[i]).Ok?
    ensures Pending(ProcessIntent(account, bar, st, due[i]).value, due, i + 1)
  {
    assert ProcessIntent(account, bar, st, due[i]).value.log.completed <= st.log.completed + {due[i].id};
  }

  lemma {:induction false} IntentsKeep(input: Input, bar: Bar, st: State, inv: State -> bool)
    requires UniqueIds(input.intents)
    requires inv(st) && KeptByIntents(input, bar, inv)
    requires var due := Schedule(input.intents, st.log.completed, bar.seqNo);
             ProcessIntents(input.account, bar, st, due, |due|).Ok?
    ensures var due := Schedule(input.intents, st.log.completed, bar.seqNo);
            inv(ProcessIntents(input.account, bar, st, due, |due|).value)
  {
    var due := Schedule(input.intents, st.log.completed, bar.seqNo);
    ScheduleIs(input.intents, st.log.completed, bar.seqNo);
    var both := (s: State, i: nat) => inv(s) && Pending(s, due, i);
    assert Pending(st, due, 0) by {
      forall j | 0 <= j < |due| ensures due[j].id !in st.log.completed { assert due[j] in due; }
    }
    forall s: State, i: nat | i < |due| && both(s, i) && IntentStep(input.account, bar)(s, due[i]).Ok?
      ensures both(IntentStep(input.account, bar)(s, due[i]).value, i + 1)
    {
      assert due[i] in due;
      PendingStep(input.account, bar, s, due, i);
    }
    FoldInduction(IntentStep(input.account, bar), st, due, |due|, both);
  }

  lemma {:induction false} FundingKeeps(input: Input, bar: Bar, st: State, inv: State -> bool)
    requires inv(st) && KeptByFunding(input, bar, inv)
    requires SettleFunding(input, bar.seqNo, st.book).Ok?
    ensures inv(st.(book := SettleFunding(input, bar.seqNo, st.book).value))
  {
    if input.account.model == LinearPerp {
      var events := FundingFor(input.funding, bar.seqNo);
      var kept := (b: Book, i: nat) => inv(st.(book := b));
      forall b: Book, i: nat | i < |events| && kept(b, i) && FundingStep(input.account)(b, events[i]).Ok?
        ensures kept(FundingStep(input.account)(b, events[i]).value, i + 1)
      {
        var s := st.(book := b);
        assert events[i] in events;
        assert BookFunding(input.account, s.book, events[i]).Ok?;
      }
      assert st.(book := st.book) == st;
      FoldInduction(FundingStep(input.account), st.book, events, |events|, kept);
    } else {
      assert st.(book := st.book) == st;
    }
  }

  /** What the intents and the funding of a bar keep holds before the bar is marked. */
  lemma {:induction false} BarInduction(input: Input, bar: Bar, st: State, inv: State -> bool)
    requires UniqueIds(input.intents)
    requires inv(st) && KeptByIntents(input, bar, inv) && KeptByFunding(input, bar, inv)
    requires BeforeMark(input, bar, st).Ok?
    ensures inv(BeforeMark(input, bar, st).value)
  {
    IntentsKeep(input, bar, st, inv);
    var due := Schedule(input.intents, st.log.completed, bar.seqNo);
    FundingKeeps(input, bar, ProcessIntents(input.account, bar, st, due, |due|).value, inv);
  }

  // ---- over the bars ----

  ghost predicate KeptByBars(input: Input, inv: (State, nat) -> bool) {
    forall st: State, i: nat {:trigger inv(st, i)} |
      i < |input.bars| && inv(st, i) && ProcessBar(input, input.bars[i], st).Ok? ::
      inv(ProcessBar(input, input.bars[i], st).value, i + 1)
  }

  /** What holds at the start and is kept by every bar holds after any number of bars. */
  lemma {:induction false} RunInduction(input: Input, k: nat, inv: (State, nat) -> bool)
    requires k <= |input.bars| && inv(InitialState(input.account), 0) && KeptByBars(input, inv)
    requires Replay(input, k).Ok?
    ensures inv(Replay(input, k).value, k)
  {
    FoldInduction(BarStep(input), InitialState(input.account), input.bars, k, inv);
  }

  lemma {:induction false} TapeIncreases(intents: seq<Intent>, i: nat, j: nat)
    requires IncreasingSeqNos(intents) && i < j < |intents|
    ensures intents[i].seqNo < intents[j].seqNo
  {
    if i + 1 < j { TapeIncreases(intents, i, j - 1); }
  }

  lemma {:induction false} IncreasingPrefix(bars: seq<Bar>, k: nat)
    requires IncreasingBars(bars) && k <= |bars|
    ensures IncreasingBars(bars[..k])
  {
    forall i | 0 <= i < |bars[..k]| - 1 ensures bars[..k][i].seqNo < bars[..k][i + 1].seqNo {
      assert bars[i].seqNo < bars[i + 1].seqNo;
    }
  }

  lemma {:induction false} BarsIncrease(bars: seq<Bar>, i: nat, j: nat)
    requires IncreasingBars(bars) && i < j < |bars|
    ensures bars[i].seqNo < bars[j].seqNo
  {
    if i + 1 < j { BarsIncrease(bars, i, j - 1); }
  }

  // ---- the parts of a booked fill ----

  lemma {:induction false} FillParts(account: Account, session: nat, b: Book, t: Intent, fill: Fill)
    requires BookFill(account, session, b, t, fill).Ok?
    ensures CostsOf(account, t, fill).Ok?
    ensures MoveFor(account, session, b, t, fill, CostsOf(account, t, fill).value).Ok?
    ensures var c := CostsOf(account, t, fill).value;
            var m := MoveFor(account, session, b, t, fill, c).value;
            var next := BookFill(account, session, b, t, fill).value;
            && EligibleNow(account, session, AfterMove(account, b, m)).Ok?
            && next == AfterMove(account, b, m).(
                 trades := b.trades + [TradeOf(t, session, fill, c)],
                 positions := b.positions
                   + [PositionRecord(t.id, session, m.quantity,
                                     EligibleNow(account, session, AfterMove(account, b, m)).value)],
                 cashLedger := b.cashLedger + [FillCashRecord(t, session, c, m.notionalDelta, m.realized, m.cash)],
                 totalFees := b.totalFees + c.fee,
                 totalStampDuty := b.totalStampDuty + (if account.model == LinearPerp then 0 else c.stampDuty),
                 totalSlippage := b.totalSlippage + c.slippage)
            && InI128(next.totalFees) && InI128(next.totalSlippage)
            && (account.model == AShareCash ==> InI128(next.totalStampDuty))
  {
  }

  /** An intent that trades: the fill its bar allows, booked and logged. */
  lemma {:induction false} IntentParts(account: Account, bar: Bar, st: State, t: Intent)
    requires ProcessIntent(account, bar, st, t).Ok?
    ensures var next := ProcessIntent(account, bar, st, t).value;
            && next.curve == st.curve
            && if !OcoDone(st.log, t) && FillDecision(account, bar, t).Ok? && FillDecision(account, bar, t).value.Some?
                 then
                 var fill := FillDecision(account, bar, t).value.value;
                 && BookFill(account, bar.seqNo, st.book, t, fill) == Ok(next.book)
                 && next.log == LogFill(st.log, t, bar.seqNo, fill)
               else next.book == st.book
  {
  }
}
