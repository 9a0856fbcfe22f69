/** The strategy host: it releases one bar at a time, and stamps what the strategy
    answers as known at that bar and effective at the next one at the earliest. */
module Host {
  import opened Checked
  import opened Events
  import opened Folds
  import opened Engine
  import opened EngineInduction
  import Sorting

  /** When an answer asks to become effective. */
  datatype Request = Unstated | Malformed | At(session: nat, stable: nat)

  /** Everything of an intent but its place in time. */
  datatype Body = Body(
    id: Id, symbol: Symbol, side: Side, effect: Effect, quantity: int, orderType: OrderType,
    limit: Option<int>, stop: Option<int>, timeInForce: TimeInForce, oco: Option<Group>)

  datatype Answer = NotAnIntent | Proposal(seqNo: nat, request: Request, body: Body)

  /** A strategy answers from the bars it has been given; it may also fail to. */
  type Strategy = seq<Bar> -> Option<seq<Answer>>

  /** The intents emitted so far and the last sequence number among them. */
  datatype Tape = Tape(emitted: seq<Intent>, last: Option<nat>)

  function Stamp(body: Body, seqNo: nat, known: nat, effectiveAt: EventKey): Intent {
    Intent(body.id, seqNo, body.symbol, body.side, body.effect, body.quantity, body.orderType,
           EventKey(known, AtClose, seqNo), effectiveAt, body.limit, body.stop, body.timeInForce, body.oco)
  }

  function EffectiveAt(a: Answer, effective: nat): Option<EventKey>
    requires a.Proposal?
  {
    match a.request
    case Unstated => Some(EventKey(effective, AtOpen, a.seqNo))
    case Malformed => None
    case At(session, stable) => if session < effective then None else Some(EventKey(session, AtOpen, stable))
  }

  function AppendOne(tape: Tape, a: Answer, known: nat, effective: nat): Option<Tape> {
    if a.NotAnIntent? || (tape.last.Some? && a.seqNo <= tape.last.value) then None
    else
      match EffectiveAt(a, effective)
      case None => None
      case Some(key) => Some(Tape(tape.emitted + [Stamp(a.body, a.seqNo, known, key)], Some(a.seqNo)))
  }

  function Append(tape: Tape, answers: seq<Answer>, known: nat, effective: nat): Option<Tape> {
    if answers == [] then Some(tape)
    else
      match Append(tape, answers[..|answers| - 1], known, effective)
      case None => None
      case Some(before) => AppendOne(before, answers[|answers| - 1], known, effective)
  }

  /** After the start answer and the answers to the first n bars, each followed by a bar. */
  function Released(strategy: Strategy, bars: seq<Bar>, n: nat): Option<Tape>
    requires n < |bars|
  {
    if n == 0 then
      match strategy([])
      case None => None
      case Some(answers) => Append(Tape([], None), answers, 0, bars[0].seqNo)
    else
      match Released(strategy, bars, n - 1)
      case None => None
      case Some(tape) =>
        match strategy(bars[..n])
        case None => None
        case Some(answers) => Append(tape, answers, bars[n - 1].seqNo, bars[n].seqNo)
  }

  /** The answer to the last bar is read and dropped. */
  function HostedTape(strategy: Strategy, bars: seq<Bar>): Option<seq<Intent>> {
    if bars == [] then None
    else
      match Released(strategy, bars, |bars| - 1)
      case None => None
      case Some(tape) => if strategy(bars) == None then None else Some(tape.emitted)
  }

  // ---- the loops ----

  method AppendIntents(tape: Tape, answers: seq<Answer>, known: nat, effective: nat) returns (r: Option<Tape>)
    ensures r == Append(tape, answers, known, effective)
  {
    var emitted, last := tape.emitted, tape.last;
    for i := 0 to |answers|
      invariant Append(tape, answers[..i], known, effective) == Some(Tape(emitted, last))
    {
      assert answers[..i + 1][..i] == answers[..i];
      var a := answers[i];
      if a.NotAnIntent? || (last.Some? && a.seqNo <= last.value) {
        AppendStops(tape, answers, known, effective, i + 1);
        return None;
      }
      var key := EffectiveAt(a, effective);
      if key.None? {
        AppendStops(tape, answers, known, effective, i + 1);
        return None;
      }
      emitted := emitted + [Stamp(a.body, a.seqNo, known, key.value)];
      last := Some(a.seqNo);
    }
    assert answers[..|answers|] == answers;
    return Some(Tape(emitted, last));
  }

  lemma {:induction false} AppendStops(tape: Tape, answers: seq<Answer>, known: nat, effective: nat, n: nat)
    requires n <= |answers| && Append(tape, answers[..n], known, effective) == None
    ensures Append(tape, answers, known, effective) == None
    decreases |answers| - n
  {
    if n == |answers| {
      assert answers[..n] == answers;
    } else {
      assert answers[..n + 1][..n] == answers[..n];
      AppendStops(tape, answers, known, effective, n + 1);
    }
  }

  lemma {:induction false} ReleaseStops(strategy: Strategy, bars: seq<Bar>, m: nat, n: nat)
    requires m <= n < |bars| && Released(strategy, bars, m) == None
    ensures Released(strategy, bars, n) == None
  {
    if m < n { ReleaseStops(strategy, bars, m, n - 1); }
  }

  method RunStrategyHost(strategy: Strategy, bars: seq<Bar>) returns (r: Option<seq<Intent>>)
    ensures r == HostedTape(strategy, bars)
  {
    if bars == [] { return None; }
    var start := strategy([]);
    if start.None? { ReleaseStops(strategy, bars, 0, |bars| - 1); return None; }
    var opening := AppendIntents(Tape([], None), start.value, 0, bars[0].seqNo);
    if opening.None? { ReleaseStops(strategy, bars, 0, |bars| - 1); return None; }
    var tape := opening.value;
    for index := 0 to |bars| - 1
      invariant Released(strategy, bars, index) == Some(tape)
    {
      var answers := strategy(bars[..index + 1]);
      if answers.None? { ReleaseStops(strategy, bars, index + 1, |bars| - 1); return None; }
      var longer := AppendIntents(tape, answers.value, bars[index].seqNo, bars[index + 1].seqNo);
      if longer.None? { ReleaseStops(strategy, bars, index + 1, |bars| - 1); return None; }
      tape := longer.value;
    }
    var dropped := strategy(bars);
    return if dropped.None? then None else Some(tape.emitted);
  }

  // ---- what is known comes before what it affects ----

  ghost predicate Stamped(t: Intent) {
    t.effectiveAt.phase == AtOpen && t.knownAt.phase == AtClose && t.knownAt.session < t.effectiveAt.session
  }

  ghost predicate StampedFrom(intents: seq<Intent>, start: nat) {
    forall i :: start <= i < |intents| ==> Stamped(intents[i])
  }

  ghost predicate Sequenced(tape: Tape) {
    && IncreasingSeqNos(tape.emitted)
    && tape.last == (if tape.emitted == [] then None else Some(tape.emitted[|tape.emitted| - 1].seqNo))
  }

  lemma {:induction false} AppendSequences(tape: Tape, answers: seq<Answer>, known: nat, effective: nat)
    requires Sequenced(tape)
    ensures var r := Append(tape, answers, known, effective);
            r.Some? ==> Sequenced(r.value) && tape.emitted <= r.value.emitted
  {
    if answers != [] {
      AppendSequences(tape, answers[..|answers| - 1], known, effective);
    }
  }

  /** Each answer is stamped in its place. */
  lemma {:induction false} AppendIs(tape: Tape, answers: seq<Answer>, known: nat, effective: nat)
    requires Append(tape, answers, known, effective).Some?
    ensures var emitted := Append(tape, answers, known, effective).value.emitted;
            && |emitted| == |tape.emitted| + |answers| && tape.emitted <= emitted
            && forall i :: 0 <= i < |answers| ==>
                 && answers[i].Proposal? && EffectiveAt(answers[i], effective).Some?
                 && emitted[|tape.emitted| + i]
                    == Stamp(answers[i].body, answers[i].seqNo, known, EffectiveAt(answers[i], effective).value)
  {
    if answers != [] {
      AppendIs(tape, answers[..|answers| - 1], known, effective);
    }
  }

  lemma {:induction false} AppendStamps(tape: Tape, answers: seq<Answer>, known: nat, effective: nat, start: nat)
    requires StampedFrom(tape.emitted, start) && known < effective
    requires Append(tape, answers, known, effective).Some?
    ensures StampedFrom(Append(tape, answers, known, effective).value.emitted, start)
  {
    AppendIs(tape, answers, known, effective);
    var emitted := Append(tape, answers, known, effective).value.emitted;
    forall i | start <= i < |emitted| ensures Stamped(emitted[i]) {
      if i < |tape.emitted| {
        assert emitted[i] == tape.emitted[i];
      } else {
        assert answers[i - |tape.emitted|].Proposal?;
      }
    }
  }

  /** What follows the answer to the start is stamped, and all of it is in sequence. */
  lemma {:induction false} ReleasedIsStamped(strategy: Strategy, bars: seq<Bar>, n: nat)
    requires IncreasingBars(bars) && n < |bars| && Released(strategy, bars, n).Some?
    ensures Released(strategy, bars, 0).Some? && Sequenced(Released(strategy, bars, n).value)
    ensures Released(strategy, bars, 0).value.emitted <= Released(strategy, bars, n).value.emitted
    ensures StampedFrom(Released(strategy, bars, n).value.emitted, |Released(strategy, bars, 0).value.emitted|)
  {
    if n == 0 {
      AppendSequences(Tape([], None), strategy([]).value, 0, bars[0].seqNo);
    } else {
      ReleasedIsStamped(strategy, bars, n - 1);
      assert bars[n - 1].seqNo < bars[n - 1 + 1].seqNo;
      var before, answers := Released(strategy, bars, n - 1).value, strategy(bars[..n]).value;
      AppendSequences(before, answers, bars[n - 1].seqNo, bars[n].seqNo);
      AppendStamps(before, answers, bars[n - 1].seqNo, bars[n].seqNo, |Released(strategy, bars, 0).value.emitted|);
    }
  }

  /** An answer to the start that becomes effective at session 0. */
  ghost predicate AtSessionZero(a: Answer, first: nat) {
    a.Proposal? && EffectiveAt(a, first).Some? && EffectiveAt(a, first).value.session == 0
  }

  /** The emitted intents are known strictly before they become effective. */
  ghost predicate KnownBefore(intents: seq<Intent>) {
    forall i :: 0 <= i < |intents| ==> KeyBefore(intents[i].knownAt, intents[i].effectiveAt)
  }

  /** The intent an answer to the start is stamped as. */
  ghost predicate StampedAtStart(a: Answer, first: nat, t: Intent) {
    && a.Proposal? && EffectiveAt(a, first) == Some(t.effectiveAt)
    && t.knownAt == EventKey(0, AtClose, a.seqNo) && t.effectiveAt.phase == AtOpen
  }

  lemma {:induction false} StartIsStamped(strategy: Strategy, bars: seq<Bar>)
    requires bars != [] && Released(strategy, bars, 0).Some?
    ensures strategy([]).Some? && |Released(strategy, bars, 0).value.emitted| == |strategy([]).value|
    ensures forall i :: 0 <= i < |strategy([]).value| ==>
              var t := Released(strategy, bars, 0).value.emitted[i];
              && t.knownAt.session == 0 && t.knownAt.phase == AtClose && t.effectiveAt.phase == AtOpen
              && (t.effectiveAt.session == 0 <==> AtSessionZero(strategy([]).value[i], bars[0].seqNo))
  {
    var start, answers, first := Tape([], None), strategy([]).value, bars[0].seqNo;
    AppendIs(start, answers, 0, first);
    var emitted := Released(strategy, bars, 0).value.emitted;
    forall i | 0 <= i < |answers|
      ensures StampedAtStart(answers[i], first, emitted[i])
    {
      assert emitted[|start.emitted| + i]
             == Stamp(answers[i].body, answers[i].seqNo, 0, EffectiveAt(answers[i], first).value);
    }
    forall i | 0 <= i < |answers|
      ensures emitted[i].effectiveAt.session == 0 <==> AtSessionZero(answers[i], first)
      ensures var t := emitted[i]; t.knownAt.session == 0 && t.knownAt.phase == AtClose && t.effectiveAt.phase == AtOpen
    {
      assert StampedAtStart(answers[i], first, emitted[i]);
    }
  }

  /** For increasing sessions, every emitted intent is known strictly before it becomes
      effective if and only if the sessions begin at 1 or later, or no answer to the
      start becomes effective at session 0. */
  lemma {:induction false} KnownBeforeExactly(strategy: Strategy, bars: seq<Bar>)
    requires IncreasingBars(bars) && HostedTape(strategy, bars).Some?
    ensures bars != [] && strategy([]).Some?
    ensures KnownBefore(HostedTape(strategy, bars).value) <==>
              (bars[0].seqNo >= 1 || forall i ::
                 0 <= i < |strategy([]).value| ==> !AtSessionZero(strategy([]).value[i], 0))
  {
    ReleasedIsStamped(strategy, bars, |bars| - 1);
    StartIsStamped(strategy, bars);
    var tape, answers := HostedTape(strategy, bars).value, strategy([]).value;
    var opening := Released(strategy, bars, 0).value.emitted;
    if KnownBefore(tape) && bars[0].seqNo == 0 {
      forall i | 0 <= i < |answers| ensures !AtSessionZero(answers[i], 0) {
        assert opening[i] == tape[i];
        assert KeyBefore(tape[i].knownAt, tape[i].effectiveAt);
      }
    }
    if bars[0].seqNo >= 1 || forall i :: 0 <= i < |answers| ==> !AtSessionZero(answers[i], 0) {
      forall i | 0 <= i < |tape| ensures KeyBefore(tape[i].knownAt, tape[i].effectiveAt) {
        if i < |answers| {
          assert opening[i] == tape[i];
          assert !AtSessionZero(answers[i], bars[0].seqNo);
        } else {
          assert Stamped(tape[i]);
        }
      }
    }
  }

  /** For increasing sessions from 1 on, every emitted intent is known strictly before
      it becomes effective, at an open, and the tape is in sequence. */
  lemma {:induction false} KnownBeforeEffective(strategy: Strategy, bars: seq<Bar>)
    requires IncreasingBars(bars) && bars != [] && bars[0].seqNo >= 1
    requires HostedTape(strategy, bars).Some?
    ensures var tape := HostedTape(strategy, bars).value;
            && IncreasingSeqNos(tape)
            && forall i ::
              0 <= i < |tape| ==> KeyBefore(tape[i].knownAt, tape[i].effectiveAt) && tape[i].effectiveAt.phase == AtOpen
  {
    ReleasedIsStamped(strategy, bars, |bars| - 1);
    StartIsStamped(strategy, bars);
    KnownBeforeExactly(strategy, bars);
    var tape, opening := HostedTape(strategy, bars).value, Released(strategy, bars, 0).value.emitted;
    forall i | 0 <= i < |tape|
      ensures KeyBefore(tape[i].knownAt, tape[i].effectiveAt) && tape[i].effectiveAt.phase == AtOpen
    {
      if i < |opening| { assert opening[i] == tape[i]; } else { assert Stamped(tape[i]); }
    }
  }

  /** Before session 1 there is nothing to be known at: an answer to the start that
      leaves its time open on a tape starting at session 0 breaks the order. */
  lemma {:induction false} SessionZeroBreaks(strategy: Strategy, bars: seq<Bar>, body: Body, seqNo: nat)
    requires bars != [] && bars[0].seqNo == 0
    requires strategy([]) == Some([Proposal(seqNo, Unstated, body)])
    ensures Released(strategy, bars, 0).Some? && |Released(strategy, bars, 0).value.emitted| == 1
    ensures var t := Released(strategy, bars, 0).value.emitted[0];
            KeyBefore(t.effectiveAt, t.knownAt) && !KeyBefore(t.knownAt, t.effectiveAt)
  {
    var answers := [Proposal(seqNo, Unstated, body)];
    assert answers[..0] == [];
    assert Append(Tape([], None), answers[..|answers| - 1], 0, 0) == Some(Tape([], None));
  }

  // ---- no look-ahead ----

  /** The tapes of two markets agree as far as the markets do. */
  lemma {:induction false} SameRelease(strategy: Strategy, a: seq<Bar>, b: seq<Bar>, n: nat)
    requires n < |a| && n < |b| && a[..n + 1] == b[..n + 1]
    ensures Released(strategy, a, n) == Released(strategy, b, n)
  {
    assert a[n] == a[..n + 1][n] && b[n] == b[..n + 1][n];
    if n > 0 {
      assert a[..n] == a[..n + 1][..n] && b[..n] == b[..n + 1][..n];
      assert a[n - 1] == a[..n][n - 1] && b[n - 1] == b[..n][n - 1];
      SameRelease(strategy, a, b, n - 1);
    }
  }

  ghost predicate AllFrom(intents: seq<Intent>, start: nat, session: int) {
    forall i :: start <= i < |intents| ==> intents[i].effectiveAt.session > session
  }

  lemma {:induction false} AppendIsLater(tape: Tape, answers: seq<Answer>, known: nat, effective: nat, start: nat,
      session: int)
    requires AllFrom(tape.emitted, start, session) && session < effective
    ensures var r := Append(tape, answers, known, effective);
            r.Some? ==> AllFrom(r.value.emitted, start, session) && tape.emitted <= r.value.emitted
  {
    if answers != [] {
      AppendIsLater(tape, answers[..|answers| - 1], known, effective, start, session);
    }
  }

  /** What is emitted after the answer to bar m - 1 is effective after bar m at the earliest. */
  lemma {:induction false} LaterRelease(strategy: Strategy, bars: seq<Bar>, m: nat, n: nat)
    requires IncreasingBars(bars) && m <= n < |bars| && Released(strategy, bars, n).Some?
    ensures Released(strategy, bars, m).Some?
    ensures Released(strategy, bars, m).value.emitted <= Released(strategy, bars, n).value.emitted
    ensures AllFrom(Released(strategy, bars, n).value.emitted, |Released(strategy, bars, m).value.emitted|,
                    bars[m].seqNo)
  {
    if m < n {
      LaterRelease(strategy, bars, m, n - 1);
      BarsIncrease(bars, m, n);
      AppendIsLater(Released(strategy, bars, n - 1).value, strategy(bars[..n]).value, bars[n - 1].seqNo, bars[n].seqNo,
                    |Released(strategy, bars, m).value.emitted|, bars[m].seqNo);
    }
  }

  /** Intents that become effective later are not considered by a bar. */
  lemma {:induction false} LaterNotLive(early: seq<Intent>, tape: seq<Intent>, completed: set<Id>, session: nat)
    requires early <= tape && AllFrom(tape, |early|, session)
    ensures LiveIntents(tape, completed, session) == LiveIntents(early, completed, session)
  {
    if early == [] {
      NoneLive(tape, completed, session);
    } else {
      assert tape[0] == early[0] && early[1..] <= tape[1..];
      forall i | |early[1..]| <= i < |tape[1..]| ensures tape[1..][i].effectiveAt.session > session {
        assert tape[1..][i] == tape[i + 1];
      }
      LaterNotLive(early[1..], tape[1..], completed, session);
    }
  }

  lemma {:induction false} NoneLive(tape: seq<Intent>, completed: set<Id>, session: nat)
    requires AllFrom(tape, 0, session)
    ensures LiveIntents(tape, completed, session) == []
  {
    if tape != [] {
      assert tape[0].effectiveAt.session > session;
      forall i | 0 <= i < |tape[1..]| ensures tape[1..][i].effectiveAt.session > session {
        assert tape[1..][i] == tape[i + 1];
      }
      NoneLive(tape[1..], completed, session);
    }
  }

  /** Two inputs a bar cannot tell apart. */
  ghost predicate AlikeAt(a: Input, b: Input, bar: Bar) {
    && a.account == b.account
    && FundingFor(a.funding, bar.seqNo) == FundingFor(b.funding, bar.seqNo)
    && forall completed: set<Id> ::
         LiveIntents(a.intents, completed, bar.seqNo) == LiveIntents(b.intents, completed, bar.seqNo)
  }

  lemma {:induction false} SameBar(a: Input, b: Input, bar: Bar, st: State)
    requires AlikeAt(a, b, bar)
    ensures ProcessBar(a, bar, st) == ProcessBar(b, bar, st)
  {
    assert Schedule(a.intents, st.log.completed, bar.seqNo) == Schedule(b.intents, st.log.completed, bar.seqNo);
  }

  lemma {:induction false} SameReplay(a: Input, b: Input, k: nat)
    requires k <= |a.bars| && k <= |b.bars| && a.bars[..k] == b.bars[..k] && a.account == b.account
    requires forall j :: 0 <= j < k ==> AlikeAt(a, b, a.bars[j])
    ensures Replay(a, k) == Replay(b, k)
  {
    if k > 0 {
      assert a.bars[..k - 1] == a.bars[..k][..k - 1] && b.bars[..k - 1] == b.bars[..k][..k - 1];
      assert a.bars[k - 1] == a.bars[..k][k - 1] && b.bars[k - 1] == b.bars[..k][k - 1];
      SameReplay(a, b, k - 1);
      if Replay(a, k - 1).Ok? { SameBar(a, b, a.bars[k - 1], Replay(a, k - 1).value); }
    }
  }

  /** What is live by session of bar n is what was emitted by then. */
  lemma {:induction false} EarlyIsLive(strategy: Strategy, bars: seq<Bar>, tape: seq<Intent>, n: nat,
      completed: set<Id>, session: nat)
    requires IncreasingBars(bars) && n < |bars| && session <= bars[n].seqNo && HostedTape(strategy, bars) == Some(tape)
    ensures Released(strategy, bars, n).Some?
    ensures LiveIntents(tape, completed, session)
            == LiveIntents(Released(strategy, bars, n).value.emitted, completed, session)
  {
    LaterRelease(strategy, bars, n, |bars| - 1);
    LaterNotLive(Released(strategy, bars, n).value.emitted, tape, completed, session);
  }

  lemma {:induction false} HostedIsAlike(strategy: Strategy, a: Input, b: Input, k: nat, j: nat)
    requires IncreasingBars(a.bars) && IncreasingBars(b.bars)
    requires j < k <= |a.bars| && k <= |b.bars| && a.bars[..k] == b.bars[..k] && a.account == b.account
    requires FundingFor(a.funding, a.bars[j].seqNo) == FundingFor(b.funding, a.bars[j].seqNo)
    requires HostedTape(strategy, a.bars) == Some(a.intents) && HostedTape(strategy, b.bars) == Some(b.intents)
    ensures AlikeAt(a, b, a.bars[j])
  {
    var n, session := k - 1, a.bars[j].seqNo;
    assert a.bars[n] == a.bars[..k][n] && b.bars[n] == b.bars[..k][n];
    SameRelease(strategy, a.bars, b.bars, n);
    if j < n { BarsIncrease(a.bars, j, n); }
    forall completed: set<Id>
      ensures LiveIntents(a.intents, completed, session) == LiveIntents(b.intents, completed, session)
    {
      EarlyIsLive(strategy, a.bars, a.intents, n, completed, session);
      EarlyIsLive(strategy, b.bars, b.intents, n, completed, session);
    }
  }

  /** Whatever the strategy, two markets that agree on their first k bars, and on the
      funding of those sessions, give the same engine state after k bars: nothing that
      comes later has any influence, neither bars nor the answers to them. */
  lemma {:induction false} NoLookAhead(strategy: Strategy, a: Input, b: Input, k: nat)
    requires IncreasingBars(a.bars) && IncreasingBars(b.bars)
    requires k <= |a.bars| && k <= |b.bars| && a.bars[..k] == b.bars[..k] && a.account == b.account
    requires forall j :: 0 <= j < k ==> FundingFor(a.funding, a.bars[j].seqNo) == FundingFor(b.funding, a.bars[j].seqNo)
    requires HostedTape(strategy, a.bars) == Some(a.intents) && HostedTape(strategy, b.bars) == Some(b.intents)
    ensures Replay(a, k) == Replay(b, k)
  {
    forall j | 0 <= j < k ensures AlikeAt(a, b, a.bars[j]) {
      HostedIsAlike(strategy, a, b, k, j);
    }
    SameReplay(a, b, k);
  }
}
