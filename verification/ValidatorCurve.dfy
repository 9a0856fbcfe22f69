/** Records of later sessions change nothing about what the curve validator reads for
    an earlier bar, so the points of the engine are the points it expects. */
module ValidatorCurve {
  import opened Checked
  import opened Events
  import opened Folds
  import opened Engine
  import opened EngineInduction
  import opened Validator
  import opened ValidatorMirror

  // ---- what a bar adds to the records ----

  /** ys is xs with records of one session behind it. */
  ghost predicate Grows<T>(xs: seq<T>, ys: seq<T>, sessionOf: T -> nat, session: nat) {
    && |xs| <= |ys| && ys[..|xs|] == xs
    && forall i :: |xs| <= i < |ys| ==> sessionOf(ys[i]) == session
  }

  lemma {:induction false} GrowsByOne<T>(xs: seq<T>, ys: seq<T>, y: T, sessionOf: T -> nat, session: nat)
    requires Grows(xs, ys, sessionOf, session) && sessionOf(y) == session
    ensures Grows(xs, ys + [y], sessionOf, session)
  {
  }

  ghost predicate RecordsGrow(b: Book, next: Book, session: nat) {
    && Grows(b.trades, next.trades, TradeSession, session)
    && Grows(b.positions, next.positions, PositionSession, session)
    && Grows(b.cashLedger, next.cashLedger, CashSession, session)
    && Grows(b.fundingLedger, next.fundingLedger, FundingSession, session)
  }

  lemma {:induction false} FillGrows(start: Book, account: Account, session: nat, b: Book, t: Intent, fill: Fill)
    requires RecordsGrow(start, b, session) && BookFill(account, session, b, t, fill).Ok?
    ensures RecordsGrow(start, BookFill(account, session, b, t, fill).value, session)
  {
    FillParts(account, session, b, t, fill);
    var next := BookFill(account, session, b, t, fill).value;
    GrowsByOne(start.trades, b.trades, next.trades[|b.trades|], TradeSession, session);
    GrowsByOne(start.positions, b.positions, next.positions[|b.positions|], PositionSession, session);
    GrowsByOne(start.cashLedger, b.cashLedger, next.cashLedger[|b.cashLedger|], CashSession, session);
  }

  lemma {:induction false} FundingGrows(start: Book, account: Account, session: nat, b: Book, event: FundingEvent)
    requires RecordsGrow(start, b, session) && event.key.session == session && BookFunding(account, b, event).Ok?
    ensures RecordsGrow(start, BookFunding(account, b, event).value, session)
  {
    var next := BookFunding(account, b, event).value;
    GrowsByOne(start.cashLedger, b.cashLedger, next.cashLedger[|b.cashLedger|], CashSession, session);
    GrowsByOne(start.fundingLedger, b.fundingLedger, next.fundingLedger[|b.fundingLedger|], FundingSession, session);
  }

  lemma {:induction false} FundingForAre(events: seq<FundingEvent>, session: nat)
    ensures forall event :: event in FundingFor(events, session) ==> event in events && event.key.session == session
  {
    if events != [] { FundingForAre(events[1..], session); }
  }

  /** A bar adds records of its own session only, and one point to each curve. */
  lemma {:induction false} BarGrows(input: Input, bar: Bar, st: State)
    requires UniqueIds(input.intents) && ProcessBar(input, bar, st).Ok?
    ensures RecordsGrow(st.book, ProcessBar(input, bar, st).value.book, bar.seqNo)
    ensures BeforeMark(input, bar, st).Ok?
    ensures BeforeMark(input, bar, st).value.curve == st.curve
  {
    var inv := (s: State) => s.curve == st.curve && RecordsGrow(st.book, s.book, bar.seqNo);
    forall s: State, t: Intent | inv(s) && t in input.intents && Live(t, bar.seqNo) && t.id !in s.log.completed
                                 && ProcessIntent(input.account, bar, s, t).Ok?
      ensures inv(ProcessIntent(input.account, bar, s, t).value)
    {
      IntentParts(input.account, bar, s, t);
      if !OcoDone(s.log, t) && FillDecision(input.account, bar, t).value.Some? {
        FillGrows(st.book, input.account, bar.seqNo, s.book, t, FillDecision(input.account, bar, t).value.value);
      }
    }
    FundingForAre(input.funding, bar.seqNo);
    forall s: State, event: FundingEvent | inv(s) && event in FundingFor(input.funding, bar.seqNo)
                                           && BookFunding(input.account, s.book, event).Ok?
      ensures inv(s.(book := BookFunding(input.account, s.book, event).value))
    {
      FundingGrows(st.book, input.account, bar.seqNo, s.book, event);
    }
    BarParts(input, bar, st);
    BarInduction(input, bar, st, inv);
  }

  // ---- sessions ----

  ghost predicate SessionsGood(b: Book, last: Option<nat>) {
    && GoodSessions(b.trades, TradeSession, last)
    && GoodSessions(b.positions, PositionSession, last)
    && GoodSessions(b.cashLedger, CashSession, last)
    && GoodSessions(b.fundingLedger, FundingSession, last)
  }

  lemma {:induction false} GrowsGood<T>(xs: seq<T>, ys: seq<T>, sessionOf: T -> nat, last: Option<nat>, session: nat)
    requires GoodSessions(xs, sessionOf, last) && Grows(xs, ys, sessionOf, session)
    requires last.Some? ==> last.value <= session
    ensures GoodSessions(ys, sessionOf, Some(session))
  {
    forall i | 0 <= i < |ys|
      ensures sessionOf(ys[i]) <= session
    {
      if i < |xs| { assert ys[i] == xs[i]; }
    }
    forall i | 0 <= i < |ys| - 1
      ensures sessionOf(ys[i]) <= sessionOf(ys[i + 1])
    {
      if i + 1 < |xs| { assert ys[i] == xs[i] && ys[i + 1] == xs[i + 1]; }
    }
  }

  lemma {:induction false} RecordsGrowGood(b: Book, next: Book, last: Option<nat>, session: nat)
    requires SessionsGood(b, last) && RecordsGrow(b, next, session)
    requires last.Some? ==> last.value <= session
    ensures SessionsGood(next, Some(session))
  {
    GrowsGood(b.trades, next.trades, TradeSession, last, session);
    GrowsGood(b.positions, next.positions, PositionSession, last, session);
    GrowsGood(b.cashLedger, next.cashLedger, CashSession, last, session);
    GrowsGood(b.fundingLedger, next.fundingLedger, FundingSession, last, session);
  }

  // ---- reading the records as of an earlier session ----

  /** ys is xs with records behind it that are all later than a session. */
  ghost predicate Outlasts<T>(xs: seq<T>, ys: seq<T>, sessionOf: T -> nat, session: nat) {
    && |xs| <= |ys| && ys[..|xs|] == xs
    && forall i :: |xs| <= i < |ys| ==> sessionOf(ys[i]) > session
  }

  ghost predicate RecordsOutlast(b: Book, next: Book, session: nat) {
    && Outlasts(b.trades, next.trades, TradeSession, session)
    && Outlasts(b.positions, next.positions, PositionSession, session)
    && Outlasts(b.cashLedger, next.cashLedger, CashSession, session)
  }

  lemma {:induction false} QuantityAtOutlasts(xs: seq<PositionRecord>, ys: seq<PositionRecord>, session: nat)
    requires Outlasts(xs, ys, PositionSession, session)
    ensures QuantityAt(ys, session) == QuantityAt(xs, session)
  {
    if |xs| < |ys| {
      assert ys[..|ys| - 1][..|xs|] == xs;
      QuantityAtOutlasts(xs, ys[..|ys| - 1], session);
      assert PositionSession(ys[|ys| - 1]) > session;
    } else {
      assert xs == ys;
    }
  }

  lemma {:induction false} CashAtOutlasts(xs: seq<CashRecord>, ys: seq<CashRecord>, start: int, session: nat)
    requires Outlasts(xs, ys, CashSession, session)
    ensures CashAt(ys, start, session) == CashAt(xs, start, session)
  {
    if |xs| < |ys| {
      assert ys[..|ys| - 1][..|xs|] == xs;
      CashAtOutlasts(xs, ys[..|ys| - 1], start, session);
      assert CashSession(ys[|ys| - 1]) > session;
    } else {
      assert xs == ys;
    }
  }

  lemma {:induction false} EntryAtOutlasts(xs: seq<TradeRecord>, ys: seq<TradeRecord>, session: nat)
    requires Outlasts(xs, ys, TradeSession, session)
    ensures EntryAt(ys, session) == EntryAt(xs, session)
  {
    if |xs| < |ys| {
      assert ys[..|ys| - 1][..|xs|] == xs;
      EntryAtOutlasts(xs, ys[..|ys| - 1], session);
      assert TradeSession(ys[|ys| - 1]) > session;
    } else {
      assert xs == ys;
    }
  }

  /** What is expected of a bar does not depend on the records of later sessions. */
  lemma {:induction false} PointsOutlast(account: Account, b: Book, next: Book, bar: Bar, peak: int)
    requires RecordsOutlast(b, next, bar.seqNo)
    ensures ExpectedPoints(account, next, bar, peak) == ExpectedPoints(account, b, bar, peak)
  {
    QuantityAtOutlasts(b.positions, next.positions, bar.seqNo);
    CashAtOutlasts(b.cashLedger, next.cashLedger, account.startingBalance, bar.seqNo);
    EntryAtOutlasts(b.trades, next.trades, bar.seqNo);
  }

  lemma {:induction false} PointsGrow(account: Account, b: Book, next: Book, session: nat, bar: Bar, peak: int)
    requires RecordsGrow(b, next, session) && bar.seqNo < session
    ensures ExpectedPoints(account, next, bar, peak) == ExpectedPoints(account, b, bar, peak)
  {
    PointsOutlast(account, b, next, bar, peak);
  }

  // ---- the points of the engine ----

  lemma {:induction false} ReadsLastValues(account: Account, b: Book, session: nat)
    requires SessionsGood(b, Some(session)) && LastValues(account, b)
    ensures QuantityAt(b.positions, session) == b.quantity
    ensures CashAt(b.cashLedger, account.startingBalance, session) == MoneyOf(account, b)
    ensures account.model == LinearPerp ==> EntryAt(b.trades, session) == b.entry
  {
    assert b.positions != [] ==> PositionSession(b.positions[|b.positions| - 1]) <= session;
    assert b.cashLedger != [] ==> CashSession(b.cashLedger[|b.cashLedger| - 1]) <= session;
    assert b.trades != [] ==> TradeSession(b.trades[|b.trades| - 1]) <= session;
  }

  /** Marking the curve adds exactly the points the validator expects. */
  lemma {:induction false} MarkIsExpected(account: Account, bar: Bar, b: Book, c: Curve)
    requires SessionsGood(b, Some(bar.seqNo)) && LastValues(account, b)
    requires MarkCurve(account, bar, b, c).Ok?
    ensures var next := MarkCurve(account, bar, b, c).value;
            && |next.equity| == |c.equity| + 1 && |next.drawdown| == |c.drawdown| + 1
            && next.equity[..|c.equity|] == c.equity && next.drawdown[..|c.drawdown|] == c.drawdown
            && ExpectedPoints(account, b, bar, c.peak) == Ok((next.equity[|c.equity|], next.drawdown[|c.drawdown|]))
            && next.peak == next.drawdown[|c.drawdown|].peak
            && next.maxDrawdown == Min(c.maxDrawdown, next.drawdown[|c.drawdown|].drawdown)
            && next.maxDrawdownRate == Min(c.maxDrawdownRate, next.drawdown[|c.drawdown|].rate)
            && next.equity[|c.equity|].session == next.drawdown[|c.drawdown|].session == bar.seqNo
  {
    ReadsLastValues(account, b, bar.seqNo);
  }

  /** The engine marks a bar exactly when its points can be computed from the records. */
  lemma {:induction false} MarksExactly(account: Account, bar: Bar, b: Book, c: Curve)
    requires SessionsGood(b, Some(bar.seqNo)) && LastValues(account, b)
    ensures MarkCurve(account, bar, b, c).Ok? <==> ExpectedPoints(account, b, bar, c.peak).Ok?
  {
    ReadsLastValues(account, b, bar.seqNo);
  }

  lemma {:induction false} MarkFalls(account: Account, bar: Bar, b: Book, c: Curve)
    requires account.rateScale > 0 && c.peak > 0
    requires MarkCurve(account, bar, b, c).Ok?
    ensures var next := MarkCurve(account, bar, b, c).value;
            && next.peak > 0
            && next.drawdown[|c.drawdown|].drawdown <= 0 && next.drawdown[|c.drawdown|].rate <= 0
  {
    var next := MarkCurve(account, bar, b, c).value;
    var drawdown := next.drawdown[|c.drawdown|].drawdown;
    assert drawdown <= 0;
    MulNonNegative(-drawdown, account.rateScale);
    assert drawdown * account.rateScale == -((-drawdown) * account.rateScale);
    TruncDivOfNegative(drawdown * account.rateScale, next.peak);
  }

  ghost predicate PointsScanned(account: Account, bars: seq<Bar>, b: Book, c: Curve) {
    && |c.equity| == |bars| == |c.drawdown|
    && Fold(PointCheck(account, b), account.startingBalance, ZipPoints(bars, c), 0, |bars|) == Ok(c.peak)
  }

  ghost predicate Extremes(account: Account, c: Curve) {
    && c.peak > 0 && c.maxDrawdown <= 0 && c.maxDrawdownRate <= 0
    && (if c.drawdown == [] then c.peak == account.startingBalance && c.maxDrawdown == 0 && c.maxDrawdownRate == 0
        else c.peak == c.drawdown[|c.drawdown| - 1].peak
             && c.maxDrawdown == LowestDrawdown(c.drawdown) && c.maxDrawdownRate == LowestRate(c.drawdown))
  }

  lemma {:induction false} MarkKeepsExtremes(account: Account, bar: Bar, b: Book, c: Curve)
    requires Extremes(account, c) && account.rateScale > 0
    requires SessionsGood(b, Some(bar.seqNo)) && LastValues(account, b) && MarkCurve(account, bar, b, c).Ok?
    ensures Extremes(account, MarkCurve(account, bar, b, c).value)
  {
    MarkIsExpected(account, bar, b, c);
    MarkFalls(account, bar, b, c);
    var next := MarkCurve(account, bar, b, c).value;
    assert next.drawdown[..|next.drawdown| - 1] == c.drawdown;
  }

  lemma {:induction false} PointsScannedLater(account: Account, bars: seq<Bar>, b: Book, next: Book, c: Curve,
      session: nat)
    requires PointsScanned(account, bars, b, c) && RecordsGrow(b, next, session)
    requires forall i :: 0 <= i < |bars| ==> bars[i].seqNo < session
    ensures PointsScanned(account, bars, next, c)
  {
    var z := ZipPoints(bars, c);
    forall peak: int, i | 0 <= i < |bars|
      ensures PointCheck(account, b)(peak, z[i]) == PointCheck(account, next)(peak, z[i])
    {
      PointsGrow(account, b, next, session, bars[i], peak);
    }
    FoldSameStep(PointCheck(account, b), PointCheck(account, next), account.startingBalance, z, |bars|);
  }

  lemma {:induction false} MarkKeepsPoints(account: Account, bars: seq<Bar>, bar: Bar, b: Book, c: Curve)
    requires PointsScanned(account, bars, b, c)
    requires SessionsGood(b, Some(bar.seqNo)) && LastValues(account, b) && MarkCurve(account, bar, b, c).Ok?
    ensures PointsScanned(account, bars + [bar], b, MarkCurve(account, bar, b, c).value)
  {
    MarkIsExpected(account, bar, b, c);
    var next := MarkCurve(account, bar, b, c).value;
    var z, x := ZipPoints(bars, c), (bar, (next.equity[|bars|], next.drawdown[|bars|]));
    assert ZipPoints(bars + [bar], next) == z + [x];
    FoldAppend(PointCheck(account, b), account.startingBalance, z, x);
  }

  /** What the curve and session validators read of a state after these bars. */
  ghost predicate CurveScanned(account: Account, bars: seq<Bar>, st: State) {
    && PointsScanned(account, bars, st.book, st.curve) && Extremes(account, st.curve)
    && SessionsGood(st.book, LastSession(bars))
    && GoodSessions(st.curve.equity, EquitySession, LastSession(bars))
    && GoodSessions(st.curve.drawdown, DrawdownSession, LastSession(bars))
    && st.book.cash == st.book.wallet
  }

  lemma {:induction false} CloseBookReads(account: Account, bars: seq<Bar>, b: Book, c: Curve, session: nat)
    ensures RecordsGrow(b, CloseBook(account, b), session)
    ensures SessionsGood(CloseBook(account, b), Some(session)) <==> SessionsGood(b, Some(session))
    ensures MoneyOf(account, CloseBook(account, b)) == MoneyOf(account, b)
    ensures PointsScanned(account, bars, b, c) ==> PointsScanned(account, bars, CloseBook(account, b), c)
  {
    if PointsScanned(account, bars, b, c) {
      var next, z := CloseBook(account, b), ZipPoints(bars, c);
      forall peak: int, i | 0 <= i < |bars|
        ensures PointCheck(account, b)(peak, z[i]) == PointCheck(account, next)(peak, z[i])
      {
      }
      FoldSameStep(PointCheck(account, b), PointCheck(account, next), account.startingBalance, z, |bars|);
    }
  }

  /** The records of a bar leave the earlier points as they are. */
  lemma {:induction false} RecordsKeepPoints(account: Account, bars: seq<Bar>, bar: Bar, start: Book, b: Book, c: Curve)
    requires PointsScanned(account, bars, start, c) && SessionsGood(start, LastSession(bars))
    requires RecordsGrow(start, b, bar.seqNo) && forall i :: 0 <= i < |bars| ==> bars[i].seqNo < bar.seqNo
    ensures SessionsGood(b, Some(bar.seqNo)) && PointsScanned(account, bars, b, c)
  {
    RecordsGrowGood(start, b, LastSession(bars), bar.seqNo);
    PointsScannedLater(account, bars, start, b, c, bar.seqNo);
  }

  lemma {:induction false} MarkKeepsSessions(account: Account, bars: seq<Bar>, bar: Bar, b: Book, c: Curve)
    requires SessionsGood(b, Some(bar.seqNo)) && LastValues(account, b) && MarkCurve(account, bar, b, c).Ok?
    requires forall i :: 0 <= i < |bars| ==> bars[i].seqNo < bar.seqNo
    requires GoodSessions(c.equity, EquitySession, LastSession(bars))
    requires GoodSessions(c.drawdown, DrawdownSession, LastSession(bars))
    ensures var next := MarkCurve(account, bar, b, c).value;
            && GoodSessions(next.equity, EquitySession, Some(bar.seqNo))
            && GoodSessions(next.drawdown, DrawdownSession, Some(bar.seqNo))
  {
    var next := MarkCurve(account, bar, b, c).value;
    MarkIsExpected(account, bar, b, c);
    GrowsGood(c.equity, next.equity, EquitySession, LastSession(bars), bar.seqNo);
    GrowsGood(c.drawdown, next.drawdown, DrawdownSession, LastSession(bars), bar.seqNo);
  }

  /** What a curve needs of its book, without the wallet. */
  ghost predicate CurveKept(account: Account, bars: seq<Bar>, b: Book, c: Curve) {
    && PointsScanned(account, bars, b, c) && Extremes(account, c) && SessionsGood(b, LastSession(bars))
    && GoodSessions(c.equity, EquitySession, LastSession(bars))
    && GoodSessions(c.drawdown, DrawdownSession, LastSession(bars))
  }

  lemma {:induction false} MarkKeepsCurve(account: Account, bars: seq<Bar>, bar: Bar, start: Book, b: Book, c: Curve)
    requires account.rateScale > 0 && CurveKept(account, bars, start, c) && RecordsGrow(start, b, bar.seqNo)
    requires forall i :: 0 <= i < |bars| ==> bars[i].seqNo < bar.seqNo
    requires LastValues(account, b) && MarkCurve(account, bar, b, c).Ok?
    ensures CurveKept(account, bars + [bar], CloseBook(account, b), MarkCurve(account, bar, b, c).value)
  {
    RecordsKeepPoints(account, bars, bar, start, b, c);
    MarkKeepsPoints(account, bars, bar, b, c);
    MarkKeepsExtremes(account, bar, b, c);
    MarkKeepsSessions(account, bars, bar, b, c);
    CloseBookReads(account, bars + [bar], b, MarkCurve(account, bar, b, c).value, bar.seqNo);
  }

  lemma {:induction false} BarKeepsCurve(input: Input, bars: seq<Bar>, bar: Bar, st: State)
    requires UniqueIds(input.intents) && input.account.rateScale > 0
    requires CurveScanned(input.account, bars, st)
    requires forall i :: 0 <= i < |bars| ==> bars[i].seqNo < bar.seqNo
    requires ProcessBar(input, bar, st).Ok? && LastValues(input.account, ProcessBar(input, bar, st).value.book)
    ensures CurveScanned(input.account, bars + [bar], ProcessBar(input, bar, st).value)
  {
    var account := input.account;
    BarGrows(input, bar, st);
    BarParts(input, bar, st);
    var b := BeforeMark(input, bar, st).value.book;
    BeforeMarkGrows(account, st.book, b, bar.seqNo);
    assert LastValues(account, b);
    MarkKeepsCurve(account, bars, bar, st.book, b, st.curve);
  }

  lemma {:induction false} BeforeMarkGrows(account: Account, start: Book, b: Book, session: nat)
    requires RecordsGrow(start, CloseBook(account, b), session)
    ensures RecordsGrow(start, b, session)
  {
  }

  lemma {:induction false} EarlierBars(bars: seq<Bar>, k: nat)
    requires IncreasingBars(bars) && k < |bars|
    ensures bars[..k + 1] == bars[..k] + [bars[k]]
    ensures forall i :: 0 <= i < |bars[..k]| ==> bars[..k][i].seqNo < bars[k].seqNo
  {
    var earlier := bars[..k];
    forall i | 0 <= i < |earlier|
      ensures earlier[i].seqNo < bars[k].seqNo
    {
      BarsIncrease(bars, i, k);
    }
  }

  lemma {:induction false} LastReplay(input: Input, k: nat)
    requires 0 < k <= |input.bars| && Replay(input, k).Ok?
    ensures Replay(input, k - 1).Ok?
    ensures ProcessBar(input, input.bars[k - 1], Replay(input, k - 1).value) == Replay(input, k)
  {
  }

  lemma {:induction false} RunIsScanned(input: Input, k: nat)
    requires ValidInput(input) && k <= |input.bars| && Replay(input, k).Ok?
    ensures CurveScanned(input.account, input.bars[..k], Replay(input, k).value)
  {
    if k > 0 {
      LastReplay(input, k);
      RunIsScanned(input, k - 1);
      RunIsRecomputed(input, k);
      EarlierBars(input.bars, k - 1);
      BarKeepsCurve(input, input.bars[..k - 1], input.bars[k - 1], Replay(input, k - 1).value);
    }
  }
}
