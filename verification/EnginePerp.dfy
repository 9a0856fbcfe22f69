/** The perpetual account: wallet and entry price against plain cash bookkeeping, no
    debt for a long-only tape under the 1x cap, and no unwrap of an absent price. */
module EnginePerp {
  import opened Checked
  import opened Events
  import opened Folds
  import opened Sequences
  import opened Engine
  import opened EngineInduction
  import Lots

  // ---- an entry price exactly when there is a position ----

  ghost predicate EntryMatches(b: Book) {
    b.entry.Some? <==> b.quantity != 0
  }

  ghost predicate OnTape(t: Intent, account: Account) {
    ValidIntent(t, account)
  }

  lemma {:induction false} PerpFillKeepsEntry(account: Account, session: nat, b: Book, t: Intent, fill: Fill)
    requires account.model == LinearPerp && EntryMatches(b) && t.quantity > 0
    ensures BookFill(account, session, b, t, fill).Ok? ==> EntryMatches(BookFill(account, session, b, t, fill).value)
    ensures BookFill(account, session, b, t, fill) != Err(Panic)
  {
  }

  lemma {:induction false} FillDecisionNeverPanics(account: Account, bar: Bar, t: Intent)
    requires MatchingPrice(t)
    ensures FillDecision(account, bar, t) != Err(Panic)
  {
  }

  // ---- wallet and entry price are cash bookkeeping in disguise ----

  /** Cash a trade would have moved if the whole notional were paid. */
  function SignedNotional(trade: TradeRecord): int {
    if trade.side == Buy then -trade.notional else trade.notional
  }

  function EntryValue(b: Book): int {
    if b.entry.Some? then b.quantity * b.entry.value else 0
  }

  /** Wallet less the entry value of the position is starting balance plus signed
      notionals less fees less funding. */
  ghost predicate CashBooked(b: Book, start: int) {
    b.wallet - EntryValue(b) == start + Sum(b.trades, SignedNotional) - b.totalFees - b.totalFunding
  }

  /** The parts of a perpetual fill that money depends on. */
  lemma {:induction false} PerpFillParts(account: Account, session: nat, b: Book, t: Intent, fill: Fill)
    requires account.model == LinearPerp
    requires BookFill(account, session, b, t, fill).Ok?
    ensures CostsOf(account, t, fill).Ok?
    ensures PerpMove(b, t, fill, CostsOf(account, t, fill).value).Ok?
    ensures var c := CostsOf(account, t, fill).value;
            var m := PerpMove(b, t, fill, c).value;
            var next := BookFill(account, session, b, t, fill).value;
            && c.notional == fill.price * t.quantity
            && next.wallet == m.cash && next.quantity == m.quantity && next.entry == m.entry
            && next.trades == b.trades + [TradeOf(t, session, fill, c)]
            && next.totalFees == b.totalFees + c.fee && next.totalFunding == b.totalFunding
  {
    FillParts(account, session, b, t, fill);
  }

  lemma {:induction false} PerpFillBooked(account: Account, session: nat, b: Book, t: Intent, fill: Fill, start: int)
    requires account.model == LinearPerp && EntryMatches(b) && CashBooked(b, start)
    requires BookFill(account, session, b, t, fill).Ok?
    ensures CashBooked(BookFill(account, session, b, t, fill).value, start)
  {
    PerpFillParts(account, session, b, t, fill);
    var c := CostsOf(account, t, fill).value;
    var next := BookFill(account, session, b, t, fill).value;
    PerpMoveBooked(b, t, fill, c);
    SumAppend(b.trades, TradeOf(t, session, fill, c), SignedNotional);
    assert next.wallet - EntryValue(next)
           == b.wallet - EntryValue(b) + SignedNotional(TradeOf(t, session, fill, c)) - c.fee;
  }

  lemma {:induction false} PerpMoveBooked(b: Book, t: Intent, fill: Fill, c: Costs)
    requires EntryMatches(b) && c.notional == fill.price * t.quantity
    requires PerpMove(b, t, fill, c).Ok?
    ensures var m := PerpMove(b, t, fill, c).value;
            m.cash - (if m.entry.Some? then m.quantity * m.entry.value else 0)
            == b.wallet - EntryValue(b) + (if t.side == Buy then -c.notional else c.notional) - c.fee
  {
    if t.effect == Open {
      assert (-t.quantity) * fill.price == -(fill.price * t.quantity);
    } else if b.entry.Some? {
      var entry := b.entry.value;
      assert (fill.price - entry) * t.quantity == fill.price * t.quantity - entry * t.quantity;
      assert (entry - fill.price) * t.quantity == entry * t.quantity - fill.price * t.quantity;
      assert (-t.quantity) * entry == -(entry * t.quantity);
    }
  }

  lemma {:induction false} FundingBooked(account: Account, b: Book, event: FundingEvent, start: int)
    requires EntryMatches(b) && CashBooked(b, start) && BookFunding(account, b, event).Ok?
    ensures EntryMatches(BookFunding(account, b, event).value)
            && CashBooked(BookFunding(account, b, event).value, start)
  {
  }

  ghost predicate PerpSound(b: Book, start: int) {
    EntryMatches(b) && CashBooked(b, start)
  }

  lemma {:induction false} BarPerpSound(input: Input, bar: Bar, st: State)
    requires input.account.model == LinearPerp && ValidTape(input.intents, input.account)
    requires PerpSound(st.book, input.account.startingBalance)
    requires ProcessBar(input, bar, st).Ok?
    ensures PerpSound(ProcessBar(input, bar, st).value.book, input.account.startingBalance)
    ensures ProcessBar(input, bar, st).value.book == BeforeMark(input, bar, st).value.book
  {
    var start := input.account.startingBalance;
    var inv := (s: State) => PerpSound(s.book, start);
    forall s: State, t: Intent | inv(s) && t in input.intents && Live(t, bar.seqNo) && t.id !in s.log.completed
                                 && ProcessIntent(input.account, bar, s, t).Ok?
      ensures inv(ProcessIntent(input.account, bar, s, t).value)
    {
      IntentPerpSound(input, bar, s, t);
    }
    forall s: State, event: FundingEvent | inv(s) && BookFunding(input.account, s.book, event).Ok?
      ensures inv(s.(book := BookFunding(input.account, s.book, event).value))
    {
      FundingBooked(input.account, s.book, event, start);
    }
    BarParts(input, bar, st);
    BarInduction(input, bar, st, inv);
  }

  lemma {:induction false} TapeIsValid(input: Input, t: Intent)
    requires ValidTape(input.intents, input.account) && t in input.intents
    ensures ValidIntent(t, input.account)
  {
  }

  lemma {:induction false} IntentPerpSound(input: Input, bar: Bar, st: State, t: Intent)
    requires input.account.model == LinearPerp && ValidTape(input.intents, input.account)
    requires t in input.intents && PerpSound(st.book, input.account.startingBalance)
    requires ProcessIntent(input.account, bar, st, t).Ok?
    ensures PerpSound(ProcessIntent(input.account, bar, st, t).value.book, input.account.startingBalance)
  {
    TapeIsValid(input, t);
    IntentParts(input.account, bar, st, t);
    if !OcoDone(st.log, t) && FillDecision(input.account, bar, t).value.Some? {
      var fill := FillDecision(input.account, bar, t).value.value;
      PerpFillKeepsEntry(input.account, bar.seqNo, st.book, t, fill);
      PerpFillBooked(input.account, bar.seqNo, st.book, t, fill, input.account.startingBalance);
    }
  }

  lemma {:induction false} RunPerpSound(input: Input, k: nat)
    requires input.account.model == LinearPerp && ValidTape(input.intents, input.account)
    requires k <= |input.bars| && Replay(input, k).Ok?
    ensures PerpSound(Replay(input, k).value.book, input.account.startingBalance)
  {
    var runs := (st: State, i: nat) => PerpSound(st.book, input.account.startingBalance);
    forall st: State, i: nat | i < |input.bars| && runs(st, i) && ProcessBar(input, input.bars[i], st).Ok?
      ensures runs(ProcessBar(input, input.bars[i], st).value, i + 1)
    {
      BarPerpSound(input, input.bars[i], st);
    }
    RunInduction(input, k, runs);
  }

  /** The mark of a bar with a sound book records the equity of the cash bookkeeping. */
  lemma {:induction false} MarkEqualsCashBookkeeping(account: Account, bar: Bar, b: Book, c: Curve)
    requires account.model == LinearPerp && PerpSound(b, account.startingBalance) && MarkCurve(account, bar, b, c).Ok?
    ensures var next := MarkCurve(account, bar, b, c).value;
            && |next.equity| == |c.equity| + 1
            && var p := next.equity[|c.equity|];
            && p.session == bar.seqNo && p.quantity == b.quantity
            && p.equity == account.startingBalance + Sum(b.trades, SignedNotional) + b.quantity * bar.close
                           - b.totalFees - b.totalFunding
  {
    UnrealizedIs(b, bar.close);
  }

  /** At every bar the marked equity of the wallet is the marked equity of plain cash
      bookkeeping: starting balance, plus what was sold, less what was bought, plus the
      position at the mark, less fees, less funding. */
  lemma {:induction false} WalletEqualsCashBookkeeping(input: Input, k: nat)
    requires input.account.model == LinearPerp && ValidTape(input.intents, input.account)
    requires 0 < k <= |input.bars| && Replay(input, k).Ok?
    ensures var st := Replay(input, k).value;
            && st.curve.equity != []
            && var p := st.curve.equity[|st.curve.equity| - 1];
            && p.session == input.bars[k - 1].seqNo && p.quantity == st.book.quantity
            && p.equity == input.account.startingBalance + Sum(st.book.trades, SignedNotional)
                           + st.book.quantity * input.bars[k - 1].close
                           - st.book.totalFees - st.book.totalFunding
  {
    var before := Replay(input, k - 1).value;
    RunPerpSound(input, k - 1);
    BarPerpSound(input, input.bars[k - 1], before);
    BarParts(input, input.bars[k - 1], before);
    var settled := BeforeMark(input, input.bars[k - 1], before).value;
    MarkEqualsCashBookkeeping(input.account, input.bars[k - 1], settled.book, settled.curve);
  }

  lemma {:induction false} UnrealizedIs(b: Book, mark: int)
    requires EntryMatches(b) && UnrealizedPnl(b.quantity, b.entry, mark).Ok?
    ensures UnrealizedPnl(b.quantity, b.entry, mark).value == b.quantity * mark - EntryValue(b)
  {
    if b.quantity != 0 {
      var entry := b.entry.value;
      assert (mark - entry) * b.quantity == mark * b.quantity - entry * b.quantity;
      assert (entry - mark) * (-b.quantity) == mark * b.quantity - entry * b.quantity;
    }
  }

  // ---- prices ----

  /** The branch that can fill at or below zero: an intrabar sell stop within the slippage. */
  predicate StopWithinSlippage(account: Account, bar: Bar, t: Intent) {
    t.orderType == Stop && t.side == Sell && t.stop.Some? && bar.open > t.stop.value && t.stop.value <= account.slippage
  }

  /** A fill has a positive price unless it takes exactly that branch. */
  lemma {:induction false} FillPricePositiveExactly(account: Account, bar: Bar, t: Intent)
    requires account.slippage >= 0 && ValidBar(bar, account.slippage) && MatchingPrice(t)
    requires FillDecision(account, bar, t).Ok? && FillDecision(account, bar, t).value.Some?
    ensures FillDecision(account, bar, t).value.value.price > 0 <==> !StopWithinSlippage(account, bar, t)
  {
  }

  // ---- no debt under the 1x cap ----

  /** Money always covers the entry value of the position. */
  ghost predicate Covered(b: Book) {
    b.quantity >= 0 && b.wallet >= 0 && EntryMatches(b) && b.wallet >= EntryValue(b)
  }

  ghost predicate CoveredPoints(c: Curve) {
    forall i :: 0 <= i < |c.equity| ==> c.equity[i].cash >= 0 && c.equity[i].equity >= 0
  }

  ghost predicate LongOnly(intents: seq<Intent>) {
    forall i :: 0 <= i < |intents| ==> !(intents[i].side == Sell && intents[i].effect == Open)
  }

  /** No sell stop at or below the slippage, so every fill price is positive. */
  ghost predicate StopsAboveSlippage(intents: seq<Intent>, slippage: int) {
    forall i ::
      0 <= i < |intents| && intents[i].side == Sell && intents[i].stop.Some? ==> intents[i].stop.value > slippage
  }

  lemma {:induction false} PerpFeeBounded(account: Account, t: Intent, fill: Fill)
    requires ValidAccount(account) && account.model == LinearPerp
    requires t.quantity > 0 && fill.price > 0 && CostsOf(account, t, fill).Ok?
    ensures var c := CostsOf(account, t, fill).value;
            0 <= c.fee <= c.notional == fill.price * t.quantity
  {
    MulNonNegative(fill.price, t.quantity);
    var notional := fill.price * t.quantity;
    RateChargeIsCeiling(notional, account.makerRate, account.rateScale);
    RateChargeIsCeiling(notional, account.takerRate, account.rateScale);
  }

  lemma {:induction false} FillKeepsCovered(account: Account, session: nat, b: Book, t: Intent, fill: Fill)
    requires ValidAccount(account) && account.model == LinearPerp && Covered(b)
    requires t.quantity > 0 && !(t.side == Sell && t.effect == Open) && fill.price > 0
    requires BookFill(account, session, b, t, fill).Ok?
    ensures Covered(BookFill(account, session, b, t, fill).value)
  {
    PerpFillParts(account, session, b, t, fill);
    PerpFeeBounded(account, t, fill);
    PerpMoveBooked(b, t, fill, CostsOf(account, t, fill).value);
  }

  lemma {:induction false} IntentKeepsCovered(input: Input, bar: Bar, st: State, t: Intent)
    requires ValidAccount(input.account) && input.account.model == LinearPerp
    requires ValidTape(input.intents, input.account) && LongOnly(input.intents)
    requires StopsAboveSlippage(input.intents, input.account.slippage) && ValidBar(bar, input.account.slippage)
    requires t in input.intents && Covered(st.book)
    requires ProcessIntent(input.account, bar, st, t).Ok?
    ensures Covered(ProcessIntent(input.account, bar, st, t).value.book)
  {
    TapeIsValid(input, t);
    IntentParts(input.account, bar, st, t);
    if !OcoDone(st.log, t) && FillDecision(input.account, bar, t).value.Some? {
      FillPricePositiveExactly(input.account, bar, t);
      FillKeepsCovered(input.account, bar.seqNo, st.book, t, FillDecision(input.account, bar, t).value.value);
    }
  }

  lemma {:induction false} CoveredEquity(b: Book, mark: int)
    requires Covered(b) && mark > 0 && UnrealizedPnl(b.quantity, b.entry, mark).Ok?
    ensures b.wallet + UnrealizedPnl(b.quantity, b.entry, mark).value >= 0
  {
    UnrealizedIs(b, mark);
    MulNonNegative(b.quantity, mark);
  }

  lemma {:induction false} BarKeepsCovered(input: Input, bar: Bar, st: State)
    requires ValidAccount(input.account) && input.account.model == LinearPerp && input.funding == []
    requires ValidTape(input.intents, input.account) && LongOnly(input.intents)
    requires StopsAboveSlippage(input.intents, input.account.slippage) && ValidBar(bar, input.account.slippage)
    requires Covered(st.book) && CoveredPoints(st.curve)
    requires ProcessBar(input, bar, st).Ok?
    ensures Covered(ProcessBar(input, bar, st).value.book) && CoveredPoints(ProcessBar(input, bar, st).value.curve)
  {
    var inv := (s: State) => Covered(s.book) && s.curve == st.curve;
    forall s: State, t: Intent | inv(s) && t in input.intents && Live(t, bar.seqNo) && t.id !in s.log.completed
                                 && ProcessIntent(input.account, bar, s, t).Ok?
      ensures inv(ProcessIntent(input.account, bar, s, t).value)
    {
      IntentKeepsCovered(input, bar, s, t);
      IntentParts(input.account, bar, s, t);
    }
    BarParts(input, bar, st);
    BarInduction(input, bar, st, inv);
    CoveredEquity(BeforeMark(input, bar, st).value.book, bar.close);
  }

  /** A valid long-only tape without funding whose stops clear the slippage never owes:
      at every bar wallet and equity are non-negative. */
  lemma {:induction false} LongOnlyNeverOwes(input: Input, k: nat)
    requires ValidInput(input) && input.account.model == LinearPerp && input.funding == []
    requires LongOnly(input.intents) && StopsAboveSlippage(input.intents, input.account.slippage)
    requires k <= |input.bars| && Replay(input, k).Ok?
    ensures Covered(Replay(input, k).value.book) && CoveredPoints(Replay(input, k).value.curve)
  {
    var runs := (st: State, i: nat) => Covered(st.book) && CoveredPoints(st.curve);
    forall st: State, i: nat | i < |input.bars| && runs(st, i) && ProcessBar(input, input.bars[i], st).Ok?
      ensures runs(ProcessBar(input, input.bars[i], st).value, i + 1)
    {
      BarKeepsCovered(input, input.bars[i], st);
    }
    RunInduction(input, k, runs);
  }

  // ---- no unwrap fails ----

  lemma {:induction false} IntentNeverPanics(input: Input, bar: Bar, st: State, t: Intent)
    requires ValidIntent(t, input.account)
    requires input.account.model == LinearPerp ==> EntryMatches(st.book)
    ensures ProcessIntent(input.account, bar, st, t) != Err(Panic)
  {
    FillDecisionNeverPanics(input.account, bar, t);
    var decision := FillDecision(input.account, bar, t);
    if decision.Ok? && decision.value.Some? && input.account.model == LinearPerp {
      PerpFillKeepsEntry(input.account, bar.seqNo, st.book, t, decision.value.value);
    } else if decision.Ok? && decision.value.Some? {
      AShareNeverPanics(input.account, bar.seqNo, st.book, t, decision.value.value);
    }
  }

  lemma {:induction false} ChecksNeverPanic(lots: seq<Lots.Lot>, session: int, start: int)
    ensures Lots.CheckedEligible(lots, session, start) != Err(Panic)
  {
    if lots != [] {
      ChecksNeverPanic(lots[1..], session, start);
      ChecksNeverPanic(lots[1..], session, start + lots[0].quantity);
    }
  }

  lemma {:induction false} AShareNeverPanics(account: Account, session: nat, b: Book, t: Intent, fill: Fill)
    requires account.model == AShareCash
    ensures BookFill(account, session, b, t, fill) != Err(Panic)
  {
    ChecksNeverPanic(b.longLots, session, 0);
    ChecksNeverPanic(b.shortLots, session, 0);
    var c := CostsOf(account, t, fill);
    if c.Ok? {
      var m := AShareMove(account, session, b, t, c.value);
      if m.Ok? {
        ChecksNeverPanic(m.value.longLots, session, 0);
        ChecksNeverPanic(m.value.shortLots, session, 0);
      }
    }
  }

  lemma {:induction false} IntentsNeverPanic(input: Input, bar: Bar, st: State)
    requires ValidTape(input.intents, input.account)
    requires input.account.model == LinearPerp ==> EntryMatches(st.book)
    ensures var due := Schedule(input.intents, st.log.completed, bar.seqNo);
            ProcessIntents(input.account, bar, st, due, |due|) != Err(Panic)
  {
    var due := Schedule(input.intents, st.log.completed, bar.seqNo);
    ScheduleIs(input.intents, st.log.completed, bar.seqNo);
    var inv := (s: State, i: nat) => input.account.model == LinearPerp ==> EntryMatches(s.book);
    forall s: State, i: nat | i < |due| && inv(s, i)
      ensures IntentStep(input.account, bar)(s, due[i]) != Err(Panic)
      ensures IntentStep(input.account, bar)(s, due[i]).Ok? ==>
                inv(IntentStep(input.account, bar)(s, due[i]).value, i + 1)
    {
      assert due[i] in due;
      TapeIsValid(input, due[i]);
      IntentNeverPanics(input, bar, s, due[i]);
      if ProcessIntent(input.account, bar, s, due[i]).Ok? { IntentKeepsEntry(input, bar, s, due[i]); }
    }
    FoldNeverFails(IntentStep(input.account, bar), st, due, |due|, inv, Panic);
  }

  lemma {:induction false} IntentKeepsEntry(input: Input, bar: Bar, st: State, t: Intent)
    requires ValidIntent(t, input.account)
    requires input.account.model == LinearPerp ==> EntryMatches(st.book)
    requires ProcessIntent(input.account, bar, st, t).Ok?
    ensures input.account.model == LinearPerp ==> EntryMatches(ProcessIntent(input.account, bar, st, t).value.book)
  {
    IntentParts(input.account, bar, st, t);
    if input.account.model == LinearPerp && !OcoDone(st.log, t) && FillDecision(input.account, bar, t).value.Some? {
      PerpFillKeepsEntry(input.account, bar.seqNo, st.book, t, FillDecision(input.account, bar, t).value.value);
    }
  }

  ghost predicate EntrySound(account: Account, b: Book) {
    account.model == LinearPerp ==> EntryMatches(b)
  }

  lemma {:induction false} FundingsNeverPanic(account: Account, b: Book, events: seq<FundingEvent>)
    ensures BookFundings(account, b, events, |events|) != Err(Panic)
  {
    var inv := (x: Book, i: nat) => true;
    FoldNeverFails(FundingStep(account), b, events, |events|, inv, Panic);
  }

  lemma {:induction false} BeforeMarkKeepsEntry(input: Input, bar: Bar, st: State)
    requires ValidTape(input.intents, input.account) && EntrySound(input.account, st.book)
    requires BeforeMark(input, bar, st).Ok?
    ensures EntrySound(input.account, BeforeMark(input, bar, st).value.book)
  {
    var inv := (s: State) => EntrySound(input.account, s.book);
    forall s: State, t: Intent | inv(s) && t in input.intents && Live(t, bar.seqNo) && t.id !in s.log.completed
                                 && ProcessIntent(input.account, bar, s, t).Ok?
      ensures inv(ProcessIntent(input.account, bar, s, t).value)
    {
      TapeIsValid(input, t);
      IntentKeepsEntry(input, bar, s, t);
    }
    BarInduction(input, bar, st, inv);
  }

  lemma {:induction false} BarNeverPanics(input: Input, bar: Bar, st: State)
    requires ValidTape(input.intents, input.account) && EntrySound(input.account, st.book)
    ensures ProcessBar(input, bar, st) != Err(Panic)
    ensures ProcessBar(input, bar, st).Ok? ==> EntrySound(input.account, ProcessBar(input, bar, st).value.book)
  {
    IntentsNeverPanic(input, bar, st);
    var due := Schedule(input.intents, st.log.completed, bar.seqNo);
    var traded := ProcessIntents(input.account, bar, st, due, |due|);
    if traded.Ok? {
      FundingsNeverPanic(input.account, traded.value.book, FundingFor(input.funding, bar.seqNo));
      if BeforeMark(input, bar, st).Ok? { BeforeMarkKeepsEntry(input, bar, st); }
    }
    if ProcessBar(input, bar, st).Ok? { BarParts(input, bar, st); }
  }

  /** On validated input no price is ever unwrapped that is not there: neither the
      price of an order nor the entry price of a position. */
  lemma {:induction false} NoUnwrapFails(input: Input, k: nat)
    requires ValidInput(input) && k <= |input.bars|
    ensures Replay(input, k) != Err(Panic)
  {
    var inv := (st: State, i: nat) => EntrySound(input.account, st.book);
    forall st: State, i: nat | i < |input.bars| && inv(st, i)
      ensures BarStep(input)(st, input.bars[i]) != Err(Panic)
      ensures BarStep(input)(st, input.bars[i]).Ok? ==> inv(BarStep(input)(st, input.bars[i]).value, i + 1)
    {
      BarNeverPanics(input, input.bars[i], st);
    }
    FoldNeverFails(BarStep(input), InitialState(input.account), input.bars, k, inv, Panic);
  }
}
