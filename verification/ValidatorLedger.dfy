/** The ledgers the validator rebuilds from the trades and the funding events are the
    ledgers of the engine, provided the partial sums of every record fit. */
module ValidatorLedger {
  import opened Checked
  import opened Events
  import opened Folds
  import opened Engine
  import opened EngineInduction
  import opened EnginePerp
  import opened Validator
  import opened ValidatorMirror
  import opened ValidatorCurve

  /** The validator adds up the deltas of a record from the left, in 128 bits. */
  predicate RecordFits(r: CashRecord) {
    && InI128(r.notionalDelta) && InI128(r.feeDelta) && InI128(r.stampDutyDelta)
    && InI128(r.notionalDelta + r.feeDelta)
    && InI128(r.notionalDelta + r.feeDelta + r.stampDutyDelta)
    && InI128(r.notionalDelta + r.feeDelta + r.stampDutyDelta + r.realizedDelta)
  }

  predicate AllFit(ledger: seq<CashRecord>) {
    forall i :: 0 <= i < |ledger| ==> RecordFits(ledger[i])
  }

  lemma {:induction false} FitsAppend(ledger: seq<CashRecord>, r: CashRecord)
    ensures AllFit(ledger + [r]) <==> AllFit(ledger) && RecordFits(r)
  {
    if AllFit(ledger + [r]) {
      forall i | 0 <= i < |ledger| ensures RecordFits(ledger[i]) { assert (ledger + [r])[i] == ledger[i]; }
      assert (ledger + [r])[|ledger|] == r;
    }
  }

  lemma {:induction false} FitsPrefix(xs: seq<CashRecord>, ys: seq<CashRecord>)
    requires |xs| <= |ys| && ys[..|xs|] == xs && AllFit(ys)
    ensures AllFit(xs)
  {
    forall i | 0 <= i < |xs| ensures RecordFits(xs[i]) { assert ys[i] == xs[i]; }
  }

  function LedgerOf(account: Account, b: Book): LedgerScan {
    LedgerScan(MoneyOf(account, b), b.quantity, b.entry, b.cashLedger, b.fundingLedger, b.totalFunding)
  }

  // ---- one fill ----

  lemma {:induction false} AShareMoney(account: Account, session: nat, b: Book, t: Intent, c: Costs)
    requires AShareMove(account, session, b, t, c).Ok?
    ensures var m := AShareMove(account, session, b, t, c).value;
            && m.notionalDelta == (if t.side == Buy then -c.notional else c.notional) && m.realized == 0
            && (t.side == Buy ==> m.cash == b.cash - c.notional - c.fee && InI128(c.notional + c.fee))
            && (t.side == Sell ==>
                  m.cash == b.cash + c.notional - c.fee - c.stampDuty && InI128(c.notional - c.fee - c.stampDuty))
            && InI128(m.cash) && InI128(m.quantity) && m.entry == b.entry
            && m.quantity == (if t.side == Buy then b.quantity + t.quantity else b.quantity - t.quantity)
  {
  }

  lemma {:induction false} PerpMoney(b: Book, t: Intent, fill: Fill, c: Costs)
    requires PerpMove(b, t, fill, c).Ok?
    ensures var m := PerpMove(b, t, fill, c).value;
            && m.notionalDelta == 0 && m.cash == b.wallet + m.realized - c.fee && InI128(m.cash)
            && (t.effect == Open ==> m.realized == 0 && m.entry == Some(fill.price)
                                     && m.quantity == (if t.side == Buy then t.quantity else -t.quantity))
            && (t.effect == Close ==>
                  && b.entry.Some? && m.entry == None && m.quantity == 0
                  && var gain := if t.side == Sell then fill.price - b.entry.value else b.entry.value - fill.price;
                     InI128(gain) && m.realized == gain * t.quantity && InI128(m.realized))
  {
  }

  lemma {:induction false} LedgerMoveMirrors(account: Account, session: nat, b: Book, t: Intent, fill: Fill, c: Costs)
    requires MoveFor(account, session, b, t, fill, c).Ok?
    requires InI128(MoveFor(account, session, b, t, fill, c).value.notionalDelta)
    ensures var m := MoveFor(account, session, b, t, fill, c).value;
            LedgerMove(account, LedgerOf(account, b), TradeOf(t, session, fill, c))
            == Ok((m.notionalDelta, m.realized, m.quantity, m.entry))
  {
    if account.model == AShareCash { AShareMoney(account, session, b, t, c); } else { PerpMoney(b, t, fill, c); }
  }

  /** A buy's notional is negated before it is added. */
  lemma {:induction false} LedgerMoveNegates(account: Account, session: nat, b: Book, t: Intent, fill: Fill, c: Costs)
    requires MoveFor(account, session, b, t, fill, c).Ok?
    requires !InI128(MoveFor(account, session, b, t, fill, c).value.notionalDelta) && InI128(c.notional)
    ensures LedgerMove(account, LedgerOf(account, b), TradeOf(t, session, fill, c)).Err?
  {
    if account.model == AShareCash { AShareMoney(account, session, b, t, c); } else { PerpMoney(b, t, fill, c); }
  }

  lemma {:induction false} MoneyAfter(account: Account, session: nat, b: Book, t: Intent, fill: Fill, c: Costs)
    requires MoveFor(account, session, b, t, fill, c).Ok? && CostsOf(account, t, fill) == Ok(c)
    ensures var m := MoveFor(account, session, b, t, fill, c).value;
            && m.cash == MoneyOf(account, b) + m.notionalDelta - c.fee - c.stampDuty + m.realized
            && InI128(m.cash) && InI128(m.realized)
  {
    if account.model == AShareCash { AShareMoney(account, session, b, t, c); } else { PerpMoney(b, t, fill, c); }
  }

  /** The book of a fill as the ledgers see it. */
  lemma {:induction false} FillLedger(account: Account, session: nat, b: Book, t: Intent, fill: Fill)
    requires BookFill(account, session, b, t, fill).Ok?
    ensures CostsOf(account, t, fill).Ok?
    ensures MoveFor(account, session, b, t, fill, CostsOf(account, t, fill).value).Ok?
    ensures var c := CostsOf(account, t, fill).value;
            var m := MoveFor(account, session, b, t, fill, c).value;
            var next := BookFill(account, session, b, t, fill).value;
            && next.cashLedger == b.cashLedger + [FillCashRecord(t, session, c, m.notionalDelta, m.realized, m.cash)]
            && next.trades == b.trades + [TradeOf(t, session, fill, c)]
            && LedgerOf(account, next)
               == LedgerScan(m.cash, m.quantity, m.entry, next.cashLedger, b.fundingLedger, b.totalFunding)
  {
    FillParts(account, session, b, t, fill);
  }

  /** Rebuilding the record of a fill succeeds exactly when its deltas fit, and then
      reaches the book of the engine. */
  lemma {:induction false} TradeMirrors(account: Account, session: nat, b: Book, t: Intent, fill: Fill)
    requires BookFill(account, session, b, t, fill).Ok?
    ensures CostsOf(account, t, fill).Ok?
    ensures var next := BookFill(account, session, b, t, fill).value;
            && |next.cashLedger| == |b.cashLedger| + 1
            && next.cashLedger[..|b.cashLedger|] == b.cashLedger
            && var r := LedgerTrade(account, LedgerOf(account, b),
                                    TradeOf(t, session, fill, CostsOf(account, t, fill).value));
               if RecordFits(next.cashLedger[|b.cashLedger|]) then r == Ok(LedgerOf(account, next)) else r.Err?
  {
    FillLedger(account, session, b, t, fill);
    var c := CostsOf(account, t, fill).value;
    var m := MoveFor(account, session, b, t, fill, c).value;
    MoneyAfter(account, session, b, t, fill, c);
    if InI128(m.notionalDelta) {
      LedgerMoveMirrors(account, session, b, t, fill, c);
    } else {
      LedgerMoveNegates(account, session, b, t, fill, c);
    }
  }

  lemma {:induction false} FundingMirrors(account: Account, b: Book, event: FundingEvent)
    requires account.model == LinearPerp && BookFunding(account, b, event).Ok?
    ensures var next := BookFunding(account, b, event).value;
            && LedgerFunding(account, LedgerOf(account, b), event) == Ok(LedgerOf(account, next))
            && |next.cashLedger| == |b.cashLedger| + 1 && next.trades == b.trades
            && next.cashLedger == b.cashLedger + [next.cashLedger[|b.cashLedger|]]
            && RecordFits(next.cashLedger[|b.cashLedger|])
  {
  }

  // ---- one bar ----

  /** From the book at the start of a bar: its fills so far, rebuilt. */
  ghost predicate FillsRebuilt(account: Account, start: Book, b: Book) {
    && |start.trades| <= |b.trades| && b.trades[..|start.trades|] == start.trades
    && |start.cashLedger| <= |b.cashLedger| && b.cashLedger[..|start.cashLedger|] == start.cashLedger
    && var fills := b.trades[|start.trades|..];
       var r := Fold(LedgerTradeStep(account), LedgerOf(account, start), fills, 0, |fills|);
       if AllFit(b.cashLedger[|start.cashLedger|..]) then r == Ok(LedgerOf(account, b)) else r.Err?
  }

  lemma {:induction false} FillKeepsRebuilt(account: Account, start: Book, session: nat, b: Book, t: Intent, fill: Fill)
    requires FillsRebuilt(account, start, b) && BookFill(account, session, b, t, fill).Ok?
    ensures FillsRebuilt(account, start, BookFill(account, session, b, t, fill).value)
  {
    FillLedger(account, session, b, t, fill);
    TradeMirrors(account, session, b, t, fill);
    var next := BookFill(account, session, b, t, fill).value;
    var trade, r := next.trades[|b.trades|], next.cashLedger[|b.cashLedger|];
    assert next.trades[|start.trades|..] == b.trades[|start.trades|..] + [trade];
    assert next.cashLedger[|start.cashLedger|..] == b.cashLedger[|start.cashLedger|..] + [r];
    FoldAppend(LedgerTradeStep(account), LedgerOf(account, start), b.trades[|start.trades|..], trade);
    FitsAppend(b.cashLedger[|start.cashLedger|..], r);
  }

  lemma {:induction false} IntentsRebuilt(input: Input, bar: Bar, st: State)
    requires UniqueIds(input.intents)
    requires var due := Schedule(input.intents, st.log.completed, bar.seqNo);
             ProcessIntents(input.account, bar, st, due, |due|).Ok?
    ensures var due := Schedule(input.intents, st.log.completed, bar.seqNo);
            FillsRebuilt(input.account, st.book, ProcessIntents(input.account, bar, st, due, |due|).value.book)
  {
    var inv := (s: State) => FillsRebuilt(input.account, st.book, s.book);
    forall s: State, t: Intent | inv(s) && t in input.intents && Live(t, bar.seqNo) && t.id !in s.log.completed
                                 && ProcessIntent(input.account, bar, s, t).Ok?
      ensures inv(ProcessIntent(input.account, bar, s, t).value)
    {
      IntentParts(input.account, bar, s, t);
      if !OcoDone(s.log, t) && FillDecision(input.account, bar, t).value.Some? {
        FillKeepsRebuilt(input.account, st.book, bar.seqNo, s.book, t, FillDecision(input.account, bar, t).value.value);
      }
    }
    IntentsKeep(input, bar, st, inv);
  }

  /** Funding is rebuilt without exception. */
  ghost predicate FundingRebuilt(account: Account, events: seq<FundingEvent>, start: Book, b: Book, n: nat)
    requires n <= |events|
  {
    && b.trades == start.trades && |start.cashLedger| <= |b.cashLedger|
    && b.cashLedger[..|start.cashLedger|] == start.cashLedger
    && AllFit(b.cashLedger[|start.cashLedger|..])
    && Fold(LedgerFundingStep(account), LedgerOf(account, start), events, 0, n) == Ok(LedgerOf(account, b))
  }

  lemma {:induction false} FundingStepRebuilt(account: Account, events: seq<FundingEvent>, start: Book, b: Book, i: nat)
    requires account.model == LinearPerp && i < |events|
    requires FundingRebuilt(account, events, start, b, i) && BookFunding(account, b, events[i]).Ok?
    ensures FundingRebuilt(account, events, start, BookFunding(account, b, events[i]).value, i + 1)
  {
    FundingMirrors(account, b, events[i]);
    var next := BookFunding(account, b, events[i]).value;
    var r := next.cashLedger[|b.cashLedger|];
    assert next.cashLedger[|start.cashLedger|..] == b.cashLedger[|start.cashLedger|..] + [r];
    FitsAppend(b.cashLedger[|start.cashLedger|..], r);
  }

  lemma {:induction false} SettlementRebuilt(input: Input, session: nat, b: Book)
    requires input.account.model == AShareCash ==> input.funding == []
    requires SettleFunding(input, session, b).Ok?
    ensures var events := FundingFor(input.funding, session);
            FundingRebuilt(input.account, events, b, SettleFunding(input, session, b).value, |events|)
  {
    var events := FundingFor(input.funding, session);
    if input.account.model == LinearPerp {
      var inv := (x: Book, i: nat) => i <= |events| && FundingRebuilt(input.account, events, b, x, i);
      forall x: Book, i: nat | i < |events| && inv(x, i) && FundingStep(input.account)(x, events[i]).Ok?
        ensures inv(FundingStep(input.account)(x, events[i]).value, i + 1)
      {
        FundingStepRebuilt(input.account, events, b, x, i);
      }
      FoldInduction(FundingStep(input.account), b, events, |events|, inv);
    }
  }

  lemma {:induction false} TradesOfNone(trades: seq<TradeRecord>, session: nat)
    requires forall i :: 0 <= i < |trades| ==> TradeSession(trades[i]) < session
    ensures TradesOf(trades, session) == []
  {
    if trades != [] {
      assert TradeSession(trades[|trades| - 1]) < session;
      var front := trades[..|trades| - 1];
      forall i | 0 <= i < |front| ensures TradeSession(front[i]) < session { assert front[i] == trades[i]; }
      TradesOfNone(front, session);
    }
  }

  /** The trades of a session are what its bar added, those of earlier sessions stay. */
  lemma {:induction false} TradesOfGrows(xs: seq<TradeRecord>, ys: seq<TradeRecord>, session: nat, other: nat)
    requires Grows(xs, ys, TradeSession, session)
    requires forall i :: 0 <= i < |xs| ==> TradeSession(xs[i]) < session
    ensures other < session ==> TradesOf(ys, other) == TradesOf(xs, other)
    ensures TradesOf(ys, session) == ys[|xs|..]
  {
    if |xs| < |ys| {
      var front := ys[..|ys| - 1];
      assert front[..|xs|] == xs && TradeSession(ys[|ys| - 1]) == session;
      TradesOfGrows(xs, front, session, other);
      assert ys[|xs|..] == front[|xs|..] + [ys[|ys| - 1]];
    } else {
      assert xs == ys;
      TradesOfNone(xs, session);
    }
  }

  /** A whole bar, rebuilt. */
  lemma {:induction false} BarRebuilt(input: Input, bar: Bar, st: State)
    requires UniqueIds(input.intents) && ProcessBar(input, bar, st).Ok?
    requires input.account.model == AShareCash ==> input.funding == []
    requires forall i :: 0 <= i < |st.book.trades| ==> TradeSession(st.book.trades[i]) < bar.seqNo
    ensures var next := ProcessBar(input, bar, st).value;
            && |st.book.cashLedger| <= |next.book.cashLedger|
            && next.book.cashLedger[..|st.book.cashLedger|] == st.book.cashLedger
            && var r := LedgerBar(input, next.book.trades, LedgerOf(input.account, st.book), bar);
               if AllFit(next.book.cashLedger[|st.book.cashLedger|..]) then r == Ok(LedgerOf(input.account, next.book))
               else r.Err?
  {
    var account := input.account;
    BarParts(input, bar, st);
    IntentsRebuilt(input, bar, st);
    var due := Schedule(input.intents, st.log.completed, bar.seqNo);
    var traded := ProcessIntents(account, bar, st, due, |due|).value.book;
    SettlementRebuilt(input, bar.seqNo, traded);
    var settled := SettleFunding(input, bar.seqNo, traded).value;
    BarGrows(input, bar, st);
    TradesOfGrows(st.book.trades, traded.trades, bar.seqNo, bar.seqNo);
    LedgerJoins(st.book.cashLedger, traded.cashLedger, settled.cashLedger);
  }

  lemma {:induction false} LedgerJoins(xs: seq<CashRecord>, ys: seq<CashRecord>, zs: seq<CashRecord>)
    requires |xs| <= |ys| <= |zs| && ys[..|xs|] == xs && zs[..|ys|] == ys && AllFit(zs[|ys|..])
    ensures zs[..|xs|] == xs
    ensures AllFit(zs[|xs|..]) <==> AllFit(ys[|xs|..])
  {
    assert zs[|xs|..] == ys[|xs|..] + zs[|ys|..];
    var front, back := ys[|xs|..], zs[|ys|..];
    if AllFit(front) {
      forall i | 0 <= i < |front + back| ensures RecordFits((front + back)[i]) {
        if i < |front| { assert RecordFits(front[i]); } else { assert RecordFits(back[i - |front|]); }
      }
    }
    if AllFit(front + back) { FitsPrefix(front, front + back); }
  }

  // ---- the run ----

  /** Rebuilding the ledgers of a book from its trades succeeds exactly when all of
      its records fit, and then gives them back. */
  ghost predicate LedgersRebuilt(input: Input, bars: seq<Bar>, b: Book) {
    var r := ReconstructLedgers(input, bars, b.trades);
    if AllFit(b.cashLedger) then r == Ok(LedgerOf(input.account, b)) else r.Err?
  }

  lemma {:induction false} LedgersExtend(input: Input, bars: seq<Bar>, bar: Bar, xs: seq<TradeRecord>,
      ys: seq<TradeRecord>)
    requires Grows(xs, ys, TradeSession, bar.seqNo)
    requires forall i :: 0 <= i < |xs| ==> TradeSession(xs[i]) < bar.seqNo
    requires forall i :: 0 <= i < |bars| ==> bars[i].seqNo < bar.seqNo
    ensures ReconstructLedgers(input, bars + [bar], ys) ==
            match ReconstructLedgers(input, bars, xs)
            case Ok(s) => LedgerBar(input, ys, s, bar)
            case Err(e) => Err(e)
  {
    var f, g, start := LedgerBarStep(input, xs), LedgerBarStep(input, ys), EmptyLedger(input.account);
    forall s: LedgerScan, i | 0 <= i < |bars|
      ensures f(s, bars[i]) == g(s, bars[i])
    {
      TradesOfGrows(xs, ys, bar.seqNo, bars[i].seqNo);
    }
    FoldSameStep(f, g, start, bars, |bars|);
    FoldAppend(g, start, bars, bar);
  }

  lemma {:induction false} BarKeepsLedgers(input: Input, bars: seq<Bar>, bar: Bar, st: State)
    requires UniqueIds(input.intents) && ProcessBar(input, bar, st).Ok?
    requires input.account.model == AShareCash ==> input.funding == []
    requires forall i :: 0 <= i < |st.book.trades| ==> TradeSession(st.book.trades[i]) < bar.seqNo
    requires forall i :: 0 <= i < |bars| ==> bars[i].seqNo < bar.seqNo
    requires LedgersRebuilt(input, bars, st.book)
    ensures LedgersRebuilt(input, bars + [bar], ProcessBar(input, bar, st).value.book)
  {
    var xs, ys := st.book.cashLedger, ProcessBar(input, bar, st).value.book.cashLedger;
    BarRebuilt(input, bar, st);
    BarGrows(input, bar, st);
    LedgersExtend(input, bars, bar, st.book.trades, ProcessBar(input, bar, st).value.book.trades);
    FitsSplit(xs, ys);
  }

  lemma {:induction false} FitsSplit(xs: seq<CashRecord>, ys: seq<CashRecord>)
    requires |xs| <= |ys| && ys[..|xs|] == xs
    ensures AllFit(ys) <==> AllFit(xs) && AllFit(ys[|xs|..])
  {
    var back := ys[|xs|..];
    assert ys == xs + back;
    if AllFit(ys) {
      FitsPrefix(xs, ys);
      forall i | 0 <= i < |back| ensures RecordFits(back[i]) { assert back[i] == ys[|xs| + i]; }
    }
    if AllFit(xs) && AllFit(back) {
      forall i | 0 <= i < |ys| ensures RecordFits(ys[i]) {
        if i < |xs| { assert ys[i] == xs[i]; } else { assert ys[i] == back[i - |xs|]; }
      }
    }
  }

  lemma {:induction false} EarlierSessions(records: seq<TradeRecord>, bars: seq<Bar>, session: nat)
    requires GoodSessions(records, TradeSession, LastSession(bars))
    requires forall i :: 0 <= i < |bars| ==> bars[i].seqNo < session
    ensures forall i :: 0 <= i < |records| ==> TradeSession(records[i]) < session
  {
  }

  lemma {:induction false} RunIsRebuilt(input: Input, k: nat)
    requires ValidInput(input) && k <= |input.bars| && Replay(input, k).Ok?
    ensures LedgersRebuilt(input, input.bars[..k], Replay(input, k).value.book)
  {
    if k > 0 {
      LastReplay(input, k);
      RunIsRebuilt(input, k - 1);
      RunIsScanned(input, k - 1);
      EarlierBars(input.bars, k - 1);
      EarlierSessions(Replay(input, k - 1).value.book.trades, input.bars[..k - 1], input.bars[k - 1].seqNo);
      BarKeepsLedgers(input, input.bars[..k - 1], input.bars[k - 1], Replay(input, k - 1).value);
    }
  }

  // ---- the running cash of a ledger ----

  /** Each record states the money after it. */
  ghost predicate CashRuns(account: Account, b: Book) {
    AllFit(b.cashLedger) ==>
      Fold(RunningCash, account.startingBalance, b.cashLedger, 0, |b.cashLedger|) == Ok(MoneyOf(account, b))
  }

  lemma {:induction false} RecordRuns(account: Account, b: Book, next: Book, r: CashRecord)
    requires CashRuns(account, b) && next.cashLedger == b.cashLedger + [r]
    requires RecordFits(r) ==> RunningCash(MoneyOf(account, b), r) == Ok(MoneyOf(account, next))
    ensures CashRuns(account, next)
  {
    FitsAppend(b.cashLedger, r);
    FoldAppend(RunningCash, account.startingBalance, b.cashLedger, r);
  }

  lemma {:induction false} FillKeepsCashRuns(account: Account, session: nat, b: Book, t: Intent, fill: Fill)
    requires CashRuns(account, b) && BookFill(account, session, b, t, fill).Ok?
    ensures CashRuns(account, BookFill(account, session, b, t, fill).value)
  {
    FillLedger(account, session, b, t, fill);
    var c := CostsOf(account, t, fill).value;
    MoneyAfter(account, session, b, t, fill, c);
    var next := BookFill(account, session, b, t, fill).value;
    RecordRuns(account, b, next, next.cashLedger[|b.cashLedger|]);
  }

  lemma {:induction false} FundingKeepsCashRuns(account: Account, b: Book, event: FundingEvent)
    requires account.model == LinearPerp
    requires CashRuns(account, b) && BookFunding(account, b, event).Ok?
    ensures CashRuns(account, BookFunding(account, b, event).value)
  {
    FundingMirrors(account, b, event);
    var next := BookFunding(account, b, event).value;
    RecordRuns(account, b, next, next.cashLedger[|b.cashLedger|]);
  }

  // ---- an A-share record always fits ----

  lemma {:induction false} NeverTheMinimum(price: int, quantity: int)
    requires quantity % 100 == 0
    ensures price * quantity != I128_MIN
  {
    var lots := quantity / 100;
    assert quantity == 100 * lots;
    assert price * quantity == 100 * (price * lots);
  }

  lemma {:induction false} ChargeBounds(notional: int, rate: int, scale: int)
    requires 0 <= rate <= scale && scale > 0 && RateCharge(notional, rate, scale).Ok?
    ensures var charge := RateCharge(notional, rate, scale).value;
            if notional >= 0 then 0 <= charge <= notional else notional <= charge <= 0
  {
    if notional >= 0 { RateChargeIsCeiling(notional, rate, scale); }
    else { RateChargeOfNegative(notional, rate, scale); }
  }

  lemma {:induction false} AShareRecordFits(account: Account, bar: Bar, b: Book, t: Intent, fill: Fill)
    requires ValidAccount(account) && account.model == AShareCash && ValidIntent(t, account)
    requires ValidBar(bar, account.slippage) && FillDecision(account, bar, t) == Ok(Some(fill))
    requires BookFill(account, bar.seqNo, b, t, fill).Ok?
    ensures var next := BookFill(account, bar.seqNo, b, t, fill).value;
            |next.cashLedger| == |b.cashLedger| + 1 && RecordFits(next.cashLedger[|b.cashLedger|])
  {
    FillLedger(account, bar.seqNo, b, t, fill);
    var c := CostsOf(account, t, fill).value;
    AShareMoney(account, bar.seqNo, b, t, c);
    ChargeBounds(c.notional, account.commissionRate, account.rateScale);
    NeverTheMinimum(fill.price, t.quantity);
    if t.side == Sell {
      ChargeBounds(c.notional, account.stampDutyRate, account.rateScale);
    } else {
      FillPricePositiveExactly(account, bar, t);
      MulNonNegative(fill.price, t.quantity);
    }
  }

  ghost predicate RunsAndFits(account: Account, b: Book) {
    CashRuns(account, b) && (account.model == AShareCash ==> AllFit(b.cashLedger))
  }

  lemma {:induction false} FillRunsAndFits(account: Account, bar: Bar, b: Book, t: Intent, fill: Fill)
    requires RunsAndFits(account, b) && ValidAccount(account) && ValidIntent(t, account)
    requires ValidBar(bar, account.slippage) && FillDecision(account, bar, t) == Ok(Some(fill))
    requires BookFill(account, bar.seqNo, b, t, fill).Ok?
    ensures RunsAndFits(account, BookFill(account, bar.seqNo, b, t, fill).value)
  {
    FillKeepsCashRuns(account, bar.seqNo, b, t, fill);
    if account.model == AShareCash {
      AShareRecordFits(account, bar, b, t, fill);
      FillLedger(account, bar.seqNo, b, t, fill);
      FitsAppend(b.cashLedger, BookFill(account, bar.seqNo, b, t, fill).value.cashLedger[|b.cashLedger|]);
    }
  }

  lemma {:induction false} BarRunsAndFits(input: Input, bar: Bar, st: State)
    requires ValidAccount(input.account) && ValidTape(input.intents, input.account)
    requires ValidBar(bar, input.account.slippage)
    requires RunsAndFits(input.account, st.book) && ProcessBar(input, bar, st).Ok?
    ensures RunsAndFits(input.account, ProcessBar(input, bar, st).value.book)
  {
    var inv := (s: State) => RunsAndFits(input.account, s.book);
    forall s: State, t: Intent | inv(s) && t in input.intents && Live(t, bar.seqNo) && t.id !in s.log.completed
                                 && ProcessIntent(input.account, bar, s, t).Ok?
      ensures inv(ProcessIntent(input.account, bar, s, t).value)
    {
      TapeIsValid(input, t);
      IntentParts(input.account, bar, s, t);
      if !OcoDone(s.log, t) && FillDecision(input.account, bar, t).value.Some? {
        FillRunsAndFits(input.account, bar, s.book, t, FillDecision(input.account, bar, t).value.value);
      }
    }
    forall s: State, event: FundingEvent | inv(s) && input.account.model == LinearPerp
                                           && BookFunding(input.account, s.book, event).Ok?
      ensures inv(s.(book := BookFunding(input.account, s.book, event).value))
    {
      FundingKeepsCashRuns(input.account, s.book, event);
    }
    BarParts(input, bar, st);
    BarInduction(input, bar, st, inv);
  }

  lemma {:induction false} RunFits(input: Input, k: nat)
    requires ValidInput(input) && k <= |input.bars| && Replay(input, k).Ok?
    ensures RunsAndFits(input.account, Replay(input, k).value.book)
  {
    if k > 0 {
      LastReplay(input, k);
      RunFits(input, k - 1);
      BarRunsAndFits(input, input.bars[k - 1], Replay(input, k - 1).value);
    }
  }
}
