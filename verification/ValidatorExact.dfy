/** When the engine reaches an accepted state. The validators do less arithmetic than
    the engine and never look at the 1x cap; what the engine asks for besides can be
    read off the trades and the cash ledger of the accepted state, and with it the
    replay runs through and reaches that state. */
module ValidatorExact {
  import opened Checked
  import opened Events
  import opened Lots
  import opened Folds
  import opened Ids
  import opened Engine
  import opened EngineInduction
  import opened EngineAccounting
  import opened Validator
  import opened ValidatorMirror
  import opened ValidatorCurve
  import opened ValidatorLedger
  import opened ValidatorOrders
  import opened ValidatorSoundness
  import Order = EngineOrder

  /** The sums the engine forms for a trade and the validators do not, and the cap. */
  predicate TradeFits(account: Account, trade: TradeRecord, cashBefore: int, realized: int) {
    match account.model
    case AShareCash =>
      if trade.side == Buy then InI128(trade.notional + trade.fee) else InI128(trade.fee + trade.stampDuty)
    case LinearPerp =>
      if trade.effect == Open then InI128(trade.notional + trade.fee) && trade.notional + trade.fee <= cashBefore
      else InI128(cashBefore + realized)
  }

  function CashBefore(ledger: seq<CashRecord>, start: int, m: nat): int
    requires m <= |ledger|
  {
    if m == 0 then start else ledger[m - 1].resultingCash
  }

  /** Every trade fits against the cash its ledger record found. */
  predicate EngineFits(account: Account, trades: seq<TradeRecord>, ledger: seq<CashRecord>) {
    forall m, n {:trigger ledger[m], trades[n]} ::
      0 <= m < |ledger| && 0 <= n < |trades| && ledger[m].source == FromIntent(trades[n].id) ==>
        TradeFits(account, trades[n], CashBefore(ledger, account.startingBalance, m), ledger[m].realizedDelta)
  }

  // ---- one fill ----

  function RealizedBy(account: Account, b: Book, t: Intent, fill: Fill): int {
    if account.model == AShareCash || t.effect == Open || b.entry.None? then 0
    else if t.side == Sell then (fill.price - b.entry.value) * t.quantity
    else (b.entry.value - fill.price) * t.quantity
  }

  lemma {:induction false} AShareMovesExactly(account: Account, session: nat, s: TradeScan, b: Book, t: Intent,
      c: Costs)
    requires Mirrors(s, b) && ScanAShare(account, session, s, t).Ok?
    requires t.side == Buy ==> InI128(b.cash - c.notional - c.fee)
    requires t.side == Sell ==>
               InI128(c.notional - c.fee - c.stampDuty) && InI128(b.cash + c.notional - c.fee - c.stampDuty)
    ensures AShareMove(account, session, b, t, c).Ok?
            <==> if t.side == Buy then InI128(c.notional + c.fee) else InI128(c.fee + c.stampDuty)
  {
  }

  lemma {:induction false} PerpMovesExactly(s: TradeScan, b: Book, t: Intent, fill: Fill, c: Costs, realized: int)
    requires Mirrors(s, b) && ScanPerp(s, t, fill).Ok?
    requires InI128(b.wallet) && InI128(b.wallet + realized - c.fee)
    requires t.effect == Open ==> realized == 0
    requires t.effect == Close ==>
               var gain := if t.side == Sell then fill.price - b.entry.value else b.entry.value - fill.price;
               InI128(gain) && InI128(realized) && realized == gain * t.quantity
    ensures PerpMove(b, t, fill, c).Ok?
            <==> if t.effect == Open then InI128(c.notional + c.fee) && c.notional + c.fee <= b.wallet
                 else InI128(b.wallet + realized)
  {
  }

  /** What the ledger of a trade has already checked. */
  lemma {:induction false} LedgerGives(account: Account, session: nat, b: Book, t: Intent, fill: Fill, c: Costs)
    requires CostsOf(account, t, fill) == Ok(c)
    requires account.model == LinearPerp && t.effect == Close ==> b.entry.Some?
    requires LedgerTrade(account, LedgerOf(account, b), TradeOf(t, session, fill, c)).Ok?
    ensures var ledger := LedgerTrade(account, LedgerOf(account, b), TradeOf(t, session, fill, c)).value.cashLedger;
            && |ledger| == |b.cashLedger| + 1 && ledger[..|b.cashLedger|] == b.cashLedger
            && ledger[|b.cashLedger|].source == FromIntent(t.id)
            && ledger[|b.cashLedger|].realizedDelta == RealizedBy(account, b, t, fill)
    ensures account.model == AShareCash ==>
              if t.side == Buy then InI128(b.cash - c.notional - c.fee)
              else InI128(c.notional - c.fee - c.stampDuty) && InI128(b.cash + c.notional - c.fee - c.stampDuty)
    ensures account.model == LinearPerp ==> InI128(b.wallet + RealizedBy(account, b, t, fill) - c.fee)
    ensures account.model == LinearPerp && t.effect == Close ==>
              && InI128(if t.side == Sell then fill.price - b.entry.value else b.entry.value - fill.price)
              && InI128(RealizedBy(account, b, t, fill))
  {
  }

  lemma {:induction false} MovesExactly(account: Account, session: nat, s: TradeScan, b: Book, t: Intent, fill: Fill,
      c: Costs)
    requires Mirrors(s, b) && ScanMove(account, session, s, t, fill).Ok? && CostsOf(account, t, fill) == Ok(c)
    requires account.model == LinearPerp ==> InI128(b.wallet)
    requires LedgerTrade(account, LedgerOf(account, b), TradeOf(t, session, fill, c)).Ok?
    ensures MoveFor(account, session, b, t, fill, c).Ok?
            <==> TradeFits(account, TradeOf(t, session, fill, c), MoneyOf(account, b), RealizedBy(account, b, t, fill))
  {
    LedgerGives(account, session, b, t, fill, c);
    if account.model == AShareCash {
      AShareMovesExactly(account, session, s, b, t, c);
    } else {
      PerpMovesExactly(s, b, t, fill, c, RealizedBy(account, b, t, fill));
    }
  }

  predicate TotalsFit(account: Account, b: Book, trade: TradeRecord) {
    && InI128(b.totalFees + trade.fee) && InI128(b.totalSlippage + trade.slippage)
    && (account.model == AShareCash ==> InI128(b.totalStampDuty + trade.stampDuty))
  }

  lemma {:induction false} RecordsExactly(account: Account, session: nat, b: Book, t: Intent, fill: Fill, c: Costs,
      notionalDelta: int, realized: int)
    requires EligibleNow(account, session, b).Ok? && TotalsFit(account, b, TradeOf(t, session, fill, c))
    ensures RecordFill(account, session, b, t, fill, c, notionalDelta, realized).Ok?
  {
  }

  /** Of a trade that passes the scan, the ledger and the totals, the engine books the
      fill exactly when the trade fits. */
  lemma {:induction false} BooksExactly(input: Input, bars: seq<Bar>, bar: Bar, s: TradeScan, b: Book, t: Intent,
      fill: Fill, trade: TradeRecord, position: PositionRecord)
    requires Mirrors(s, b) && Fills(input, bars, bar, t, fill)
    requires trade.id == t.id && trade.session == bar.seqNo
    requires CheckTrade(input, bars, s, trade, position).Ok?
    requires input.account.model == LinearPerp ==> InI128(b.wallet)
    requires LedgerTrade(input.account, LedgerOf(input.account, b), trade).Ok? && TotalsFit(input.account, b, trade)
    ensures BookFill(input.account, bar.seqNo, b, t, fill).Ok?
            <==> TradeFits(input.account, trade, MoneyOf(input.account, b), RealizedBy(input.account, b, t, fill))
  {
    var account, session := input.account, bar.seqNo;
    var c := CostsOf(account, t, fill).value;
    assert trade == TradeOf(t, session, fill, c);
    MovesExactly(account, session, s, b, t, fill, c);
    MovesMirror(account, session, s, b, t, fill, c);
    var moved := MoveFor(account, session, b, t, fill, c);
    if moved.Ok? {
      RecordsExactly(account, session, AfterMove(account, b, moved.value), t, fill, c, moved.value.notionalDelta,
                     moved.value.realized);
    }
  }

  /** Whatever the engine books, fits. */
  lemma {:induction false} BookedFits(account: Account, session: nat, b: Book, t: Intent, fill: Fill)
    requires BookFill(account, session, b, t, fill).Ok?
    ensures CostsOf(account, t, fill).Ok?
    ensures var next := BookFill(account, session, b, t, fill).value;
            && |next.cashLedger| == |b.cashLedger| + 1
            && TradeFits(account, TradeOf(t, session, fill, CostsOf(account, t, fill).value), MoneyOf(account, b),
                         next.cashLedger[|b.cashLedger|].realizedDelta)
  {
    FillLedger(account, session, b, t, fill);
    var c := CostsOf(account, t, fill).value;
    if account.model == AShareCash { AShareMovesFit(account, session, b, t, c); } else { PerpMovesFit(b, t, fill, c); }
  }

  lemma {:induction false} AShareMovesFit(account: Account, session: nat, b: Book, t: Intent, c: Costs)
    requires AShareMove(account, session, b, t, c).Ok?
    ensures if t.side == Buy then InI128(c.notional + c.fee) else InI128(c.fee + c.stampDuty)
  {
  }

  lemma {:induction false} PerpMovesFit(b: Book, t: Intent, fill: Fill, c: Costs)
    requires PerpMove(b, t, fill, c).Ok?
    ensures if t.effect == Open then InI128(c.notional + c.fee) && c.notional + c.fee <= b.wallet
            else InI128(b.wallet + PerpMove(b, t, fill, c).value.realized)
  {
  }

  // ---- the engine's own runs fit ----

  /** Ledger records name completed intents only. */
  ghost predicate SourcesKnown(st: State) {
    forall m :: 0 <= m < |st.book.cashLedger| && st.book.cashLedger[m].source.FromIntent? ==>
      st.book.cashLedger[m].source.id in st.log.completed
  }

  ghost predicate FitsSoFar(input: Input, bars: seq<Bar>, st: State) {
    && Recomputed(input, bars, st) && SourcesKnown(st)
    && EngineFits(input.account, st.book.trades, st.book.cashLedger)
  }

  lemma {:induction false} FitsAppended(account: Account, trades: seq<TradeRecord>, ledger: seq<CashRecord>,
      completed: set<Id>, trade: TradeRecord, r: CashRecord, money: int)
    requires EngineFits(account, trades, ledger) && trade.id !in completed && r.source == FromIntent(trade.id)
    requires IdSet(TradeIds(trades)) <= completed
    requires forall m :: 0 <= m < |ledger| && ledger[m].source.FromIntent? ==> ledger[m].source.id in completed
    requires LastCash(ledger, account.startingBalance) == money && TradeFits(account, trade, money, r.realizedDelta)
    ensures EngineFits(account, trades + [trade], ledger + [r])
  {
    var ts, rs := trades + [trade], ledger + [r];
    forall m, n | 0 <= m < |rs| && 0 <= n < |ts| && rs[m].source == FromIntent(ts[n].id)
      ensures TradeFits(account, ts[n], CashBefore(rs, account.startingBalance, m), rs[m].realizedDelta)
    {
      if n < |trades| { assert TradeIds(trades)[n] in IdSet(TradeIds(trades)); }
      if m < |ledger| && n < |trades| {
        assert rs[m] == ledger[m] && ts[n] == trades[n];
      }
    }
  }

  lemma {:induction false} FitsWithFunding(account: Account, trades: seq<TradeRecord>, ledger: seq<CashRecord>,
      r: CashRecord)
    requires EngineFits(account, trades, ledger) && r.source.FromFunding?
    ensures EngineFits(account, trades, ledger + [r])
  {
    var rs := ledger + [r];
    forall m, n | 0 <= m < |rs| && 0 <= n < |trades| && rs[m].source == FromIntent(trades[n].id)
      ensures TradeFits(account, trades[n], CashBefore(rs, account.startingBalance, m), rs[m].realizedDelta)
    {
      assert rs[m] == ledger[m]
             && CashBefore(rs, account.startingBalance, m) == CashBefore(ledger, account.startingBalance, m);
    }
  }

  lemma {:induction false} FillFitsSoFar(input: Input, bars: seq<Bar>, bar: Bar, st: State, t: Intent, fill: Fill)
    requires FitsSoFar(input, bars, st) && Fills(input, bars, bar, t, fill) && t.quantity > 0
    requires t.id !in st.log.completed
    requires BookFill(input.account, bar.seqNo, st.book, t, fill).Ok?
    ensures FitsSoFar(input, bars, State(LogFill(st.log, t, bar.seqNo, fill),
                                         BookFill(input.account, bar.seqNo, st.book, t, fill).value, st.curve))
  {
    FillKeepsRecomputed(input, bars, bar, st, t, fill);
    FillLedger(input.account, bar.seqNo, st.book, t, fill);
    BookedFits(input.account, bar.seqNo, st.book, t, fill);
    var next := BookFill(input.account, bar.seqNo, st.book, t, fill).value;
    FitsAppended(input.account, st.book.trades, st.book.cashLedger, st.log.completed,
                 next.trades[|st.book.trades|], next.cashLedger[|st.book.cashLedger|], MoneyOf(input.account, st.book));
  }

  lemma {:induction false} IntentFitsSoFar(input: Input, bars: seq<Bar>, bar: Bar, st: State, t: Intent)
    requires ValidTape(input.intents, input.account) && t in input.intents && Live(t, bar.seqNo)
    requires FitsSoFar(input, bars, st) && t.id !in st.log.completed && BarBySession(bars, bar.seqNo) == Some(bar)
    requires ProcessIntent(input.account, bar, st, t).Ok?
    ensures FitsSoFar(input, bars, ProcessIntent(input.account, bar, st, t).value)
  {
    IntentIsFound(input.intents, t);
    assert ValidIntent(t, input.account);
    IntentParts(input.account, bar, st, t);
    if !OcoDone(st.log, t) && FillDecision(input.account, bar, t).value.Some? {
      FillFitsSoFar(input, bars, bar, st, t, FillDecision(input.account, bar, t).value.value);
    }
  }

  lemma {:induction false} FundingFitsSoFar(input: Input, bars: seq<Bar>, st: State, event: FundingEvent)
    requires input.account.model == LinearPerp
    requires FitsSoFar(input, bars, st) && BookFunding(input.account, st.book, event).Ok?
    ensures FitsSoFar(input, bars, st.(book := BookFunding(input.account, st.book, event).value))
  {
    FundingKeepsRecomputed(input, bars, st, event);
    FundingMirrors(input.account, st.book, event);
    var next := BookFunding(input.account, st.book, event).value;
    FitsWithFunding(input.account, st.book.trades, st.book.cashLedger, next.cashLedger[|st.book.cashLedger|]);
  }

  lemma {:induction false} BarFitsSoFar(input: Input, bars: seq<Bar>, bar: Bar, st: State)
    requires ValidTape(input.intents, input.account)
    requires FitsSoFar(input, bars, st) && BarBySession(bars, bar.seqNo) == Some(bar)
    requires ProcessBar(input, bar, st).Ok?
    ensures FitsSoFar(input, bars, ProcessBar(input, bar, st).value)
  {
    var inv := (s: State) => FitsSoFar(input, bars, s);
    forall s: State, t: Intent | inv(s) && t in input.intents && Live(t, bar.seqNo) && t.id !in s.log.completed
                                 && ProcessIntent(input.account, bar, s, t).Ok?
      ensures inv(ProcessIntent(input.account, bar, s, t).value)
    {
      IntentFitsSoFar(input, bars, bar, s, t);
    }
    forall s: State, event: FundingEvent | inv(s) && input.account.model == LinearPerp
                                           && BookFunding(input.account, s.book, event).Ok?
      ensures inv(s.(book := BookFunding(input.account, s.book, event).value))
    {
      FundingFitsSoFar(input, bars, s, event);
    }
    BarParts(input, bar, st);
    BarInduction(input, bar, st, inv);
  }

  lemma {:induction false} InitialFitsSoFar(input: Input, bars: seq<Bar>)
    ensures FitsSoFar(input, bars, InitialState(input.account))
  {
    InitialRecomputed(input, bars);
  }

  lemma {:induction false} RunFitsSoFar(input: Input, k: nat, i: nat)
    requires ValidTape(input.intents, input.account) && IncreasingBars(input.bars)
    requires i <= k <= |input.bars| && Replay(input, i).Ok?
    ensures FitsSoFar(input, input.bars[..k], Replay(input, i).value)
  {
    var bars := input.bars[..k];
    if i == 0 {
      InitialFitsSoFar(input, bars);
    } else {
      LastReplay(input, i);
      RunFitsSoFar(input, k, i - 1);
      IncreasingPrefix(input.bars, k);
      BarIsFound(bars, i - 1);
      BarFitsSoFar(input, bars, input.bars[i - 1], Replay(input, i - 1).value);
    }
  }

  /** Every state the engine reaches fits. */
  lemma {:induction false} ReachedFits(input: Input, k: nat)
    requires ValidTape(input.intents, input.account) && IncreasingBars(input.bars)
    requires k <= |input.bars| && Replay(input, k).Ok?
    ensures EngineFits(input.account, Replay(input, k).value.book.trades, Replay(input, k).value.book.cashLedger)
  {
    RunFitsSoFar(input, k, k);
  }

  // ---- accepted records that fit carry the engine through a bar ----

  /** The checked totals of the accepted trades. */
  ghost predicate SumsPass(b: Book) {
    && Fold(AddFee, 0, b.trades, 0, |b.trades|).Ok? && Fold(AddStampDuty, 0, b.trades, 0, |b.trades|).Ok?
    && Fold(AddSlippage, 0, b.trades, 0, |b.trades|).Ok?
  }

  lemma {:induction false} NextTotalFits(add: (int, TradeRecord) -> Result<int>, done: seq<TradeRecord>,
      trades: seq<TradeRecord>, total: int)
    requires done <= trades && |done| < |trades|
    requires Fold(add, 0, done, 0, |done|) == Ok(total) && Fold(add, 0, trades, 0, |trades|).Ok?
    ensures add(total, trades[|done|]).Ok?
  {
    FoldSameItems(add, 0, done, trades, |done|);
    FoldPassedAt(add, 0, trades, |trades|, |done|);
  }

  lemma {:induction false} TotalsContinue(account: Account, b: Book, claimed: Book)
    requires TotalsScanned(account, b) && SumsPass(claimed)
    requires b.trades <= claimed.trades && |b.trades| < |claimed.trades|
    ensures TotalsFit(account, b, claimed.trades[|b.trades|])
  {
    NextTotalFits(AddFee, b.trades, claimed.trades, b.totalFees);
    NextTotalFits(AddStampDuty, b.trades, claimed.trades, b.totalStampDuty);
    NextTotalFits(AddSlippage, b.trades, claimed.trades, b.totalSlippage);
  }

  lemma {:induction false} TradesOfPrefix(xs: seq<TradeRecord>, ys: seq<TradeRecord>, session: nat)
    requires xs <= ys
    ensures TradesOf(xs, session) <= TradesOf(ys, session)
  {
    if |xs| < |ys| {
      assert xs <= ys[..|ys| - 1];
      TradesOfPrefix(xs, ys[..|ys| - 1], session);
    } else {
      assert xs == ys;
    }
  }

  ghost predicate AllBefore(trades: seq<TradeRecord>, session: nat) {
    forall i :: 0 <= i < |trades| ==> TradeSession(trades[i]) < session
  }

  /** The next trade of the list is the next of its session. */
  lemma {:induction false} NextInSession(trades: seq<TradeRecord>, start: seq<TradeRecord>, done: seq<TradeRecord>,
      session: nat)
    requires done <= trades && |done| < |trades| && Grows(start, done, TradeSession, session)
    requires AllBefore(start, session) && TradeSession(trades[|done|]) == session
    ensures var fills, j := TradesOf(trades, session), |done| - |start|;
            j < |fills| && fills[j] == trades[|done|]
  {
    var more := done + [trades[|done|]];
    assert more <= trades;
    GrowsByOne(start, done, trades[|done|], TradeSession, session);
    TradesOfGrows(start, more, session, session);
    TradesOfPrefix(more, trades, session);
    assert TradesOf(more, session)[|done| - |start|] == more[|done|];
  }

  lemma {:induction false} LedgerTradesGrow(account: Account, s: LedgerScan, fills: seq<TradeRecord>, j: nat, n: nat)
    requires j <= n <= |fills| && Fold(LedgerTradeStep(account), s, fills, 0, n).Ok?
    ensures Fold(LedgerTradeStep(account), s, fills, 0, j).Ok?
    ensures Fold(LedgerTradeStep(account), s, fills, 0, j).value.cashLedger
            <= Fold(LedgerTradeStep(account), s, fills, 0, n).value.cashLedger
  {
    if j < n { LedgerTradesGrow(account, s, fills, j, n - 1); }
  }

  /** The ledger fold of a bar's trades and where it ends in the accepted ledger. */
  ghost predicate LedgerLeads(account: Account, start: LedgerScan, fills: seq<TradeRecord>, ledger: seq<CashRecord>) {
    var r := Fold(LedgerTradeStep(account), start, fills, 0, |fills|);
    r.Ok? && r.value.cashLedger <= ledger
  }

  /** The engine in the middle of a bar, beside the order scan and the ledger of the
      accepted trades. */
  ghost predicate Midway(input: Input, bars: seq<Bar>, claimed: Book, start: State, bar: Bar, st: State, s: OrderScan) {
    && Alongside(input, bars, claimed.trades, claimed.positions, st, s)
    && RecordsGrow(start.book, st.book, bar.seqNo) && st.curve == start.curve
    && InI128(MoneyOf(input.account, st.book))
    && LedgerKeepsUp(input.account, claimed, start.book, bar.seqNo, st.book)
  }

  ghost predicate LedgerKeepsUp(account: Account, claimed: Book, start: Book, session: nat, b: Book) {
    var fills, j := TradesOf(claimed.trades, session), |b.trades| - |start.trades|;
    0 <= j <= |fills|
    && Fold(LedgerTradeStep(account), LedgerOf(account, start), fills, 0, j) == Ok(LedgerOf(account, b))
  }

  /** What the accepted records say about the next trade. */
  ghost predicate NextIs(account: Account, claimed: Book, b: Book, trade: TradeRecord) {
    && |b.trades| < |claimed.trades| && claimed.trades[|b.trades|] == trade
    && LedgerTrade(account, LedgerOf(account, b), trade).Ok?
    && LedgerTrade(account, LedgerOf(account, b), trade).value.cashLedger <= claimed.cashLedger
  }

  lemma {:induction false} NextLedgerTrade(account: Account, s: LedgerScan, fills: seq<TradeRecord>, j: nat,
      at: LedgerScan, ledger: seq<CashRecord>)
    requires j < |fills| && Fold(LedgerTradeStep(account), s, fills, 0, j) == Ok(at)
    requires LedgerLeads(account, s, fills, ledger)
    ensures Fold(LedgerTradeStep(account), s, fills, 0, j + 1) == LedgerTrade(account, at, fills[j])
    ensures LedgerTrade(account, at, fills[j]).Ok? && LedgerTrade(account, at, fills[j]).value.cashLedger <= ledger
  {
    LedgerTradesGrow(account, s, fills, j + 1, |fills|);
  }

  lemma {:induction false} NextOfLedger(account: Account, claimed: Book, start: Book, session: nat, b: Book)
    requires b.trades <= claimed.trades && |b.trades| < |claimed.trades|
    requires TradeSession(claimed.trades[|b.trades|]) == session
    requires Grows(start.trades, b.trades, TradeSession, session) && AllBefore(start.trades, session)
    requires LedgerKeepsUp(account, claimed, start, session, b)
    requires LedgerLeads(account, LedgerOf(account, start), TradesOf(claimed.trades, session), claimed.cashLedger)
    ensures NextIs(account, claimed, b, claimed.trades[|b.trades|])
    ensures var fills, j := TradesOf(claimed.trades, session), |b.trades| - |start.trades|;
            j < |fills| && Fold(LedgerTradeStep(account), LedgerOf(account, start), fills, 0, j + 1)
                           == LedgerTrade(account, LedgerOf(account, b), claimed.trades[|b.trades|])
  {
    NextInSession(claimed.trades, start.trades, b.trades, session);
    NextLedgerTrade(account, LedgerOf(account, start), TradesOf(claimed.trades, session),
                    |b.trades| - |start.trades|, LedgerOf(account, b), claimed.cashLedger);
  }

  /** Its ledger record fits against the engine's own money. */
  lemma {:induction false} NextFits(input: Input, session: nat, claimed: Book, b: Book, t: Intent, fill: Fill, c: Costs)
    requires EngineFits(input.account, claimed.trades, claimed.cashLedger) && LastValues(input.account, b)
    requires CostsOf(input.account, t, fill) == Ok(c)
    requires input.account.model == LinearPerp && t.effect == Close ==> b.entry.Some?
    requires NextIs(input.account, claimed, b, TradeOf(t, session, fill, c))
    ensures TradeFits(input.account, TradeOf(t, session, fill, c), MoneyOf(input.account, b),
                      RealizedBy(input.account, b, t, fill))
  {
    var account, n, m := input.account, |b.trades|, |b.cashLedger|;
    LedgerGives(account, session, b, t, fill, c);
    var ledger := LedgerTrade(account, LedgerOf(account, b), TradeOf(t, session, fill, c)).value.cashLedger;
    assert claimed.cashLedger[m] == ledger[m] && claimed.cashLedger[..m] == b.cashLedger;
    assert CashBefore(claimed.cashLedger, account.startingBalance, m)
           == LastCash(b.cashLedger, account.startingBalance) by {
      if m > 0 { assert claimed.cashLedger[m - 1] == claimed.cashLedger[..m][m - 1]; }
    }
    assert claimed.cashLedger[m].source == FromIntent(claimed.trades[n].id);
  }

  lemma {:induction false} PerpCloseHasEntry(s: TradeScan, b: Book, t: Intent, fill: Fill)
    requires Mirrors(s, b) && ScanPerp(s, t, fill).Ok? && t.effect == Close
    ensures b.entry.Some?
  {
  }

  /** The engine books the next accepted trade, and its ledger keeps up. */
  lemma {:induction false} NextIsBookedToo(input: Input, bars: seq<Bar>, claimed: Book, bar: Bar, b: Book, t: Intent,
      fill: Fill)
    requires |claimed.trades| == |claimed.positions| && b.trades <= claimed.trades && b.positions <= claimed.positions
    requires Fold(TradeCheck(input, bars), EMPTY_SCAN, Zip(claimed.trades, claimed.positions), 0, |claimed.trades|).Ok?
    requires TradesScanned(input, bars, b) && TotalsScanned(input.account, b) && LastValues(input.account, b)
    requires Fills(input, bars, bar, t, fill) && |b.trades| < |claimed.trades|
    requires claimed.trades[|b.trades|].id == t.id && claimed.trades[|b.trades|].session == bar.seqNo
    requires NextIs(input.account, claimed, b, claimed.trades[|b.trades|])
    requires SumsPass(claimed) && EngineFits(input.account, claimed.trades, claimed.cashLedger)
    requires InI128(MoneyOf(input.account, b))
    ensures BookFill(input.account, bar.seqNo, b, t, fill).Ok?
    ensures CostsOf(input.account, t, fill).Ok?
    ensures claimed.trades[|b.trades|] == TradeOf(t, bar.seqNo, fill, CostsOf(input.account, t, fill).value)
  {
    var account, n := input.account, |b.trades|;
    ScanStandsThere(input, bars, claimed.trades, claimed.positions, b);
    var s, trade, position := ScanTrades(input, bars, b).value, claimed.trades[n], claimed.positions[n];
    TotalsContinue(account, b, claimed);
    var c := CostsOf(account, t, fill).value;
    assert trade == TradeOf(t, bar.seqNo, fill, c);
    if account.model == LinearPerp && t.effect == Close { PerpCloseHasEntry(s, b, t, fill); }
    NextFits(input, bar.seqNo, claimed, b, t, fill, c);
    BooksExactly(input, bars, bar, s, b, t, fill, trade, position);
  }

  /** The ledger of a session's accepted trades, one trade on. */
  ghost predicate LedgerGoesOn(account: Account, claimed: Book, start: Book, session: nat, b: Book,
      trade: TradeRecord) {
    var fills, j := TradesOf(claimed.trades, session), |b.trades| - |start.trades|;
    && 0 <= j < |fills| && LedgerTrade(account, LedgerOf(account, b), trade).Ok?
    && Fold(LedgerTradeStep(account), LedgerOf(account, start), fills, 0, j + 1)
       == LedgerTrade(account, LedgerOf(account, b), trade)
  }

  /** The scanned fill is the next accepted trade, and the engine books it. */
  lemma {:induction false} FillIsBooked(input: Input, bars: seq<Bar>, claimed: Book, final: OrderScan, start: Book,
      bar: Bar, st: State, s: OrderScan, t: Intent, fill: Fill)
    requires Claimed(input, bars, claimed.trades, claimed.positions, final) && Fills(input, bars, bar, t, fill)
    requires Alongside(input, bars, claimed.trades, claimed.positions, st, s) && InI128(MoneyOf(input.account, st.book))
    requires RecordsGrow(start, st.book, bar.seqNo) && LedgerKeepsUp(input.account, claimed, start, bar.seqNo, st.book)
    requires st.log.orders + [OrderOf(t, Filled, Some(bar.seqNo), Some(fill.phase))] <= final.log.orders
    requires TradeById(claimed.trades, t.id).Some? && TradeById(claimed.trades, t.id).value.session == bar.seqNo
    requires AllBefore(start.trades, bar.seqNo) && SumsPass(claimed)
    requires EngineFits(input.account, claimed.trades, claimed.cashLedger)
    requires LedgerLeads(input.account, LedgerOf(input.account, start), TradesOf(claimed.trades, bar.seqNo),
                         claimed.cashLedger)
    ensures BookFill(input.account, bar.seqNo, st.book, t, fill).Ok? && CostsOf(input.account, t, fill).Ok?
    ensures LedgerGoesOn(input.account, claimed, start, bar.seqNo, st.book,
                         TradeOf(t, bar.seqNo, fill, CostsOf(input.account, t, fill).value))
  {
    var account, b := input.account, st.book;
    NextTrade(claimed.trades, b.trades, st.log.orders, OrderOf(t, Filled, Some(bar.seqNo), Some(fill.phase)),
              final.log.orders);
    NextOfLedger(account, claimed, start, bar.seqNo, b);
    NextIsBookedToo(input, bars, claimed, bar, b, t, fill);
  }

  lemma {:induction false} LedgerWentOn(account: Account, claimed: Book, start: Book, session: nat, b: Book, t: Intent,
      fill: Fill)
    requires BookFill(account, session, b, t, fill).Ok? && CostsOf(account, t, fill).Ok?
    requires LedgerGoesOn(account, claimed, start, session, b,
                          TradeOf(t, session, fill, CostsOf(account, t, fill).value))
    ensures LedgerKeepsUp(account, claimed, start, session, BookFill(account, session, b, t, fill).value)
  {
    FillLedger(account, session, b, t, fill);
    TradeMirrors(account, session, b, t, fill);
  }

  lemma {:induction false} MoneyStays(account: Account, session: nat, b: Book, t: Intent, fill: Fill)
    requires BookFill(account, session, b, t, fill).Ok?
    ensures InI128(MoneyOf(account, BookFill(account, session, b, t, fill).value))
  {
    FillLedger(account, session, b, t, fill);
    MoneyAfter(account, session, b, t, fill, CostsOf(account, t, fill).value);
  }

  lemma {:induction false} FillMidway(input: Input, bars: seq<Bar>, claimed: Book, final: OrderScan, start: State,
      bar: Bar, st: State, s: OrderScan, t: Intent, fill: Fill)
    requires Claimed(input, bars, claimed.trades, claimed.positions, final) && Fills(input, bars, bar, t, fill)
    requires Midway(input, bars, claimed, start, bar, st, s)
    requires st.log.orders + [OrderOf(t, Filled, Some(bar.seqNo), Some(fill.phase))] <= final.log.orders
    requires TradeById(claimed.trades, t.id).Some? && TradeById(claimed.trades, t.id).value.session == bar.seqNo
    requires AllBefore(start.book.trades, bar.seqNo) && SumsPass(claimed)
    requires EngineFits(input.account, claimed.trades, claimed.cashLedger)
    requires LedgerLeads(input.account, LedgerOf(input.account, start.book), TradesOf(claimed.trades, bar.seqNo),
                         claimed.cashLedger)
    ensures BookFill(input.account, bar.seqNo, st.book, t, fill).Ok?
    ensures var next := BookFill(input.account, bar.seqNo, st.book, t, fill).value;
            && RecordsGrow(start.book, next, bar.seqNo) && InI128(MoneyOf(input.account, next))
            && LedgerKeepsUp(input.account, claimed, start.book, bar.seqNo, next)
  {
    FillIsBooked(input, bars, claimed, final, start.book, bar, st, s, t, fill);
    FillGrows(start.book, input.account, bar.seqNo, st.book, t, fill);
    LedgerWentOn(input.account, claimed, start.book, bar.seqNo, st.book, t, fill);
    MoneyStays(input.account, bar.seqNo, st.book, t, fill);
  }

  /** What a bar needs of the accepted records. */
  ghost predicate Prepared(input: Input, bars: seq<Bar>, claimed: Book, final: OrderScan, start: State, bar: Bar) {
    && Claimed(input, bars, claimed.trades, claimed.positions, final) && BarBySession(bars, bar.seqNo) == Some(bar)
    && AllBefore(start.book.trades, bar.seqNo) && SumsPass(claimed)
    && EngineFits(input.account, claimed.trades, claimed.cashLedger)
    && LedgerLeads(input.account, LedgerOf(input.account, start.book), TradesOf(claimed.trades, bar.seqNo),
                   claimed.cashLedger)
  }

  lemma {:induction false} ScannedFill(account: Account, bar: Bar, trades: seq<TradeRecord>, s: OrderScan, t: Intent,
      fill: Fill)
    requires !OcoDone(s.log, t) && FillDecision(account, bar, t) == Ok(Some(fill))
    requires ScanIntent(account, bar, trades, s, t).Ok?
    ensures TradeById(trades, t.id).Some? && TradeById(trades, t.id).value.session == bar.seqNo
    ensures ScanIntent(account, bar, trades, s, t).value.log.orders
            == s.log.orders + [OrderOf(t, Filled, Some(bar.seqNo), Some(fill.phase))]
  {
  }

  lemma {:induction false} IntentMidway(input: Input, bars: seq<Bar>, claimed: Book, final: OrderScan, start: State,
      bar: Bar, st: State, s: OrderScan, t: Intent)
    requires ValidTape(input.intents, input.account) && t in input.intents && Live(t, bar.seqNo)
    requires Prepared(input, bars, claimed, final, start, bar)
    requires Midway(input, bars, claimed, start, bar, st, s) && t.id !in s.log.completed
    requires ScanIntent(input.account, bar, claimed.trades, s, t).Ok?
    requires ScanIntent(input.account, bar, claimed.trades, s, t).value.log.orders <= final.log.orders
    ensures ProcessIntent(input.account, bar, st, t).Ok?
    ensures Midway(input, bars, claimed, start, bar, ProcessIntent(input.account, bar, st, t).value,
                   ScanIntent(input.account, bar, claimed.trades, s, t).value)
  {
    IntentIsFound(input.intents, t);
    if !OcoDone(s.log, t) && FillDecision(input.account, bar, t).value.Some? {
      var fill := FillDecision(input.account, bar, t).value.value;
      ScannedFill(input.account, bar, claimed.trades, s, t, fill);
      FillMidway(input, bars, claimed, final, start, bar, st, s, t, fill);
    }
    IntentAlongside(input, bars, claimed.trades, claimed.positions, final, bar, st, s, t);
    IntentParts(input.account, bar, st, t);
  }

  /** The engine has processed n intents of the bar and stands midway, as long as the scan
      leads to the final one. */
  ghost predicate ReachesMidway(input: Input, bars: seq<Bar>, claimed: Book, final: OrderScan, start: State, bar: Bar,
      due: seq<Intent>, s: OrderScan, n: nat)
    requires n <= |due|
  {
    var st, scanned := ProcessIntents(input.account, bar, start, due, n),
                       Fold(IntentCheck(input.account, bar, claimed.trades), s, due, 0, n);
    scanned.Ok? && scanned.value.log.orders <= final.log.orders ==>
      st.Ok? && Midway(input, bars, claimed, start, bar, st.value, scanned.value)
  }

  lemma {:induction false} IntentGoesMidway(input: Input, bars: seq<Bar>, claimed: Book, final: OrderScan, start: State,
      bar: Bar, reached: Result<State>, s: OrderScan, t: Intent, next: Result<State>, scanned: OrderScan)
    requires ValidTape(input.intents, input.account) && t in input.intents && Live(t, bar.seqNo)
    requires Prepared(input, bars, claimed, final, start, bar)
    requires reached.Ok? && Midway(input, bars, claimed, start, bar, reached.value, s) && t.id !in s.log.completed
    requires ScanIntent(input.account, bar, claimed.trades, s, t) == Ok(scanned)
    requires scanned.log.orders <= final.log.orders
    requires AfterIntent(input.account, bar, reached, t) == next
    ensures next.Ok? && Midway(input, bars, claimed, start, bar, next.value, scanned)
  {
    IntentMidway(input, bars, claimed, final, start, bar, reached.value, s, t);
  }

  lemma {:induction false} IntentsMidwayNext(input: Input, bars: seq<Bar>, claimed: Book, final: OrderScan,
      start: State, bar: Bar, s: OrderScan, due: seq<Intent>, n: nat)
    requires ValidTape(input.intents, input.account) && 0 < n <= |due| && Waiting(input.intents, s.log, bar.seqNo, due)
    requires Prepared(input, bars, claimed, final, start, bar)
    requires ReachesMidway(input, bars, claimed, final, start, bar, due, s, n - 1)
    ensures ReachesMidway(input, bars, claimed, final, start, bar, due, s, n)
  {
    var scanned := Fold(IntentCheck(input.account, bar, claimed.trades), s, due, 0, n);
    if scanned.Ok? && scanned.value.log.orders <= final.log.orders {
      LastTurn(input, claimed.trades, final, bar, start, s, due, n);
      IntentGoesMidway(input, bars, claimed, final, start, bar, ProcessIntents(input.account, bar, start, due, n - 1),
                       Fold(IntentCheck(input.account, bar, claimed.trades), s, due, 0, n - 1).value, due[n - 1],
                       ProcessIntents(input.account, bar, start, due, n), scanned.value);
    }
  }

  lemma {:induction false} IntentsMidway(input: Input, bars: seq<Bar>, claimed: Book, final: OrderScan, start: State,
      bar: Bar, s: OrderScan, due: seq<Intent>, n: nat)
    requires ValidTape(input.intents, input.account) && n <= |due| && Waiting(input.intents, s.log, bar.seqNo, due)
    requires Prepared(input, bars, claimed, final, start, bar) && Midway(input, bars, claimed, start, bar, start, s)
    ensures ReachesMidway(input, bars, claimed, final, start, bar, due, s, n)
  {
    if n > 0 {
      IntentsMidway(input, bars, claimed, final, start, bar, s, due, n - 1);
      IntentsMidwayNext(input, bars, claimed, final, start, bar, s, due, n);
    }
  }

  lemma {:induction false} BarMidway(input: Input, bars: seq<Bar>, claimed: Book, final: OrderScan, start: State,
      bar: Bar, s: OrderScan)
    requires ValidTape(input.intents, input.account) && Prepared(input, bars, claimed, final, start, bar)
    requires Midway(input, bars, claimed, start, bar, start, s)
    requires ScanBar(input, claimed.trades, s, bar).Ok?
    requires ScanBar(input, claimed.trades, s, bar).value.log.orders <= final.log.orders
    ensures var due := Schedule(input.intents, start.log.completed, bar.seqNo);
            && ProcessIntents(input.account, bar, start, due, |due|).Ok?
            && Midway(input, bars, claimed, start, bar, ProcessIntents(input.account, bar, start, due, |due|).value,
                      ScanBar(input, claimed.trades, s, bar).value)
  {
    ScheduleWaits(input.intents, s.log, bar.seqNo);
    var due := Schedule(input.intents, s.log.completed, bar.seqNo);
    IntentsMidway(input, bars, claimed, final, start, bar, s, due, |due|);
  }

  // ---- later records of the accepted lists ----

  lemma {:induction false} TradesOfOutlasts(xs: seq<TradeRecord>, ys: seq<TradeRecord>, session: nat)
    requires Outlasts(xs, ys, TradeSession, session)
    ensures TradesOf(ys, session) == TradesOf(xs, session)
  {
    if |xs| < |ys| {
      assert ys[..|ys| - 1][..|xs|] == xs;
      TradesOfOutlasts(xs, ys[..|ys| - 1], session);
      assert TradeSession(ys[|ys| - 1]) > session;
    } else {
      assert xs == ys;
    }
  }

  function EventSession(e: Event): nat { e.session }

  lemma {:induction false} OutcomeOrder(log: OrderLog, t: Intent, session: nat, next: OrderLog)
    requires Outcome(log, t, session, next) && next.orders != log.orders
    ensures |next.orders| == |log.orders| + 1 && next.orders == log.orders + [next.orders[|log.orders|]]
    ensures var o := next.orders[|log.orders|];
            o.id == t.id && (o.status == Filled ==> o.filledSession == Some(session))
  {
  }

  lemma {:induction false} EventsGrow(intents: seq<Intent>, start: seq<Event>, orders: seq<OrderRecord>, t: Intent,
      o: OrderRecord, session: nat)
    requires UniqueIds(intents) && t in intents && o.id == t.id
    requires o.status == Filled ==> o.filledSession == Some(session)
    requires Grows(start, FillEvents(orders, intents), EventSession, session)
    ensures Grows(start, FillEvents(orders + [o], intents), EventSession, session)
  {
    EventsAppend(orders, t, o, intents);
    if o.status == Filled { GrowsByOne(start, FillEvents(orders, intents), Event(session, t), EventSession, session); }
  }

  lemma {:induction false} OutcomeGrowsEvents(intents: seq<Intent>, start: seq<Event>, log: OrderLog, t: Intent,
      session: nat, next: OrderLog)
    requires UniqueIds(intents) && t in intents && Outcome(log, t, session, next)
    requires Grows(start, FillEvents(log.orders, intents), EventSession, session)
    ensures Grows(start, FillEvents(next.orders, intents), EventSession, session)
  {
    if next.orders != log.orders {
      OutcomeOrder(log, t, session, next);
      EventsGrow(intents, start, log.orders, t, next.orders[|log.orders|], session);
    }
  }

  lemma {:induction false} ScanGrowsEvents(input: Input, trades: seq<TradeRecord>, s: OrderScan, bar: Bar,
      due: seq<Intent>, n: nat)
    requires UniqueIds(input.intents) && n <= |due| && forall j :: 0 <= j < |due| ==> due[j] in input.intents
    requires Fold(IntentCheck(input.account, bar, trades), s, due, 0, n).Ok?
    ensures Grows(FillEvents(s.log.orders, input.intents),
                  FillEvents(Fold(IntentCheck(input.account, bar, trades), s, due, 0, n).value.log.orders,
                             input.intents),
                  EventSession, bar.seqNo)
  {
    if n > 0 {
      ScanGrowsEvents(input, trades, s, bar, due, n - 1);
      var before := Fold(IntentCheck(input.account, bar, trades), s, due, 0, n - 1).value;
      ScanIsOutcome(input.account, bar, trades, before, due[n - 1]);
      OutcomeGrowsEvents(input.intents, FillEvents(s.log.orders, input.intents), before.log, due[n - 1], bar.seqNo,
                         ScanIntent(input.account, bar, trades, before, due[n - 1]).value.log);
    }
  }

  lemma {:induction false} ScanBarGrowsEvents(input: Input, trades: seq<TradeRecord>, s: OrderScan, bar: Bar)
    requires UniqueIds(input.intents) && ScanBar(input, trades, s, bar).Ok?
    ensures Grows(FillEvents(s.log.orders, input.intents),
                  FillEvents(ScanBar(input, trades, s, bar).value.log.orders, input.intents), EventSession, bar.seqNo)
  {
    var due := Schedule(input.intents, s.log.completed, bar.seqNo);
    ScheduleIs(input.intents, s.log.completed, bar.seqNo);
    forall j | 0 <= j < |due| ensures due[j] in input.intents { assert due[j] in due; }
    ScanGrowsEvents(input, trades, s, bar, due, |due|);
  }

  lemma {:induction false} OutlastsOnce<T>(xs: seq<T>, ys: seq<T>, zs: seq<T>, sessionOf: T -> nat, session: nat,
      later: nat)
    requires Outlasts(xs, ys, sessionOf, session) && Grows(ys, zs, sessionOf, later) && session < later
    ensures Outlasts(xs, zs, sessionOf, session)
  {
    assert zs[..|xs|] == zs[..|ys|][..|xs|];
    forall i | |xs| <= i < |zs| ensures sessionOf(zs[i]) > session {
      if i < |ys| { assert zs[i] == ys[i]; }
    }
  }

  /** The fills the order scan has found after i bars. */
  ghost function EventsBy(input: Input, trades: seq<TradeRecord>, bars: seq<Bar>, i: nat): seq<Event>
    requires i <= |bars|
  {
    var r := Fold(BarCheck(input, trades), EMPTY_ORDER_SCAN, bars, 0, i);
    if r.Ok? then FillEvents(r.value.log.orders, input.intents) else []
  }

  lemma {:induction false} NextEvents(input: Input, trades: seq<TradeRecord>, bars: seq<Bar>, k: nat)
    requires UniqueIds(input.intents) && 0 < k <= |bars|
    requires Fold(BarCheck(input, trades), EMPTY_ORDER_SCAN, bars, 0, k).Ok?
    ensures Grows(EventsBy(input, trades, bars, k - 1), EventsBy(input, trades, bars, k), EventSession,
                  bars[k - 1].seqNo)
  {
    ScanBarGrowsEvents(input, trades, Fold(BarCheck(input, trades), EMPTY_ORDER_SCAN, bars, 0, k - 1).value,
                       bars[k - 1]);
  }

  lemma {:induction false} LaterEventsNext(input: Input, trades: seq<TradeRecord>, bars: seq<Bar>, i: nat, k: nat)
    requires UniqueIds(input.intents) && IncreasingBars(bars) && 0 < i < k <= |bars|
    requires Fold(BarCheck(input, trades), EMPTY_ORDER_SCAN, bars, 0, k).Ok?
    requires Outlasts(EventsBy(input, trades, bars, i), EventsBy(input, trades, bars, k - 1), EventSession,
                      bars[i - 1].seqNo)
    ensures Outlasts(EventsBy(input, trades, bars, i), EventsBy(input, trades, bars, k), EventSession,
                     bars[i - 1].seqNo)
  {
    NextEvents(input, trades, bars, k);
    BarsIncrease(bars, i - 1, k - 1);
    OutlastsOnce(EventsBy(input, trades, bars, i), EventsBy(input, trades, bars, k - 1),
                 EventsBy(input, trades, bars, k), EventSession, bars[i - 1].seqNo, bars[k - 1].seqNo);
  }

  lemma {:induction false} LaterEvents(input: Input, trades: seq<TradeRecord>, bars: seq<Bar>, i: nat, k: nat)
    requires UniqueIds(input.intents) && IncreasingBars(bars) && 0 < i <= k <= |bars|
    requires Fold(BarCheck(input, trades), EMPTY_ORDER_SCAN, bars, 0, k).Ok?
    ensures Outlasts(EventsBy(input, trades, bars, i), EventsBy(input, trades, bars, k), EventSession,
                     bars[i - 1].seqNo)
  {
    if i < k {
      BarsScanGrows(input, trades, bars, k - 1, k);
      LaterEvents(input, trades, bars, i, k - 1);
      LaterEventsNext(input, trades, bars, i, k);
    }
  }

  /** The accepted trades behind the engine's own are of later sessions. */
  lemma {:induction false} TradesOutlast(intents: seq<Intent>, trades: seq<TradeRecord>, final: seq<OrderRecord>,
      st: State, session: nat)
    requires KnownTrades(intents, trades) && FillEvents(final, intents) == TradeEvents(trades, intents)
    requires st.book.trades <= trades && |FillEvents(st.log.orders, intents)| == |st.book.trades|
    requires Outlasts(FillEvents(st.log.orders, intents), FillEvents(final, intents), EventSession, session)
    ensures Outlasts(st.book.trades, trades, TradeSession, session)
  {
    TradeEventsAre(intents, trades);
    forall i | |st.book.trades| <= i < |trades| ensures TradeSession(trades[i]) > session {
      assert EventSession(FillEvents(final, intents)[i]) > session;
    }
  }

  lemma {:induction false} PositionsOutlast(input: Input, bars: seq<Bar>, claimed: Book, b: Book, session: nat)
    requires |claimed.trades| == |claimed.positions| && |b.trades| == |b.positions| && b.positions <= claimed.positions
    requires Fold(TradeCheck(input, bars), EMPTY_SCAN, Zip(claimed.trades, claimed.positions), 0, |claimed.trades|).Ok?
    requires Outlasts(b.trades, claimed.trades, TradeSession, session)
    ensures Outlasts(b.positions, claimed.positions, PositionSession, session)
  {
    forall i | |b.positions| <= i < |claimed.positions| ensures PositionSession(claimed.positions[i]) > session {
      FoldPassedAt(TradeCheck(input, bars), EMPTY_SCAN, Zip(claimed.trades, claimed.positions), |claimed.trades|, i);
      assert TradeSession(claimed.trades[i]) > session;
      BarIsOfSession(bars, claimed.trades[i].session);
    }
  }

  lemma {:induction false} BarIsOfSession(bars: seq<Bar>, session: nat)
    ensures BarBySession(bars, session).Some? ==> BarBySession(bars, session).value.seqNo == session
  {
    if bars != [] && bars[0].seqNo != session { BarIsOfSession(bars[1..], session); }
  }

  lemma {:induction false} TradesOfAre(trades: seq<TradeRecord>, session: nat)
    ensures forall i :: 0 <= i < |TradesOf(trades, session)| ==> TradeSession(TradesOf(trades, session)[i]) == session
  {
    if trades != [] { TradesOfAre(trades[..|trades| - 1], session); }
  }

  lemma {:induction false} LedgerTradesAdd(account: Account, s: LedgerScan, fills: seq<TradeRecord>, n: nat,
      session: nat)
    requires n <= |fills| && Fold(LedgerTradeStep(account), s, fills, 0, n).Ok?
    requires forall i :: 0 <= i < |fills| ==> TradeSession(fills[i]) == session
    ensures Grows(s.cashLedger, Fold(LedgerTradeStep(account), s, fills, 0, n).value.cashLedger, CashSession, session)
  {
    if n > 0 {
      LedgerTradesAdd(account, s, fills, n - 1, session);
      var before, after := Fold(LedgerTradeStep(account), s, fills, 0, n - 1).value,
                           Fold(LedgerTradeStep(account), s, fills, 0, n).value;
      assert TradeSession(fills[n - 1]) == session;
      GrowsByOne(s.cashLedger, before.cashLedger, after.cashLedger[|before.cashLedger|], CashSession, session);
    }
  }

  lemma {:induction false} LedgerFundingsAdd(account: Account, s: LedgerScan, events: seq<FundingEvent>, n: nat,
      start: seq<CashRecord>, session: nat)
    requires n <= |events| && Fold(LedgerFundingStep(account), s, events, 0, n).Ok?
    requires forall i :: 0 <= i < |events| ==> events[i].key.session == session
    requires Grows(start, s.cashLedger, CashSession, session)
    ensures Grows(start, Fold(LedgerFundingStep(account), s, events, 0, n).value.cashLedger, CashSession, session)
    ensures s.cashLedger <= Fold(LedgerFundingStep(account), s, events, 0, n).value.cashLedger
  {
    if n > 0 {
      LedgerFundingsAdd(account, s, events, n - 1, start, session);
      var before := Fold(LedgerFundingStep(account), s, events, 0, n - 1).value;
      var after := Fold(LedgerFundingStep(account), s, events, 0, n).value;
      assert events[n - 1].key.session == session;
      GrowsByOne(start, before.cashLedger, after.cashLedger[|before.cashLedger|], CashSession, session);
    }
  }

  /** A bar of the ledger adds records of its session, those of its trades first. */
  lemma {:induction false} LedgerBarAdds(input: Input, trades: seq<TradeRecord>, s: LedgerScan, bar: Bar)
    requires LedgerBar(input, trades, s, bar).Ok?
    ensures Grows(s.cashLedger, LedgerBar(input, trades, s, bar).value.cashLedger, CashSession, bar.seqNo)
    ensures LedgerLeads(input.account, s, TradesOf(trades, bar.seqNo),
                        LedgerBar(input, trades, s, bar).value.cashLedger)
  {
    var fills, events := TradesOf(trades, bar.seqNo), FundingFor(input.funding, bar.seqNo);
    TradesOfAre(trades, bar.seqNo);
    LedgerTradesAdd(input.account, s, fills, |fills|, bar.seqNo);
    FundingForAre(input.funding, bar.seqNo);
    forall i | 0 <= i < |events| ensures events[i].key.session == bar.seqNo { assert events[i] in events; }
    LedgerFundingsAdd(input.account, Fold(LedgerTradeStep(input.account), s, fills, 0, |fills|).value, events, |events|,
                      s.cashLedger, bar.seqNo);
  }

  function LedgerAt(input: Input, bars: seq<Bar>, trades: seq<TradeRecord>, i: nat): Result<LedgerScan>
    requires i <= |bars|
  {
    Fold(LedgerBarStep(input, trades), EmptyLedger(input.account), bars, 0, i)
  }

  /** The cash records rebuilt after i bars. */
  ghost function CashBy(input: Input, trades: seq<TradeRecord>, bars: seq<Bar>, i: nat): seq<CashRecord>
    requires i <= |bars|
  {
    var r := LedgerAt(input, bars, trades, i);
    if r.Ok? then r.value.cashLedger else []
  }

  lemma {:induction false} NextLedger(input: Input, trades: seq<TradeRecord>, bars: seq<Bar>, k: nat)
    requires 0 < k <= |bars| && LedgerAt(input, bars, trades, k).Ok?
    ensures LedgerAt(input, bars, trades, k - 1).Ok?
    ensures Grows(CashBy(input, trades, bars, k - 1), CashBy(input, trades, bars, k), CashSession, bars[k - 1].seqNo)
  {
    LedgerBarAdds(input, trades, LedgerAt(input, bars, trades, k - 1).value, bars[k - 1]);
  }

  lemma {:induction false} LaterLedgerNext(input: Input, trades: seq<TradeRecord>, bars: seq<Bar>, i: nat, k: nat)
    requires IncreasingBars(bars) && 0 < i < k <= |bars| && LedgerAt(input, bars, trades, k).Ok?
    requires Outlasts(CashBy(input, trades, bars, i), CashBy(input, trades, bars, k - 1), CashSession,
                      bars[i - 1].seqNo)
    ensures Outlasts(CashBy(input, trades, bars, i), CashBy(input, trades, bars, k), CashSession, bars[i - 1].seqNo)
  {
    NextLedger(input, trades, bars, k);
    BarsIncrease(bars, i - 1, k - 1);
    OutlastsOnce(CashBy(input, trades, bars, i), CashBy(input, trades, bars, k - 1), CashBy(input, trades, bars, k),
                 CashSession, bars[i - 1].seqNo, bars[k - 1].seqNo);
  }

  lemma {:induction false} EarlierLedgerPassed(input: Input, trades: seq<TradeRecord>, bars: seq<Bar>, i: nat, k: nat)
    requires i <= k <= |bars| && LedgerAt(input, bars, trades, k).Ok?
    ensures LedgerAt(input, bars, trades, i).Ok?
  {
    if LedgerAt(input, bars, trades, i).Err? {
      FoldStops(LedgerBarStep(input, trades), EmptyLedger(input.account), bars, 0, i, k);
    }
  }

  lemma {:induction false} LaterLedger(input: Input, trades: seq<TradeRecord>, bars: seq<Bar>, i: nat, k: nat)
    requires IncreasingBars(bars) && 0 < i <= k <= |bars| && LedgerAt(input, bars, trades, k).Ok?
    ensures Outlasts(CashBy(input, trades, bars, i), CashBy(input, trades, bars, k), CashSession, bars[i - 1].seqNo)
  {
    if i < k {
      EarlierLedgerPassed(input, trades, bars, k - 1, k);
      LaterLedger(input, trades, bars, i, k - 1);
      LaterLedgerNext(input, trades, bars, i, k);
    }
  }

  // ---- funding and marking ----

  lemma {:induction false} FundingFollows(account: Account, b: Book, event: FundingEvent)
    requires account.model == LinearPerp && LedgerFunding(account, LedgerOf(account, b), event).Ok?
    ensures BookFunding(account, b, event).Ok?
  {
  }

  lemma {:induction false} FundingsFollow(account: Account, b: Book, events: seq<FundingEvent>, n: nat)
    requires account.model == LinearPerp && n <= |events|
    requires Fold(LedgerFundingStep(account), LedgerOf(account, b), events, 0, n).Ok?
    ensures BookFundings(account, b, events, n).Ok?
    ensures Fold(LedgerFundingStep(account), LedgerOf(account, b), events, 0, n)
            == Ok(LedgerOf(account, BookFundings(account, b, events, n).value))
  {
    if n > 0 {
      FundingsFollow(account, b, events, n - 1);
      var before := BookFundings(account, b, events, n - 1).value;
      FundingFollows(account, before, events[n - 1]);
      FundingMirrors(account, before, events[n - 1]);
    }
  }

  lemma {:induction false} FundingsGrow(start: Book, account: Account, session: nat, b: Book, events: seq<FundingEvent>,
      n: nat)
    requires n <= |events| && RecordsGrow(start, b, session) && BookFundings(account, b, events, n).Ok?
    requires forall i :: 0 <= i < |events| ==> events[i].key.session == session
    ensures RecordsGrow(start, BookFundings(account, b, events, n).value, session)
  {
    if n > 0 {
      FundingsGrow(start, account, session, b, events, n - 1);
      FundingGrows(start, account, session, BookFundings(account, b, events, n - 1).value, events[n - 1]);
    }
  }

  lemma {:induction false} FundingsInRange(account: Account, b: Book, events: seq<FundingEvent>, n: nat)
    requires account.model == LinearPerp && n <= |events| && InI128(b.wallet) && BookFundings(account, b, events, n).Ok?
    ensures InI128(BookFundings(account, b, events, n).value.wallet)
  {
    if n > 0 { FundingsInRange(account, b, events, n - 1); }
  }

  /** The funding of a bar passes where its ledger does. */
  lemma {:induction false} SettlementFollows(input: Input, start: Book, session: nat, b: Book)
    requires input.account.model == AShareCash ==> input.funding == []
    requires RecordsGrow(start, b, session) && InI128(MoneyOf(input.account, b))
    requires var events := FundingFor(input.funding, session);
             Fold(LedgerFundingStep(input.account), LedgerOf(input.account, b), events, 0, |events|).Ok?
    ensures SettleFunding(input, session, b).Ok?
    ensures var next, events := SettleFunding(input, session, b).value, FundingFor(input.funding, session);
            && RecordsGrow(start, next, session) && InI128(MoneyOf(input.account, next))
            && Fold(LedgerFundingStep(input.account), LedgerOf(input.account, b), events, 0, |events|)
               == Ok(LedgerOf(input.account, next))
  {
    if input.account.model == LinearPerp {
      var events := FundingFor(input.funding, session);
      FundingForAre(input.funding, session);
      forall i | 0 <= i < |events| ensures events[i].key.session == session { assert events[i] in events; }
      FundingsFollow(input.account, b, events, |events|);
      FundingsGrow(start, input.account, session, b, events, |events|);
      FundingsInRange(input.account, b, events, |events|);
    }
  }

  /** A bar is marked where the accepted points can be computed. */
  lemma {:induction false} MarkFollows(account: Account, bars: seq<Bar>, claimed: State, i: nat, b: Book, c: Curve)
    requires i < |bars| && |bars| <= |claimed.curve.equity| && |bars| <= |claimed.curve.drawdown|
    requires SessionsGood(b, Some(bars[i].seqNo)) && LastValues(account, b)
    requires RecordsOutlast(b, claimed.book, bars[i].seqNo)
    requires Fold(PointCheck(account, claimed.book), account.startingBalance, ZipPoints(bars, claimed.curve), 0,
                  |bars|).Ok?
    requires Fold(PointCheck(account, claimed.book), account.startingBalance, ZipPoints(bars, claimed.curve), 0, i)
             == Ok(c.peak)
    ensures MarkCurve(account, bars[i], b, c).Ok?
    ensures Fold(PointCheck(account, claimed.book), account.startingBalance, ZipPoints(bars, claimed.curve), 0, i + 1)
            == Ok(MarkCurve(account, bars[i], b, c).value.peak)
  {
    var points := ZipPoints(bars, claimed.curve);
    FoldPassedAt(PointCheck(account, claimed.book), account.startingBalance, points, |bars|, i);
    PointsOutlast(account, b, claimed.book, bars[i], c.peak);
    MarksExactly(account, bars[i], b, c);
    MarkIsExpected(account, bars[i], b, c);
    if i + 1 < |bars| {
      FoldPassedAt(PointCheck(account, claimed.book), account.startingBalance, points, |bars|, i + 1);
    }
  }

  // ---- the run ----

  /** Everything an accepted state says that carries the engine. */
  ghost predicate Backed(input: Input, bars: seq<Bar>, claimed: State, final: OrderScan) {
    && Claimed(input, bars, claimed.book.trades, claimed.book.positions, final)
    && KnownTrades(input.intents, claimed.book.trades)
    && FillEvents(final.log.orders, input.intents) == TradeEvents(claimed.book.trades, input.intents)
    && SumsPass(claimed.book)
    && ReconstructLedgers(input, bars, claimed.book.trades).Ok?
    && ReconstructLedgers(input, bars, claimed.book.trades).value.cashLedger == claimed.book.cashLedger
    && CurveBacked(input.account, bars, claimed)
  }

  ghost predicate CurveBacked(account: Account, bars: seq<Bar>, claimed: State) {
    && |bars| <= |claimed.curve.equity| && |bars| <= |claimed.curve.drawdown|
    && Fold(PointCheck(account, claimed.book), account.startingBalance, ZipPoints(bars, claimed.curve), 0, |bars|).Ok?
  }

  function OrdersAt(input: Input, bars: seq<Bar>, trades: seq<TradeRecord>, i: nat): Result<OrderScan>
    requires i <= |bars|
  {
    Fold(BarCheck(input, trades), EMPTY_ORDER_SCAN, bars, 0, i)
  }

  ghost predicate PeakKept(account: Account, bars: seq<Bar>, claimed: State, i: nat, c: Curve)
    requires i <= |bars|
  {
    && CurveBacked(account, bars, claimed)
    && Fold(PointCheck(account, claimed.book), account.startingBalance, ZipPoints(bars, claimed.curve), 0, i)
       == Ok(c.peak)
  }

  /** The engine after i bars, beside all the scans of the accepted state. */
  ghost predicate JointAt(input: Input, bars: seq<Bar>, claimed: State, i: nat, st: State)
    requires i <= |bars|
  {
    && OrdersAt(input, bars, claimed.book.trades, i).Ok?
    && Alongside(input, bars, claimed.book.trades, claimed.book.positions, st,
                 OrdersAt(input, bars, claimed.book.trades, i).value)
    && InI128(MoneyOf(input.account, st.book))
    && LedgerAt(input, bars, claimed.book.trades, i) == Ok(LedgerOf(input.account, st.book))
    && PeakKept(input.account, bars, claimed, i, st.curve)
  }

  /** The ledger of the next bar leads into the accepted one. */
  lemma {:induction false} LedgerIsAhead(input: Input, bars: seq<Bar>, trades: seq<TradeRecord>, i: nat)
    requires IncreasingBars(bars) && i < |bars| && ReconstructLedgers(input, bars, trades).Ok?
    ensures LedgerAt(input, bars, trades, i).Ok? && LedgerAt(input, bars, trades, i + 1).Ok?
    ensures LedgerBar(input, trades, LedgerAt(input, bars, trades, i).value, bars[i])
            == LedgerAt(input, bars, trades, i + 1)
    ensures LedgerLeads(input.account, LedgerAt(input, bars, trades, i).value, TradesOf(trades, bars[i].seqNo),
                        ReconstructLedgers(input, bars, trades).value.cashLedger)
    ensures Outlasts(LedgerAt(input, bars, trades, i + 1).value.cashLedger,
                     ReconstructLedgers(input, bars, trades).value.cashLedger, CashSession, bars[i].seqNo)
  {
    EarlierLedgerPassed(input, trades, bars, i + 1, |bars|);
    LaterLedger(input, trades, bars, i + 1, |bars|);
    FoldPassedAt(LedgerBarStep(input, trades), EmptyLedger(input.account), bars, |bars|, i);
    LedgerBarAdds(input, trades, LedgerAt(input, bars, trades, i).value, bars[i]);
  }

  lemma {:induction false} OrdersAreAhead(input: Input, bars: seq<Bar>, trades: seq<TradeRecord>, i: nat)
    requires i < |bars| && OrdersAt(input, bars, trades, |bars|).Ok?
    ensures OrdersAt(input, bars, trades, i).Ok? && OrdersAt(input, bars, trades, i + 1).Ok?
    ensures ScanBar(input, trades, OrdersAt(input, bars, trades, i).value, bars[i])
            == OrdersAt(input, bars, trades, i + 1)
    ensures OrdersAt(input, bars, trades, i + 1).value.log.orders
            <= OrdersAt(input, bars, trades, |bars|).value.log.orders
  {
    BarsScanGrows(input, trades, bars, i, |bars|);
    BarsScanGrows(input, trades, bars, i + 1, |bars|);
  }

  lemma {:induction false} MidwayStarts(input: Input, bars: seq<Bar>, claimed: Book, bar: Bar, st: State, s: OrderScan)
    requires Alongside(input, bars, claimed.trades, claimed.positions, st, s) && InI128(MoneyOf(input.account, st.book))
    ensures Midway(input, bars, claimed, st, bar, st, s)
  {
  }

  lemma {:induction false} BarIsPrepared(input: Input, bars: seq<Bar>, claimed: State, final: OrderScan, i: nat,
      st: State)
    requires IncreasingBars(bars) && i < |bars| && Backed(input, bars, claimed, final)
    requires LedgerAt(input, bars, claimed.book.trades, i) == Ok(LedgerOf(input.account, st.book))
    requires EngineFits(input.account, claimed.book.trades, claimed.book.cashLedger)
    requires AllBefore(st.book.trades, bars[i].seqNo)
    ensures Prepared(input, bars, claimed.book, final, st, bars[i])
  {
    LedgerIsAhead(input, bars, claimed.book.trades, i);
    BarIsFound(bars, i);
  }

  /** After the intents of a bar the accepted trades of its session are used up. */
  lemma {:induction false} SessionUsedUp(account: Account, claimed: Book, start: Book, session: nat, b: Book)
    requires AllBefore(start.trades, session) && Grows(start.trades, b.trades, TradeSession, session)
    requires Outlasts(b.trades, claimed.trades, TradeSession, session)
    requires LedgerKeepsUp(account, claimed, start, session, b)
    ensures var fills := TradesOf(claimed.trades, session);
            Fold(LedgerTradeStep(account), LedgerOf(account, start), fills, 0, |fills|) == Ok(LedgerOf(account, b))
  {
    TradesOfOutlasts(b.trades, claimed.trades, session);
    TradesOfGrows(start.trades, b.trades, session, session);
  }

  lemma {:induction false} EventsAreFills(input: Input, bars: seq<Bar>, trades: seq<TradeRecord>, i: nat, st: State)
    requires UniqueIds(input.intents) && Order.WellOrdered(input.intents) && IncreasingBars(bars) && i <= |bars|
    requires OrdersAt(input, bars, trades, i).Ok? && OrdersAt(input, bars, trades, i).value.log == st.log
    requires Accounts(st, input.intents)
    ensures |FillEvents(st.log.orders, input.intents)| == |st.book.trades|
  {
    ScanRunSound(input, trades, bars, i);
    assert |EventIds(FillEvents(st.log.orders, input.intents))| == |TradeIds(st.book.trades)|;
  }

  lemma {:induction false} TradesLeft(input: Input, bars: seq<Bar>, claimed: State, final: OrderScan, i: nat, st: State)
    requires UniqueIds(input.intents) && Order.WellOrdered(input.intents) && IncreasingBars(bars) && i < |bars|
    requires Backed(input, bars, claimed, final)
    requires OrdersAt(input, bars, claimed.book.trades, i + 1).Ok?
    requires Alongside(input, bars, claimed.book.trades, claimed.book.positions, st,
                       OrdersAt(input, bars, claimed.book.trades, i + 1).value)
    ensures Outlasts(st.book.trades, claimed.book.trades, TradeSession, bars[i].seqNo)
    ensures Outlasts(st.book.positions, claimed.book.positions, PositionSession, bars[i].seqNo)
  {
    EventsAreFills(input, bars, claimed.book.trades, i + 1, st);
    BarsScanGrows(input, claimed.book.trades, bars, i + 1, |bars|);
    LaterEvents(input, claimed.book.trades, bars, i + 1, |bars|);
    TradesOutlast(input.intents, claimed.book.trades, final.log.orders, st, bars[i].seqNo);
    PositionsOutlast(input, bars, claimed.book, st.book, bars[i].seqNo);
  }

  /** The intents of the next bar go through, and its trades are used up. */
  lemma {:induction false} JointTrades(input: Input, bars: seq<Bar>, claimed: State, final: OrderScan, i: nat,
      st: State)
    requires ValidTape(input.intents, input.account) && Order.WellOrdered(input.intents) && IncreasingBars(bars)
    requires i < |bars| && Backed(input, bars, claimed, final) && JointAt(input, bars, claimed, i, st)
    requires EngineFits(input.account, claimed.book.trades, claimed.book.cashLedger)
    requires AllBefore(st.book.trades, bars[i].seqNo)
    ensures OrdersAt(input, bars, claimed.book.trades, i + 1).Ok?
    ensures var due := Schedule(input.intents, st.log.completed, bars[i].seqNo);
            && ProcessIntents(input.account, bars[i], st, due, |due|).Ok?
            && Midway(input, bars, claimed.book, st, bars[i],
                      ProcessIntents(input.account, bars[i], st, due, |due|).value,
                      OrdersAt(input, bars, claimed.book.trades, i + 1).value)
  {
    var s := OrdersAt(input, bars, claimed.book.trades, i).value;
    OrdersAreAhead(input, bars, claimed.book.trades, i);
    MidwayStarts(input, bars, claimed.book, bars[i], st, s);
    BarIsPrepared(input, bars, claimed, final, i, st);
    BarMidway(input, bars, claimed.book, final, st, bars[i], s);
  }

  /** So does its funding. */
  lemma {:induction false} JointSettles(input: Input, bars: seq<Bar>, claimed: State, final: OrderScan, i: nat,
      start: State, st: State)
    requires ValidTape(input.intents, input.account) && Order.WellOrdered(input.intents) && IncreasingBars(bars)
    requires input.account.rateScale > 0 && (input.account.model == AShareCash ==> input.funding == [])
    requires i < |bars| && Backed(input, bars, claimed, final)
    requires LedgerAt(input, bars, claimed.book.trades, i) == Ok(LedgerOf(input.account, start.book))
    requires AllBefore(start.book.trades, bars[i].seqNo) && OrdersAt(input, bars, claimed.book.trades, i + 1).Ok?
    requires Midway(input, bars, claimed.book, start, bars[i], st,
                    OrdersAt(input, bars, claimed.book.trades, i + 1).value)
    ensures SettleFunding(input, bars[i].seqNo, st.book).Ok?
    ensures var next := SettleFunding(input, bars[i].seqNo, st.book).value;
            && RecordsGrow(start.book, next, bars[i].seqNo) && InI128(MoneyOf(input.account, next))
            && LedgerAt(input, bars, claimed.book.trades, i + 1) == Ok(LedgerOf(input.account, next))
            && Alongside(input, bars, claimed.book.trades, claimed.book.positions, st.(book := next),
                         OrdersAt(input, bars, claimed.book.trades, i + 1).value)
            && RecordsOutlast(next, claimed.book, bars[i].seqNo)
  {
    var session, s := bars[i].seqNo, OrdersAt(input, bars, claimed.book.trades, i + 1).value;
    LedgerIsAhead(input, bars, claimed.book.trades, i);
    TradesLeft(input, bars, claimed, final, i, st);
    SessionUsedUp(input.account, claimed.book, start.book, session, st.book);
    SettlementFollows(input, start.book, session, st.book);
    SettlementAlongside(input, bars, claimed.book.trades, claimed.book.positions, session, st, s);
    TradesLeft(input, bars, claimed, final, i, st.(book := SettleFunding(input, session, st.book).value));
  }

  /** The engine before the mark of bar i, beside the scans after it. */
  ghost predicate JointBeforeMark(input: Input, bars: seq<Bar>, claimed: State, i: nat, start: State, st: State)
    requires i < |bars|
  {
    && OrdersAt(input, bars, claimed.book.trades, i + 1).Ok?
    && Alongside(input, bars, claimed.book.trades, claimed.book.positions, st,
                 OrdersAt(input, bars, claimed.book.trades, i + 1).value)
    && LedgerAt(input, bars, claimed.book.trades, i + 1) == Ok(LedgerOf(input.account, st.book))
    && InI128(MoneyOf(input.account, st.book)) && st.curve == start.curve
    && RecordsGrow(start.book, st.book, bars[i].seqNo) && RecordsOutlast(st.book, claimed.book, bars[i].seqNo)
  }

  lemma {:induction false} JointReachesMark(input: Input, bars: seq<Bar>, claimed: State, final: OrderScan, i: nat,
      st: State)
    requires ValidTape(input.intents, input.account) && Order.WellOrdered(input.intents) && IncreasingBars(bars)
    requires input.account.rateScale > 0 && (input.account.model == AShareCash ==> input.funding == [])
    requires i < |bars| && Backed(input, bars, claimed, final) && JointAt(input, bars, claimed, i, st)
    requires EngineFits(input.account, claimed.book.trades, claimed.book.cashLedger)
    requires AllBefore(st.book.trades, bars[i].seqNo)
    ensures BeforeMark(input, bars[i], st).Ok?
    ensures JointBeforeMark(input, bars, claimed, i, st, BeforeMark(input, bars[i], st).value)
  {
    JointTrades(input, bars, claimed, final, i, st);
    var due := Schedule(input.intents, st.log.completed, bars[i].seqNo);
    JointSettles(input, bars, claimed, final, i, st, ProcessIntents(input.account, bars[i], st, due, |due|).value);
  }

  lemma {:induction false} SettledInOrder(bars: seq<Bar>, i: nat, b: Book, next: Book)
    requires i < |bars| && IncreasingBars(bars) && SessionsGood(b, LastSession(bars[..i]))
    requires RecordsGrow(b, next, bars[i].seqNo)
    ensures SessionsGood(next, Some(bars[i].seqNo))
  {
    assert i > 0 ==> bars[..i][i - 1] == bars[i - 1] && bars[i - 1].seqNo < bars[i - 1 + 1].seqNo;
    RecordsGrowGood(b, next, LastSession(bars[..i]), bars[i].seqNo);
  }

  /** And it is marked. */
  lemma {:induction false} JointMarks(input: Input, bars: seq<Bar>, claimed: State, i: nat, start: State, st: State)
    requires i < |bars| && PeakKept(input.account, bars, claimed, i, start.curve) && start.curve.peak > 0
    requires SessionsGood(st.book, Some(bars[i].seqNo)) && JointBeforeMark(input, bars, claimed, i, start, st)
    ensures MarkCurve(input.account, bars[i], st.book, st.curve).Ok?
    ensures JointAt(input, bars, claimed, i + 1,
                    State(st.log, CloseBook(input.account, st.book),
                          MarkCurve(input.account, bars[i], st.book, st.curve).value))
  {
    MarkFollows(input.account, bars, claimed, i, st.book, st.curve);
    MarkAlongside(input, bars, claimed.book.trades, claimed.book.positions, bars[i], st,
                  OrdersAt(input, bars, claimed.book.trades, i + 1).value);
  }

  lemma {:induction false} MarkIsLast(input: Input, bar: Bar, st: State)
    requires BeforeMark(input, bar, st).Ok?
    requires var before := BeforeMark(input, bar, st).value;
             MarkCurve(input.account, bar, before.book, before.curve).Ok?
    ensures var before := BeforeMark(input, bar, st).value;
            ProcessBar(input, bar, st)
            == Ok(State(before.log, CloseBook(input.account, before.book),
                        MarkCurve(input.account, bar, before.book, before.curve).value))
  {
  }

  /** The records of a state before bar i are in order and of earlier sessions. */
  ghost predicate StartsBar(bars: seq<Bar>, i: nat, st: State)
    requires i < |bars|
  {
    SessionsGood(st.book, LastSession(bars[..i])) && AllBefore(st.book.trades, bars[i].seqNo) && st.curve.peak > 0
  }

  /** One bar of the engine beside an accepted state that fits. */
  lemma {:induction false} BarJoint(input: Input, bars: seq<Bar>, claimed: State, final: OrderScan, i: nat, st: State)
    requires ValidTape(input.intents, input.account) && Order.WellOrdered(input.intents) && IncreasingBars(bars)
    requires input.account.rateScale > 0 && (input.account.model == AShareCash ==> input.funding == [])
    requires i < |bars| && Backed(input, bars, claimed, final) && JointAt(input, bars, claimed, i, st)
    requires EngineFits(input.account, claimed.book.trades, claimed.book.cashLedger)
    requires StartsBar(bars, i, st)
    ensures ProcessBar(input, bars[i], st).Ok?
            && JointAt(input, bars, claimed, i + 1, ProcessBar(input, bars[i], st).value)
  {
    JointReachesMark(input, bars, claimed, final, i, st);
    var settled := BeforeMark(input, bars[i], st).value;
    SettledInOrder(bars, i, st.book, settled.book);
    JointMarks(input, bars, claimed, i, st, settled);
    MarkIsLast(input, bars[i], st);
  }

  lemma {:induction false} JointBegins(input: Input, bars: seq<Bar>, claimed: State, final: OrderScan)
    requires ValidAccount(input.account) && Backed(input, bars, claimed, final)
    ensures JointAt(input, bars, claimed, 0, InitialState(input.account))
  {
    InitialRecomputed(input, bars);
    InitialAccounts(input.account, input.intents);
  }

  lemma {:induction false} BarStarts(input: Input, k: nat, i: nat)
    requires ValidInput(input) && i < k <= |input.bars| && Replay(input, i).Ok?
    ensures StartsBar(input.bars[..k], i, Replay(input, i).value)
  {
    RunIsScanned(input, i);
    EarlierBars(input.bars, i);
    assert input.bars[..k][..i] == input.bars[..i];
    EarlierSessions(Replay(input, i).value.book.trades, input.bars[..i], input.bars[i].seqNo);
  }

  lemma {:induction false} BarIsJoint(input: Input, bars: seq<Bar>, claimed: State, final: OrderScan, i: nat,
      reached: Result<State>, next: Result<State>)
    requires ValidInput(input) && Order.WellOrdered(input.intents) && IncreasingBars(bars)
    requires 0 < i <= |bars| && Backed(input, bars, claimed, final)
    requires EngineFits(input.account, claimed.book.trades, claimed.book.cashLedger)
    requires reached.Ok? && JointAt(input, bars, claimed, i - 1, reached.value)
    requires StartsBar(bars, i - 1, reached.value) && next == AfterBar(input, reached, bars[i - 1])
    ensures next.Ok? && JointAt(input, bars, claimed, i, next.value)
  {
    BarJoint(input, bars, claimed, final, i - 1, reached.value);
  }

  /** The replay reaches bar i beside the accepted state. */
  ghost predicate JointReached(input: Input, bars: seq<Bar>, claimed: State, i: nat)
    requires i <= |bars| && i <= |input.bars|
  {
    Replay(input, i).Ok? && JointAt(input, bars, claimed, i, Replay(input, i).value)
  }

  lemma {:induction false} NextTurn(input: Input, k: nat, i: nat)
    requires ValidInput(input) && 0 < i <= k <= |input.bars| && Replay(input, i - 1).Ok?
    ensures IncreasingBars(input.bars[..k]) && StartsBar(input.bars[..k], i - 1, Replay(input, i - 1).value)
    ensures Replay(input, i) == AfterBar(input, Replay(input, i - 1), input.bars[..k][i - 1])
  {
    IncreasingPrefix(input.bars, k);
    BarStarts(input, k, i - 1);
    ReplayIsNext(input, i);
  }

  lemma {:induction false} JointNext(input: Input, k: nat, claimed: State, final: OrderScan, i: nat)
    requires ValidInput(input) && Order.WellOrdered(input.intents) && 0 < i <= k <= |input.bars|
    requires Backed(input, input.bars[..k], claimed, final) && JointReached(input, input.bars[..k], claimed, i - 1)
    requires EngineFits(input.account, claimed.book.trades, claimed.book.cashLedger)
    ensures JointReached(input, input.bars[..k], claimed, i)
  {
    NextTurn(input, k, i);
    BarIsJoint(input, input.bars[..k], claimed, final, i, Replay(input, i - 1), Replay(input, i));
  }

  lemma {:induction false} RunJoint(input: Input, k: nat, claimed: State, final: OrderScan, i: nat)
    requires ValidInput(input) && Order.WellOrdered(input.intents) && i <= k <= |input.bars|
    requires Backed(input, input.bars[..k], claimed, final)
    requires EngineFits(input.account, claimed.book.trades, claimed.book.cashLedger)
    ensures JointReached(input, input.bars[..k], claimed, i)
  {
    if i == 0 {
      JointBegins(input, input.bars[..k], claimed, final);
    } else {
      RunJoint(input, k, claimed, final, i - 1);
      JointNext(input, k, claimed, final, i);
    }
  }

  lemma {:induction false} AcceptedIsBacked(input: Input, k: nat, st: State)
    requires ValidInput(input) && Order.WellOrdered(input.intents) && ValidateState(input, k, st).Ok?
    requires k <= |input.bars|
    ensures var bars := input.bars[..k];
            ScannedOrders(input, bars, st.book.trades).Ok?
            && Backed(input, bars, st, ScannedOrders(input, bars, st.book.trades).value)
  {
    var bars := input.bars[..k];
    AcceptedParts(input, k, st);
    IncreasingPrefix(input.bars, k);
    AcceptedIsClaimed(input, bars, st);
    AcceptedEvents(input, bars, st);
    LedgersBack(input, bars, st.book);
    SumsBack(st.book);
    CurvesBack(input.account, bars, st);
  }

  lemma {:induction false} AcceptedEvents(input: Input, bars: seq<Bar>, st: State)
    requires UniqueIds(input.intents) && Order.WellOrdered(input.intents) && IncreasingBars(bars)
    requires GoodSessions(st.book.trades, TradeSession, LastSession(bars))
    requires ValidateTrades(input, bars, st.book).Ok? && ValidateOrders(input, bars, st).Ok?
    ensures KnownTrades(input.intents, st.book.trades)
    ensures FillEvents(st.log.orders, input.intents) == TradeEvents(st.book.trades, input.intents)
  {
    var scan := ScannedOrders(input, bars, st.book.trades).value;
    ScanRunSound(input, st.book.trades, bars, |bars|);
    TradesAreKnown(input, bars, st.book);
    TradesAreFills(input.intents, st.book.trades, scan, BoundOf(bars, |bars|));
  }

  lemma {:induction false} LedgersBack(input: Input, bars: seq<Bar>, b: Book)
    requires ValidateLedgers(input, bars, b).Ok?
    ensures ReconstructLedgers(input, bars, b.trades).Ok?
            && ReconstructLedgers(input, bars, b.trades).value.cashLedger == b.cashLedger
  {
  }

  lemma {:induction false} SumsBack(b: Book)
    requires ValidateTotals(b).Ok?
    ensures SumsPass(b)
  {
  }

  lemma {:induction false} CurvesBack(account: Account, bars: seq<Bar>, st: State)
    requires ValidateCurves(account, bars, st).Ok?
    ensures CurveBacked(account, bars, st)
  {
  }

  /** An accepted state on a well-ordered tape is what the replay reaches if and only if
      its trades fit, a condition on its own records; where they do not, the replay
      stops at an overflow or, on a perpetual account, at the cap. */
  lemma {:induction false} AcceptedIsReachedExactly(input: Input, k: nat, st: State)
    requires ValidInput(input) && Order.WellOrdered(input.intents) && ValidateState(input, k, st).Ok?
    ensures k <= |input.bars|
    ensures Replay(input, k) == Ok(st) <==> EngineFits(input.account, st.book.trades, st.book.cashLedger)
    ensures Replay(input, k).Err? <==> !EngineFits(input.account, st.book.trades, st.book.cashLedger)
    ensures Replay(input, k).Err? ==> Excused(input.account, Replay(input, k).error)
  {
    AcceptedIsReached(input, k, st);
    if EngineFits(input.account, st.book.trades, st.book.cashLedger) {
      AcceptedIsBacked(input, k, st);
      RunJoint(input, k, st, ScannedOrders(input, input.bars[..k], st.book.trades).value, k);
    }
    if Replay(input, k).Ok? { ReachedFits(input, k); }
  }
}
