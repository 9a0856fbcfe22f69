/** What the trade validators recompute from the records of a book is what the engine
    itself keeps in that book: one fill at a time, in both directions. */
module ValidatorMirror {
  import opened Checked
  import opened Events
  import opened Lots
  import opened Folds
  import opened Ids
  import opened Engine
  import opened EngineInduction
  import opened EngineAccounting
  import opened Validator

  /** A trade scan that stands where the book stands. */
  ghost predicate Mirrors(s: TradeScan, b: Book) {
    s.quantity == b.quantity && s.longLots == b.longLots && s.shortLots == b.shortLots && s.entry == b.entry
  }

  /** What may stop the engine although the validators, which do less arithmetic and
      never look at the cap, have nothing to object. */
  predicate Excused(account: Account, e: Error) {
    e == Overflow || (e == OneXCap && account.model == LinearPerp)
  }

  lemma {:induction false} AShareMirrors(account: Account, session: nat, s: TradeScan, b: Book, t: Intent, c: Costs)
    requires Mirrors(s, b)
    ensures match AShareMove(account, session, b, t, c)
            case Ok(m) =>
              ScanAShare(account, session, s, t)
              == Ok(s.(quantity := m.quantity, longLots := m.longLots, shortLots := m.shortLots, entry := m.entry))
            case Err(e) => ScanAShare(account, session, s, t).Err? || e == Overflow
  {
  }

  lemma {:induction false} PerpMirrors(s: TradeScan, b: Book, t: Intent, fill: Fill, c: Costs)
    requires Mirrors(s, b)
    ensures match PerpMove(b, t, fill, c)
            case Ok(m) =>
              ScanPerp(s, t, fill)
              == Ok(s.(quantity := m.quantity, longLots := m.longLots, shortLots := m.shortLots, entry := m.entry))
            case Err(e) => ScanPerp(s, t, fill).Err? || e == Overflow || e == OneXCap
  {
  }

  lemma {:induction false} MovesMirror(account: Account, session: nat, s: TradeScan, b: Book, t: Intent, fill: Fill,
      c: Costs)
    requires Mirrors(s, b)
    ensures match MoveFor(account, session, b, t, fill, c)
            case Ok(m) =>
              && ScanMove(account, session, s, t, fill)
                 == Ok(s.(quantity := m.quantity, longLots := m.longLots, shortLots := m.shortLots, entry := m.entry))
              && ScanEligible(account, session, ScanMove(account, session, s, t, fill).value)
                 == EligibleNow(account, session, AfterMove(account, b, m))
            case Err(e) => ScanMove(account, session, s, t, fill).Err? || Excused(account, e)
  {
    if account.model == AShareCash {
      AShareMirrors(account, session, s, b, t, c);
    } else {
      PerpMirrors(s, b, t, fill, c);
    }
  }

  /** An intent the scan can look up, at a bar that fills it. */
  ghost predicate Fills(input: Input, bars: seq<Bar>, bar: Bar, t: Intent, fill: Fill) {
    && IntentById(input.intents, t.id) == Some(t) && BarBySession(bars, bar.seqNo) == Some(bar)
    && Live(t, bar.seqNo) && FillDecision(input.account, bar, t) == Ok(Some(fill))
  }

  /** The scan accepts what the engine books. */
  lemma {:induction false} BookedIsChecked(input: Input, bars: seq<Bar>, bar: Bar, s: TradeScan, b: Book, t: Intent,
      fill: Fill)
    requires Mirrors(s, b) && Fills(input, bars, bar, t, fill) && t.id !in s.seen
    requires BookFill(input.account, bar.seqNo, b, t, fill).Ok?
    ensures var next := BookFill(input.account, bar.seqNo, b, t, fill).value;
            && |next.trades| == |b.trades| + 1 && |next.positions| == |b.positions| + 1
            && next.trades[|b.trades|].id == t.id
            && CheckTrade(input, bars, s, next.trades[|b.trades|], next.positions[|b.positions|])
               == Ok(TradeScan(next.quantity, next.longLots, next.shortLots, next.entry, s.seen + {t.id}))
  {
    FillParts(input.account, bar.seqNo, b, t, fill);
    MovesMirror(input.account, bar.seqNo, s, b, t, fill, CostsOf(input.account, t, fill).value);
  }

  /** The engine books what the scan accepts, or stops for an excused reason. */
  lemma {:induction false} CheckedIsBooked(input: Input, bars: seq<Bar>, bar: Bar, s: TradeScan, b: Book, t: Intent,
      fill: Fill, trade: TradeRecord, position: PositionRecord)
    requires Mirrors(s, b) && Fills(input, bars, bar, t, fill)
    requires trade.id == t.id && trade.session == bar.seqNo
    requires CheckTrade(input, bars, s, trade, position).Ok?
    ensures match BookFill(input.account, bar.seqNo, b, t, fill)
            case Ok(next) => next.trades == b.trades + [trade] && next.positions == b.positions + [position]
            case Err(e) => Excused(input.account, e)
  {
    var account, session := input.account, bar.seqNo;
    assert CostsOf(account, t, fill).Ok?;
    var c := CostsOf(account, t, fill).value;
    assert trade == TradeOf(t, session, fill, c);
    MovesMirror(account, session, s, b, t, fill, c);
    if BookFill(account, session, b, t, fill).Ok? {
      FillParts(account, session, b, t, fill);
    } else if MoveFor(account, session, b, t, fill, c).Ok? {
      RecordingOverflows(account, session, AfterMove(account, b, MoveFor(account, session, b, t, fill, c).value), t,
                         fill, c,
                         MoveFor(account, session, b, t, fill, c).value.notionalDelta,
                         MoveFor(account, session, b, t, fill, c).value.realized);
    }
  }

  lemma {:induction false} RecordingOverflows(account: Account, session: nat, b: Book, t: Intent, fill: Fill, c: Costs,
      notionalDelta: int, realized: int)
    requires EligibleNow(account, session, b).Ok?
    requires RecordFill(account, session, b, t, fill, c, notionalDelta, realized).Err?
    ensures RecordFill(account, session, b, t, fill, c, notionalDelta, realized) == Err(Overflow)
  {
  }

  // ---- the scans of a whole book ----

  ghost predicate TradesScanned(input: Input, bars: seq<Bar>, b: Book) {
    && |b.trades| == |b.positions|
    && ScanTrades(input, bars, b)
       == Ok(TradeScan(b.quantity, b.longLots, b.shortLots, b.entry, IdSet(TradeIds(b.trades))))
  }

  lemma {:induction false} ZipAppend(trades: seq<TradeRecord>, positions: seq<PositionRecord>, trade: TradeRecord,
      position: PositionRecord)
    requires |trades| == |positions|
    ensures Zip(trades + [trade], positions + [position]) == Zip(trades, positions) + [(trade, position)]
  {
  }

  lemma {:induction false} TradeIdsAppend(trades: seq<TradeRecord>, trade: TradeRecord)
    ensures IdSet(TradeIds(trades + [trade])) == IdSet(TradeIds(trades)) + {trade.id}
  {
    assert TradeIds(trades + [trade]) == TradeIds(trades) + [trade.id];
    AppendId(TradeIds(trades), trade.id);
  }

  lemma {:induction false} ScanAppend(input: Input, bars: seq<Bar>, b: Book, next: Book, trade: TradeRecord,
      position: PositionRecord)
    requires TradesScanned(input, bars, b)
    requires next.trades == b.trades + [trade] && next.positions == b.positions + [position]
    ensures ScanTrades(input, bars, next)
            == CheckTrade(input, bars,
                          TradeScan(b.quantity, b.longLots, b.shortLots, b.entry, IdSet(TradeIds(b.trades))), trade,
                          position)
    ensures IdSet(TradeIds(next.trades)) == IdSet(TradeIds(b.trades)) + {trade.id}
  {
    ZipAppend(b.trades, b.positions, trade, position);
    FoldAppend(TradeCheck(input, bars), EMPTY_SCAN, Zip(b.trades, b.positions), (trade, position));
    TradeIdsAppend(b.trades, trade);
  }

  lemma {:induction false} FillKeepsTradeScan(input: Input, bars: seq<Bar>, bar: Bar, b: Book, t: Intent, fill: Fill)
    requires TradesScanned(input, bars, b) && Fills(input, bars, bar, t, fill) && t.id !in IdSet(TradeIds(b.trades))
    requires BookFill(input.account, bar.seqNo, b, t, fill).Ok?
    ensures TradesScanned(input, bars, BookFill(input.account, bar.seqNo, b, t, fill).value)
  {
    var next := BookFill(input.account, bar.seqNo, b, t, fill).value;
    var s := TradeScan(b.quantity, b.longLots, b.shortLots, b.entry, IdSet(TradeIds(b.trades)));
    BookedIsChecked(input, bars, bar, s, b, t, fill);
    FillParts(input.account, bar.seqNo, b, t, fill);
    ScanAppend(input, bars, b, next, next.trades[|b.trades|], next.positions[|b.positions|]);
  }

  ghost predicate LotsScanned(account: Account, bars: seq<Bar>, b: Book) {
    if account.model == LinearPerp then b.longLots == [] && b.shortLots == []
    else Fold(LotCheck(account, bars), LotScan(0, [], []), b.trades, 0, |b.trades|)
         == Ok(LotScan(b.quantity, b.longLots, b.shortLots))
  }

  /** Reading the lots off a trade record repeats what the fill did. */
  lemma {:induction false} LotStepMirrors(account: Account, bars: seq<Bar>, bar: Bar, b: Book, t: Intent, fill: Fill,
      c: Costs)
    requires account.model == AShareCash && t.quantity > 0 && BarBySession(bars, bar.seqNo) == Some(bar)
    requires AShareMove(account, bar.seqNo, b, t, c).Ok?
    ensures var m := AShareMove(account, bar.seqNo, b, t, c).value;
            LotStep(account, bars, LotScan(b.quantity, b.longLots, b.shortLots), TradeOf(t, bar.seqNo, fill, c))
            == Ok(LotScan(m.quantity, m.longLots, m.shortLots))
  {
  }

  lemma {:induction false} FillKeepsLotScan(account: Account, bars: seq<Bar>, bar: Bar, b: Book, t: Intent, fill: Fill)
    requires LotsScanned(account, bars, b) && t.quantity > 0 && BarBySession(bars, bar.seqNo) == Some(bar)
    requires BookFill(account, bar.seqNo, b, t, fill).Ok?
    ensures LotsScanned(account, bars, BookFill(account, bar.seqNo, b, t, fill).value)
  {
    FillParts(account, bar.seqNo, b, t, fill);
    var c := CostsOf(account, t, fill).value;
    if account.model == AShareCash {
      LotStepMirrors(account, bars, bar, b, t, fill, c);
      FoldAppend(LotCheck(account, bars), LotScan(0, [], []), b.trades, TradeOf(t, bar.seqNo, fill, c));
    }
  }

  // ---- totals ----

  ghost predicate TotalsScanned(account: Account, b: Book) {
    && Fold(AddFee, 0, b.trades, 0, |b.trades|) == Ok(b.totalFees)
    && Fold(AddStampDuty, 0, b.trades, 0, |b.trades|) == Ok(b.totalStampDuty)
    && Fold(AddSlippage, 0, b.trades, 0, |b.trades|) == Ok(b.totalSlippage)
    && Fold(AddFunding, 0, b.fundingLedger, 0, |b.fundingLedger|) == Ok(b.totalFunding)
    && (account.model == LinearPerp ==> b.totalStampDuty == 0)
  }

  lemma {:induction false} FillKeepsTotals(account: Account, session: nat, b: Book, t: Intent, fill: Fill)
    requires TotalsScanned(account, b) && BookFill(account, session, b, t, fill).Ok?
    ensures TotalsScanned(account, BookFill(account, session, b, t, fill).value)
  {
    FillParts(account, session, b, t, fill);
    var trade := TradeOf(t, session, fill, CostsOf(account, t, fill).value);
    FoldAppend(AddFee, 0, b.trades, trade);
    FoldAppend(AddStampDuty, 0, b.trades, trade);
    FoldAppend(AddSlippage, 0, b.trades, trade);
  }

  lemma {:induction false} FundingKeepsTotals(account: Account, b: Book, event: FundingEvent)
    requires TotalsScanned(account, b) && BookFunding(account, b, event).Ok?
    ensures TotalsScanned(account, BookFunding(account, b, event).value)
  {
    var next := BookFunding(account, b, event).value;
    FoldAppend(AddFunding, 0, b.fundingLedger, next.fundingLedger[|b.fundingLedger|]);
  }

  // ---- counters and last values ----

  /** The entry price the records of a perpetual account end with. */
  function LastEntry(trades: seq<TradeRecord>): Option<int> {
    if trades != [] && trades[|trades| - 1].effect == Open then Some(trades[|trades| - 1].price) else None
  }

  ghost predicate LastValues(account: Account, b: Book) {
    && LastQuantity(b.positions) == b.quantity
    && Flattened(b.positions) == b.closedCount
    && LastCash(b.cashLedger, account.startingBalance) == MoneyOf(account, b)
    && (account.model == LinearPerp ==> b.cash == b.wallet)
    && (if account.model == AShareCash then b.entry == None
        else b.entry == LastEntry(b.trades) && (b.quantity == 0 <==> LastEntry(b.trades) == None))
  }

  lemma {:induction false} AShareFlattens(account: Account, session: nat, b: Book, t: Intent, c: Costs)
    requires t.quantity > 0 && AShareMove(account, session, b, t, c).Ok?
    ensures var m := AShareMove(account, session, b, t, c).value;
            && (m.closes <==> b.quantity != 0 && m.quantity == 0) && m.entry == b.entry
  {
  }

  lemma {:induction false} PerpFlattens(b: Book, t: Intent, fill: Fill, c: Costs)
    requires t.quantity > 0 && PerpMove(b, t, fill, c).Ok?
    ensures var m := PerpMove(b, t, fill, c).value;
            && (m.closes <==> b.quantity != 0 && m.quantity == 0)
            && m.entry == (if t.effect == Open then Some(fill.price) else None)
            && (m.quantity == 0 <==> t.effect == Close)
  {
  }

  lemma {:induction false} FillKeepsLastValues(account: Account, session: nat, b: Book, t: Intent, fill: Fill)
    requires LastValues(account, b) && t.quantity > 0 && BookFill(account, session, b, t, fill).Ok?
    ensures LastValues(account, BookFill(account, session, b, t, fill).value)
  {
    FillParts(account, session, b, t, fill);
    var c := CostsOf(account, t, fill).value;
    if account.model == AShareCash { AShareFlattens(account, session, b, t, c); } else { PerpFlattens(b, t, fill, c); }
    var next := BookFill(account, session, b, t, fill).value;
    assert next.positions[..|next.positions| - 1] == b.positions;
  }

  // ---- over the run ----

  ghost predicate Recomputed(input: Input, bars: seq<Bar>, st: State) {
    && IdSet(TradeIds(st.book.trades)) <= st.log.completed
    && TradesScanned(input, bars, st.book) && LotsScanned(input.account, bars, st.book)
    && TotalsScanned(input.account, st.book) && LastValues(input.account, st.book)
  }

  lemma {:induction false} FillKeepsRecomputed(input: Input, bars: seq<Bar>, bar: Bar, st: State, t: Intent, fill: Fill)
    requires Recomputed(input, bars, st) && Fills(input, bars, bar, t, fill) && t.quantity > 0
    requires t.id !in st.log.completed
    requires BookFill(input.account, bar.seqNo, st.book, t, fill).Ok?
    ensures Recomputed(input, bars, State(LogFill(st.log, t, bar.seqNo, fill),
                                          BookFill(input.account, bar.seqNo, st.book, t, fill).value, st.curve))
  {
    FillKeepsTradeScan(input, bars, bar, st.book, t, fill);
    FillKeepsLotScan(input.account, bars, bar, st.book, t, fill);
    FillKeepsTotals(input.account, bar.seqNo, st.book, t, fill);
    FillKeepsLastValues(input.account, bar.seqNo, st.book, t, fill);
    FillParts(input.account, bar.seqNo, st.book, t, fill);
    var trade := TradeOf(t, bar.seqNo, fill, CostsOf(input.account, t, fill).value);
    assert TradeIds(st.book.trades + [trade]) == TradeIds(st.book.trades) + [t.id];
    AppendId(TradeIds(st.book.trades), t.id);
  }

  lemma {:induction false} IntentKeepsRecomputed(input: Input, bars: seq<Bar>, bar: Bar, st: State, t: Intent)
    requires ValidTape(input.intents, input.account) && t in input.intents && Live(t, bar.seqNo)
    requires Recomputed(input, bars, st) && t.id !in st.log.completed && BarBySession(bars, bar.seqNo) == Some(bar)
    requires ProcessIntent(input.account, bar, st, t).Ok?
    ensures Recomputed(input, bars, ProcessIntent(input.account, bar, st, t).value)
  {
    IntentIsFound(input.intents, t);
    assert ValidIntent(t, input.account);
    IntentParts(input.account, bar, st, t);
    if !OcoDone(st.log, t) && FillDecision(input.account, bar, t).value.Some? {
      FillKeepsRecomputed(input, bars, bar, st, t, FillDecision(input.account, bar, t).value.value);
    }
  }

  lemma {:induction false} FundingKeepsRecomputed(input: Input, bars: seq<Bar>, st: State, event: FundingEvent)
    requires input.account.model == LinearPerp
    requires Recomputed(input, bars, st) && BookFunding(input.account, st.book, event).Ok?
    ensures Recomputed(input, bars, st.(book := BookFunding(input.account, st.book, event).value))
  {
    FundingKeepsTotals(input.account, st.book, event);
  }

  lemma {:induction false} BarKeepsRecomputed(input: Input, bars: seq<Bar>, bar: Bar, st: State)
    requires ValidTape(input.intents, input.account)
    requires Recomputed(input, bars, st) && BarBySession(bars, bar.seqNo) == Some(bar)
    requires ProcessBar(input, bar, st).Ok?
    ensures Recomputed(input, bars, ProcessBar(input, bar, st).value)
  {
    var inv := (s: State) => Recomputed(input, bars, s);
    forall s: State, t: Intent | inv(s) && t in input.intents && Live(t, bar.seqNo) && t.id !in s.log.completed
                                 && ProcessIntent(input.account, bar, s, t).Ok?
      ensures inv(ProcessIntent(input.account, bar, s, t).value)
    {
      IntentKeepsRecomputed(input, bars, bar, s, t);
    }
    forall s: State, event: FundingEvent | inv(s) && input.account.model == LinearPerp
                                           && BookFunding(input.account, s.book, event).Ok?
      ensures inv(s.(book := BookFunding(input.account, s.book, event).value))
    {
      FundingKeepsRecomputed(input, bars, s, event);
    }
    BarParts(input, bar, st);
    BarInduction(input, bar, st, inv);
  }

  lemma {:induction false} BarIsFound(bars: seq<Bar>, i: nat)
    requires IncreasingBars(bars) && i < |bars|
    ensures BarBySession(bars, bars[i].seqNo) == Some(bars[i])
  {
    if i > 0 {
      BarsIncrease(bars, 0, i);
      BarIsFound(bars[1..], i - 1);
    }
  }

  lemma {:induction false} InitialRecomputed(input: Input, bars: seq<Bar>)
    ensures Recomputed(input, bars, InitialState(input.account))
  {
    assert IdSet(TradeIds([])) == {};
  }

  /** After k bars every record of the engine can be recomputed from the bars so far. */
  lemma {:induction false} RunIsRecomputed(input: Input, k: nat)
    requires ValidTape(input.intents, input.account) && IncreasingBars(input.bars)
    requires k <= |input.bars| && Replay(input, k).Ok?
    ensures Recomputed(input, input.bars[..k], Replay(input, k).value)
  {
    var bars := input.bars[..k];
    var runs := (st: State, i: nat) => i <= k ==> Recomputed(input, bars, st);
    forall st: State, i: nat | i < |input.bars| && runs(st, i) && ProcessBar(input, input.bars[i], st).Ok?
      ensures runs(ProcessBar(input, input.bars[i], st).value, i + 1)
    {
      if i < k {
        BarIsFound(bars, i);
        BarKeepsRecomputed(input, bars, input.bars[i], st);
      }
    }
    InitialRecomputed(input, bars);
    RunInduction(input, k, runs);
  }
}
