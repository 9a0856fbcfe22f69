/** Solvency of the v2 engine, with its exact condition, and the FIFO ledger over
    whole runs. */
module PortfolioSolvency {
  import opened Checked
  import opened Events
  import opened Lots
  import opened Portfolio
  import opened PortfolioInvariant
  import opened PortfolioLedger
  import Sorting
  import opened PortfolioAccounting

  ghost predicate SolventPoint(p: EquityPoint) {
    p.cash >= 0 && p.marketValue >= 0 && p.equity == p.cash + p.marketValue
  }

  ghost predicate BoundedDrawdown(p: DrawdownPoint, scale: int) {
    p.peak > 0 && p.equity >= 0 && -p.peak <= p.drawdown <= 0 && -scale <= p.rate <= 0
  }

  ghost predicate Solvent(st: State, account: Account) {
    && st.cash >= 0
    && st.peak >= account.startingBalance
    && -account.rateScale <= st.maxDrawdownRate <= 0
    && (forall i :: 0 <= i < |st.cashLedger| ==> st.cashLedger[i].resultingCash >= 0)
    && (forall i :: 0 <= i < |st.equityCurve| ==> SolventPoint(st.equityCurve[i]))
    && (forall i :: 0 <= i < |st.drawdownCurve| ==> BoundedDrawdown(st.drawdownCurve[i], account.rateScale))
  }

  ghost predicate InRange(st: State) {
    && InI128(st.cash) && InI128(st.totalFees) && InI128(st.totalStampDuty) && InI128(st.totalSlippage)
    && st.closedCount <= U64_MAX
  }

  /** Everything that holds of any reachable state, whatever the costs. */
  ghost predicate Sound(st: State, account: Account, bound: int) {
    Holdings(st.lots, account.symbols, bound) && Book(st.lots, st.trades) && InRange(st)
  }

  lemma {:induction false} FillKeepsRange(st: State, session: nat, t: Intent, q: Quote)
    requires FillIntent(st, session, t, q).Ok? && st.closedCount <= U64_MAX
    ensures InRange(FillIntent(st, session, t, q).value)
  {
  }

  lemma {:induction false} BarOfValid(session: Session, account: Account, symbol: Symbol, i: nat)
    requires ValidSession(session, account) && i <= |session.bars|
    requires symbol in account.symbols[i..]
    ensures BarOf(session.bars[i..], symbol).Ok?
    ensures ValidBar(BarOf(session.bars[i..], symbol).value, account.slippage)
    decreases |session.bars| - i
  {
    assert session.bars[i..][0] == session.bars[i];
    if session.bars[i].symbol != symbol {
      assert session.bars[i..][1..] == session.bars[i + 1..];
      assert account.symbols[i..] == [account.symbols[i]] + account.symbols[i + 1..];
      BarOfValid(session, account, symbol, i + 1);
    }
  }

  lemma {:induction false} BarIsValid(session: Session, account: Account, symbol: Symbol)
    requires ValidSession(session, account) && symbol in account.symbols
    ensures BarOf(session.bars, symbol).Ok?
    ensures ValidBar(BarOf(session.bars, symbol).value, account.slippage)
  {
    assert account.symbols[0..] == account.symbols && session.bars[0..] == session.bars;
    BarOfValid(session, account, symbol, 0);
  }

  lemma {:induction false} IntentKeepsSound(account: Account, session: Session, st: State, t: Intent)
    requires Sound(st, account, session.seqNo) && TradableIntent(t, account.symbols)
    requires ProcessIntent(account, session, st, t).Ok?
    ensures Sound(ProcessIntent(account, session, st, t).value, account, session.seqNo)
  {
    var bar := BarOf(session.bars, t.symbol).value;
    if !Blocked(bar, t.side) {
      var q := QuoteFor(account, bar, t).value;
      FillKeepsHoldings(st, session.seqNo, t, q, account.symbols);
      FillKeepsBook(st, session.seqNo, t, q, account.symbols);
      FillKeepsRange(st, session.seqNo, t, q);
    }
  }

  lemma {:induction false} FillKeepsSolvent(account: Account, session: nat, st: State, t: Intent, q: Quote)
    requires Holdings(st.lots, account.symbols, session) && TradableIntent(t, account.symbols)
    requires Solvent(st, account)
    requires t.side == Sell ==> q.notional - q.fee - q.stampDuty >= 0
    requires FillIntent(st, session, t, q).Ok?
    ensures Solvent(FillIntent(st, session, t, q).value, account)
  {
    SettleIs(st, session, t, q, account.symbols);
  }

  lemma {:induction false} IntentKeepsSolvent(account: Account, session: Session, st: State, t: Intent)
    requires ValidAccount(account) && CostsCovered(account) && ValidSession(session, account)
    requires Holdings(st.lots, account.symbols, session.seqNo) && TradableIntent(t, account.symbols)
    requires Solvent(st, account)
    requires ProcessIntent(account, session, st, t).Ok?
    ensures Solvent(ProcessIntent(account, session, st, t).value, account)
  {
    BarIsValid(session, account, t.symbol);
    var bar := BarOf(session.bars, t.symbol).value;
    if !Blocked(bar, t.side) {
      if t.side == Sell { ProceedsNonNegative(account, bar, t); }
      FillKeepsSolvent(account, session.seqNo, st, t, QuoteFor(account, bar, t).value);
    }
  }

  lemma {:induction false} MarketValueNonNegative(account: Account, session: Session, lots: map<Symbol, seq<Lot>>,
      n: nat)
    requires ValidSession(session, account) && n <= |account.symbols|
    requires Holdings(lots, account.symbols, session.seqNo)
    requires MarketValue(account, session, lots, n).Ok?
    ensures MarketValue(account, session, lots, n).value >= 0
  {
    if n > 0 {
      var symbol := account.symbols[n - 1];
      MarketValueNonNegative(account, session, lots, n - 1);
      BarIsValid(session, account, symbol);
      ChecksAreExact(lots[symbol], session.seqNo, session.seqNo, 0);
      MulNonNegative(Total(lots[symbol]), BarOf(session.bars, symbol).value.close);
    }
  }

  lemma {:induction false} MarkKeepsSolvent(account: Account, session: Session, st: State)
    requires ValidAccount(account) && ValidSession(session, account)
    requires Holdings(st.lots, account.symbols, session.seqNo)
    requires Solvent(st, account)
    requires Mark(account, session, st).Ok?
    ensures Solvent(Mark(account, session, st).value, account)
  {
    var marketValue := MarketValue(account, session, st.lots, |account.symbols|).value;
    MarketValueNonNegative(account, session, st.lots, |account.symbols|);
    var equity := st.cash + marketValue;
    var peak := Max(st.peak, equity);
    RateBounds(equity - peak, peak, account.rateScale);
  }

  /** A fall of at most the peak is a rate of at most the scale. */
  lemma {:induction false} RateBounds(drawdown: int, peak: int, scale: int)
    requires -peak <= drawdown <= 0 < peak && scale > 0
    ensures -scale <= TruncDiv(drawdown * scale, peak) <= 0
  {
    MulMonotone(drawdown, 0, scale);
    MulMonotone(-peak, drawdown, scale);
    TruncDivOfNegative(drawdown * scale, peak);
    assert -scale * peak == -peak * scale;
    TruncDivLowerBound(drawdown * scale, peak, -scale);
  }

  // ---- over whole runs ----

  ghost predicate Tradable(due: seq<Intent>, symbols: seq<Symbol>) {
    forall i :: 0 <= i < |due| ==> TradableIntent(due[i], symbols)
  }

  lemma {:induction false} IntentsKeep(account: Account, session: Session, st: State, due: seq<Intent>, n: nat)
    requires ValidAccount(account) && ValidSession(session, account)
    requires n <= |due| && Tradable(due, account.symbols)
    requires Sound(st, account, session.seqNo)
    requires CostsCovered(account) ==> Solvent(st, account)
    requires ProcessIntents(account, session, st, due, n).Ok?
    ensures Sound(ProcessIntents(account, session, st, due, n).value, account, session.seqNo)
    ensures CostsCovered(account) ==> Solvent(ProcessIntents(account, session, st, due, n).value, account)
  {
    if n > 0 {
      IntentsKeep(account, session, st, due, n - 1);
      var before := ProcessIntents(account, session, st, due, n - 1).value;
      IntentKeepsSound(account, session, before, due[n - 1]);
      if CostsCovered(account) { IntentKeepsSolvent(account, session, before, due[n - 1]); }
    }
  }

  lemma {:induction false} ScheduleIsTradable(input: Input, completed: set<Id>, session: nat)
    requires ValidInput(input)
    ensures Tradable(Schedule(input.intents, completed, session), input.account.symbols)
  {
    var due := Schedule(input.intents, completed, session);
    ScheduleIsDue(input.intents, completed, session);
    forall i | 0 <= i < |due|
      ensures TradableIntent(due[i], input.account.symbols)
    {
      assert due[i] in due;
      var j :| 0 <= j < |input.intents| && input.intents[j] == due[i];
      assert ValidIntent(input.intents[j], input);
    }
  }

  lemma {:induction false} SessionKeeps(input: Input, session: Session, st: State)
    requires ValidAccount(input.account) && ValidSession(session, input.account)
    requires Tradable(Schedule(input.intents, st.completed, session.seqNo), input.account.symbols)
    requires Sound(st, input.account, session.seqNo)
    requires CostsCovered(input.account) ==> Solvent(st, input.account)
    requires ProcessSession(input, session, st).Ok?
    ensures Sound(ProcessSession(input, session, st).value, input.account, session.seqNo)
    ensures CostsCovered(input.account) ==> Solvent(ProcessSession(input, session, st).value, input.account)
  {
    SessionParts(input, session, st);
    var due := Schedule(input.intents, st.completed, session.seqNo);
    IntentsKeep(input.account, session, st, due, |due|);
    var traded := ProcessIntents(input.account, session, st, due, |due|).value;
    MarkFrame(input.account, session, traded);
    if CostsCovered(input.account) { MarkKeepsSolvent(input.account, session, traded); }
  }

  lemma {:induction false} SoundLater(st: State, account: Account, bound: int, later: int)
    requires Sound(st, account, bound) && bound <= later
    ensures Sound(st, account, later)
  {
    forall s | s in st.lots
      ensures WellFormed(st.lots[s], later)
    {
      assert WellFormed(st.lots[s], bound);
    }
  }

  /** The last session processed by the first k. */
  function LastSession(input: Input, k: nat): int
    requires k <= |input.sessions|
  {
    if k == 0 then 0 else input.sessions[k - 1].seqNo
  }

  lemma {:induction false} InitialIsSound(account: Account)
    requires ValidAccount(account)
    ensures Sound(InitialState(account), account, 0)
    ensures Solvent(InitialState(account), account)
  {
    var st := InitialState(account);
    forall s | s in st.lots
      ensures WellFormed(st.lots[s], 0) && InI128(Total(st.lots[s])) && SymbolBook(st.lots[s], st.trades, s)
    {
      assert st.lots[s] == [];
    }
  }

  /** Every reachable state has well-formed lots and a FIFO ledger under T+1, and,
      when a board lot can pay its own selling costs, it is solvent: cash after
      every fill, equity at every mark and every drawdown rate keep their bounds. */
  lemma {:induction false} RunKeeps(input: Input, k: nat)
    requires ValidInput(input) && k <= |input.sessions|
    requires RunSessions(input, k).Ok?
    ensures Sound(RunSessions(input, k).value, input.account, LastSession(input, k))
    ensures CostsCovered(input.account) ==> Solvent(RunSessions(input, k).value, input.account)
  {
    if k == 0 {
      InitialIsSound(input.account);
    } else {
      RunKeeps(input, k - 1);
      var before := RunSessions(input, k - 1).value;
      var session := input.sessions[k - 1];
      assert k > 1 ==> input.sessions[k - 2].seqNo < input.sessions[k - 2 + 1].seqNo;
      SoundLater(before, input.account, LastSession(input, k - 1), session.seqNo);
      ScheduleIsTradable(input, before.completed, session.seqNo);
      SessionKeeps(input, session, before);
    }
  }

  // ---- the condition is exact ----

  /** Two board lots bought at price 1 with all the cash, one of them sold at price 1 a
      session later; the closes keep the equity at its peak. */
  function PennyAccount(scale: int, commission: int, stampDuty: int, fee: int): Account {
    Account([0], 1, 1, scale, 200 + 2 * fee, 100, commission, stampDuty, 0)
  }

  const PENNY_BARS := [Bar(0, 1, 2, 1, 2, true, true), Bar(0, 1, 5, 1, 5, true, true)]

  function PennySession(n: nat): Session
    requires 1 <= n <= 2
  {
    Session(n, 0, [PENNY_BARS[n - 1]])
  }

  const PENNY_BUY := Intent(1, 1, 0, Buy, Open, 100, EventKey(0, AtClose, 0), EventKey(1, AtOpen, 0), false, false,
                            false)

  const PENNY_SALE := Intent(3, 3, 0, Sell, Close, 100, EventKey(1, AtClose, 0), EventKey(2, AtOpen, 0), false, false,
                             false)

  const PENNY_TAPE := [PENNY_BUY, PENNY_BUY.(id := 2, seqNo := 2), PENNY_SALE]

  function PennyInput(account: Account): Input {
    Input(account, [PennySession(1), PennySession(2)], PENNY_TAPE)
  }

  ghost predicate ValidRates(scale: int, commission: int, stampDuty: int) {
    0 < scale && 0 <= commission <= scale && 0 <= stampDuty <= scale
  }

  /** An account whose charges on one board lot at price 1 are fee and duty. */
  ghost predicate PennyCosts(account: Account, fee: int, duty: int) {
    && ValidRates(account.rateScale, account.commissionRate, account.stampDutyRate)
    && account == PennyAccount(account.rateScale, account.commissionRate, account.stampDutyRate, fee)
    && RateCharge(100, account.commissionRate, account.rateScale) == Ok(fee)
    && RateCharge(100, account.stampDutyRate, account.rateScale) == Ok(duty)
  }

  lemma {:induction false} PennyCharges(account: Account, fee: int, duty: int)
    requires PennyCosts(account, fee, duty)
    ensures 0 <= fee <= 100 && 0 <= duty <= 100
  {
    RateChargeIsCeiling(100, account.commissionRate, account.rateScale);
    RateChargeIsCeiling(100, account.stampDutyRate, account.rateScale);
  }

  lemma {:induction false} PennyInputIsValid(account: Account, fee: int, duty: int)
    requires PennyCosts(account, fee, duty)
    ensures ValidInput(PennyInput(account))
  {
    PennyCharges(account, fee, duty);
    var input := PennyInput(account);
    assert input.sessions[0].seqNo == 1 && input.sessions[1].seqNo == 2;
    forall i | 0 <= i < |input.intents|
      ensures ValidIntent(input.intents[i], input)
    {
      assert input.sessions[if i < 2 then 0 else 1].seqNo == input.intents[i].effectiveAt.session;
    }
  }

  /** One board lot of the only symbol. */
  predicate PennyIntent(t: Intent) {
    t.symbol == 0 && t.quantity == 100 && (t.side == Buy <==> t.effect == Open)
  }

  lemma {:induction false} PennyQuote(account: Account, fee: int, duty: int, n: nat, t: Intent)
    requires PennyCosts(account, fee, duty) && 1 <= n <= 2 && PennyIntent(t)
    ensures QuoteFor(account, PENNY_BARS[n - 1], t) == Ok(Quote(1, 100, fee, if t.side == Buy then 0 else duty, 0))
  {
  }

  lemma {:induction false} QuotedIsFilled(account: Account, session: Session, st: State, t: Intent, bar: Bar, q: Quote)
    requires BarOf(session.bars, t.symbol) == Ok(bar) && !Blocked(bar, t.side) && QuoteFor(account, bar, t) == Ok(q)
    ensures ProcessIntent(account, session, st, t) == FillIntent(st, session.seqNo, t, q)
  {
  }

  /** Cash, lots and totals while the penny lots are bought. */
  ghost predicate PennyHeld(st: State, cash: int, held: seq<Lot>, fees: int, peak: int) {
    && st.cash == cash && st.lots == map[0 := held] && st.closedCount == 0
    && st.totalFees == fees && st.totalStampDuty == 0 && st.totalSlippage == 0 && st.peak == peak
  }

  lemma {:induction false} PennyBuys(st: State, t: Intent, cash: int, held: seq<Lot>, fee: int, fees: int, peak: int)
    requires PennyHeld(st, cash, held, fees, peak) && PennyIntent(t) && t.side == Buy
    requires held == [] || held == [Lot(100, 1)]
    requires 0 <= fee <= 100 && 0 <= fees <= 100 && 100 + fee <= cash <= 1000
    ensures var bought := FillIntent(st, 1, t, Quote(1, 100, fee, 0, 0));
            && bought.Ok? && PennyHeld(bought.value, cash - 100 - fee, held + [Lot(100, 1)], fees + fee, peak)
            && bought.value.completed == st.completed + {t.id}
            && |bought.value.trades| == |st.trades| + 1 && |bought.value.positions| == |st.positions| + 1
  {
    var lots := held + [Lot(100, 1)];
    assert st.lots[0 := lots] == map[0 := lots];
    PennyTotals(lots);
  }

  lemma {:induction false} PennyTotals(lots: seq<Lot>)
    requires lots == [Lot(100, 1)] || lots == [Lot(100, 1), Lot(100, 1)]
    ensures CheckedTotal(lots, 0) == Ok(100 * |lots|)
    ensures CheckedEligible(lots, 1, 0) == Ok(0) && CheckedEligible(lots, 2, 0) == Ok(100 * |lots|)
  {
    assert lots[1..] == [] || lots[1..] == [Lot(100, 1)];
    assert [Lot(100, 1)][1..] == [];
  }

  lemma {:induction false} PennyDepletes()
    ensures Consume([Lot(100, 1), Lot(100, 1)], 100, 2) == Ok([Lot(100, 1)])
  {
    var one := [Lot(100, 1)];
    var held := [Lot(100, 1), Lot(100, 1)];
    PennyTotals(held);
    assert held[1..] == one;
    assert Deplete(held, 100, 2) == [Lot(0, 1)] + Deplete(one, 0, 2) == [Lot(0, 1), Lot(100, 1)];
    assert [Lot(0, 1), Lot(100, 1)][1..] == one && one[1..] == [];
    assert Retain(one) == one;
  }

  lemma {:induction false} PennySells(st: State, fee: int, duty: int, fees: int, peak: int)
    requires PennyHeld(st, 0, [Lot(100, 1), Lot(100, 1)], fees, peak)
    requires 0 <= fee <= 100 && 0 <= duty <= 100 && 0 <= fees <= 200
    ensures var sold := FillIntent(st, 2, PENNY_SALE, Quote(1, 100, fee, duty, 0));
            && sold.Ok? && sold.value.cash == 100 - fee - duty && sold.value.lots == map[0 := [Lot(100, 1)]]
            && sold.value.peak == peak && sold.value.closedCount == 0
            && sold.value.trades == st.trades + [TradeOf(PENNY_SALE, 2, Quote(1, 100, fee, duty, 0))]
            && sold.value.positions == st.positions + [PositionRecord(3, 0, 2, 100, 100)]
            && sold.value.equityCurve == st.equityCurve && sold.value.completed == st.completed + {3}
  {
    PennyDepletes();
    PennyTotals([Lot(100, 1)]);
    assert st.lots[0 := [Lot(100, 1)]] == map[0 := [Lot(100, 1)]];
  }

  /** At a mark that reaches the peak there is no drawdown to compute. */
  lemma {:induction false} PennyMark(account: Account, fee: int, duty: int, n: nat, st: State, held: int, close: int)
    requires PennyCosts(account, fee, duty) && 1 <= n <= 2 && PENNY_BARS[n - 1].close == close
    requires 0 in st.lots && CheckedTotal(st.lots[0], 0) == Ok(held) && 0 <= held <= 200
    requires -200 <= st.cash <= 200 && 1 <= st.peak <= st.cash + held * close
    ensures var marked := Mark(account, PennySession(n), st);
            && marked.Ok? && marked.value.peak == st.cash + held * close
            && |marked.value.equityCurve| == |st.equityCurve| + 1
            && marked.value.equityCurve[|st.equityCurve|].equity == st.cash + held * close
  {
    var lots, session := st.lots, PennySession(n);
    assert BarOf(session.bars, 0) == Ok(PENNY_BARS[n - 1]);
    assert MarketValue(account, session, lots, 0) == Ok(0);
    assert MarketValue(account, session, lots, 1) == Ok(held * close);
  }

  lemma {:induction false} PennySchedules()
    ensures Schedule(PENNY_TAPE, {}, 1) == PENNY_TAPE[..2]
    ensures Schedule(PENNY_TAPE, {1, 2}, 2) == [PENNY_SALE]
  {
    var second := PENNY_TAPE[1];
    assert PENNY_TAPE[1..] == [second, PENNY_SALE] && [second, PENNY_SALE][1..] == [PENNY_SALE]
           && [PENNY_SALE][1..] == [];
    assert DueIntents([PENNY_SALE], {}, 1) == [] && DueIntents([second, PENNY_SALE], {}, 1) == [second];
    assert DueIntents(PENNY_TAPE, {}, 1) == [PENNY_BUY, second] == PENNY_TAPE[..2];
    assert DueIntents([PENNY_SALE], {1, 2}, 2) == [PENNY_SALE];
    assert DueIntents([second, PENNY_SALE], {1, 2}, 2) == [PENNY_SALE];
    Sorting.SortedStays(PENNY_TAPE[..2], RunsBefore);
    Sorting.SortedStays([PENNY_SALE], RunsBefore);
  }

  lemma {:induction false} OneIntent(account: Account, session: Session, st: State, t: Intent)
    ensures ProcessIntents(account, session, st, [t], 1) == ProcessIntent(account, session, st, t)
  {
    assert ProcessIntents(account, session, st, [t], 0) == Ok(st);
  }

  lemma {:induction false} TwoIntents(account: Account, session: Session, st: State, due: seq<Intent>, mid: State)
    requires |due| == 2 && ProcessIntent(account, session, st, due[0]) == Ok(mid)
    ensures ProcessIntents(account, session, st, due, 2) == ProcessIntent(account, session, mid, due[1])
  {
    assert ProcessIntents(account, session, st, due, 0) == Ok(st);
    assert ProcessIntents(account, session, st, due, 1) == Ok(mid);
  }

  lemma {:induction false} PennyFill(account: Account, fee: int, duty: int, n: nat, st: State, t: Intent)
    requires PennyCosts(account, fee, duty) && 1 <= n <= 2 && PennyIntent(t)
    ensures ProcessIntent(account, PennySession(n), st, t)
            == FillIntent(st, n, t, Quote(1, 100, fee, if t.side == Buy then 0 else duty, 0))
  {
    PennyQuote(account, fee, duty, n, t);
    assert BarOf(PennySession(n).bars, 0) == Ok(PENNY_BARS[n - 1]);
    QuotedIsFilled(account, PennySession(n), st, t, PENNY_BARS[n - 1],
                   Quote(1, 100, fee, if t.side == Buy then 0 else duty, 0));
  }

  lemma {:induction false} PennyBought(account: Account, fee: int, duty: int) returns (st: State)
    requires PennyCosts(account, fee, duty)
    ensures ProcessIntents(account, PennySession(1), InitialState(account), PENNY_TAPE[..2], 2) == Ok(st)
    ensures PennyHeld(st, 0, [Lot(100, 1), Lot(100, 1)], 2 * fee, 200 + 2 * fee)
    ensures st.completed == {1, 2} && |st.trades| == |st.positions| == 2 && st.equityCurve == []
  {
    PennyCharges(account, fee, duty);
    var start, due := InitialState(account), PENNY_TAPE[..2];
    assert start.lots == map[0 := []];
    PennyFill(account, fee, duty, 1, start, due[0]);
    PennyBuys(start, due[0], 200 + 2 * fee, [], fee, 0, 200 + 2 * fee);
    var mid := ProcessIntent(account, PennySession(1), start, due[0]).value;
    TwoIntents(account, PennySession(1), start, due, mid);
    PennyFill(account, fee, duty, 1, mid, due[1]);
    assert [] + [Lot(100, 1)] == [Lot(100, 1)] && [Lot(100, 1)] + [Lot(100, 1)] == [Lot(100, 1), Lot(100, 1)];
    PennyBuys(mid, due[1], 100 + fee, [Lot(100, 1)], fee, fee, 200 + 2 * fee);
    st := ProcessIntent(account, PennySession(1), mid, due[1]).value;
  }

  /** The state after the first session. */
  lemma {:induction false} PennyOpens(account: Account, fee: int, duty: int) returns (st: State)
    requires PennyCosts(account, fee, duty)
    ensures RunSessions(PennyInput(account), 1) == Ok(st)
    ensures PennyHeld(st, 0, [Lot(100, 1), Lot(100, 1)], 2 * fee, 400)
    ensures st.completed == {1, 2} && |st.trades| == |st.positions| == 2 && |st.equityCurve| == 1
  {
    var input := PennyInput(account);
    PennySchedules();
    PennyCharges(account, fee, duty);
    var bought := PennyBought(account, fee, duty);
    PennyTotals([Lot(100, 1), Lot(100, 1)]);
    PennyMark(account, fee, duty, 1, bought, 200, 2);
    MarkFrame(account, PennySession(1), bought);
    st := Mark(account, PennySession(1), bought).value;
    assert RunSessions(input, 0) == Ok(InitialState(account));
    assert RunSessions(input, 1) == ProcessSession(input, PennySession(1), InitialState(account));
  }

  /** The state after the second: one lot sold for less than its costs, one left. */
  lemma {:induction false} PennyCloses(account: Account, fee: int, duty: int) returns (st: State)
    requires PennyCosts(account, fee, duty)
    ensures RunSessions(PennyInput(account), 2) == Ok(st) && st.cash == 100 - fee - duty
    ensures |st.trades| == |st.positions| == 3 && st.trades[2].effect == Close && st.positions[2].quantity == 100
    ensures st.lots == map[0 := [Lot(100, 1)]] && st.completed == {1, 2} + {3}
    ensures |st.equityCurve| == 2 && st.equityCurve[1].equity == 600 - fee - duty
  {
    var input := PennyInput(account);
    PennySchedules();
    PennyCharges(account, fee, duty);
    var first := PennyOpens(account, fee, duty);
    OneIntent(account, PennySession(2), first, PENNY_SALE);
    PennyFill(account, fee, duty, 2, first, PENNY_SALE);
    PennySells(first, fee, duty, 2 * fee, 400);
    var sold := ProcessIntent(account, PennySession(2), first, PENNY_SALE).value;
    PennyTotals([Lot(100, 1)]);
    PennyMark(account, fee, duty, 2, sold, 100, 5);
    MarkFrame(account, PennySession(2), sold);
    st := Mark(account, PennySession(2), sold).value;
    assert RunSessions(input, 2) == ProcessSession(input, PennySession(2), first);
  }

  ghost predicate SolventWithRates(scale: int, commission: int, stampDuty: int) {
    forall input: Input, k: nat |
      && ValidInput(input) && k <= |input.sessions| && RunSessions(input, k).Ok?
      && input.account.rateScale == scale && input.account.commissionRate == commission
      && input.account.stampDutyRate == stampDuty ::
      RunSessions(input, k).value.cash >= 0
  }

  /** Given the rates, no valid input ever reaches negative cash if and only if one
      board lot at price 1 can pay its own selling costs or its costs cannot be computed. */
  lemma {:induction false} SolventExactly(scale: int, commission: int, stampDuty: int)
    requires ValidRates(scale, commission, stampDuty)
    ensures SolventWithRates(scale, commission, stampDuty) <==> ChargesCovered(scale, commission, stampDuty)
  {
    if ChargesCovered(scale, commission, stampDuty) {
      forall input: Input, k: nat |
        && ValidInput(input) && k <= |input.sessions| && RunSessions(input, k).Ok?
        && input.account.rateScale == scale && input.account.commissionRate == commission
        && input.account.stampDutyRate == stampDuty
        ensures RunSessions(input, k).value.cash >= 0
      {
        RunKeeps(input, k);
      }
    } else {
      var fee, duty := RateCharge(100, commission, scale).value, RateCharge(100, stampDuty, scale).value;
      var account := PennyAccount(scale, commission, stampDuty, fee);
      PennyInputIsValid(account, fee, duty);
      var st := PennyCloses(account, fee, duty);
      assert RunSessions(PennyInput(account), 2).value.cash < 0;
    }
  }
}
