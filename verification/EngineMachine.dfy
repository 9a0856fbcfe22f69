/** The v1 engine as a checkpoint restores it: an object with one field per part of the
    state, whose methods are tied to the bar function. */
module EngineMachine {
  import opened Checked
  import opened Events
  import opened Lots
  import opened Folds
  import opened Engine
  import opened EngineInduction
  import Sorting

  lemma {:induction false} BarIs(input: Input, bar: Bar, st: State)
    ensures ProcessBar(input, bar, st) ==
            match BeforeMark(input, bar, st)
            case Err(e) => Err(e)
            case Ok(before) =>
              match MarkCurve(input.account, bar, before.book, before.curve)
              case Err(e) => Err(e)
              case Ok(curve) => Ok(State(before.log, CloseBook(input.account, before.book), curve))
  {
  }

  /** The last step before the mark of a perpetual bar. */
  lemma {:induction false} FundingEnds(input: Input, bar: Bar, st: State, traded: State)
    requires input.account.model == LinearPerp
    requires var due := Schedule(input.intents, st.log.completed, bar.seqNo);
             ProcessIntents(input.account, bar, st, due, |due|) == Ok(traded)
    ensures var events := FundingFor(input.funding, bar.seqNo);
            var funded := BookFundings(input.account, traded.book, events, |events|);
            BeforeMark(input, bar, st) == if funded.Ok? then Ok(traded.(book := funded.value)) else Err(funded.error)
  {
  }

  class ExecutionState {
    var cash: int
    var wallet: int
    var signedQuantity: int
    var entryPrice: Option<int>
    var lots: seq<Lot>
    var shortLots: seq<Lot>
    var orders: seq<OrderRecord>
    var trades: seq<TradeRecord>
    var positions: seq<PositionRecord>
    var cashLedger: seq<CashRecord>
    var fundingLedger: seq<FundingRecord>
    var equityCurve: seq<EquityPoint>
    var drawdownCurve: seq<DrawdownPoint>
    var peakEquity: int
    var maxDrawdown: int
    var maxDrawdownRate: int
    var totalFees: int
    var totalStampDuty: int
    var totalFunding: int
    var totalSlippage: int
    var closedTradeCount: nat
    var filledOcoGroups: set<Group>
    var completedIntents: set<Id>

    ghost function LogView(): OrderLog
      reads this
    {
      OrderLog(orders, completedIntents, filledOcoGroups)
    }

    ghost function BookView(): Book
      reads this
    {
      Book(cash, wallet, signedQuantity, entryPrice, lots, shortLots, trades, positions,
           cashLedger, fundingLedger, totalFees, totalStampDuty, totalFunding, totalSlippage,
           closedTradeCount)
    }

    ghost function CurveView(): Curve
      reads this
    {
      Curve(equityCurve, drawdownCurve, peakEquity, maxDrawdown, maxDrawdownRate)
    }

    ghost function View(): State
      reads this
    {
      State(LogView(), BookView(), CurveView())
    }

    constructor (account: Account)
      ensures View() == InitialState(account)
    {
      cash, wallet := account.startingBalance, account.startingBalance;
      signedQuantity, entryPrice, lots, shortLots := 0, None, [], [];
      orders, trades, positions, cashLedger, fundingLedger := [], [], [], [], [];
      equityCurve, drawdownCurve := [], [];
      peakEquity, maxDrawdown, maxDrawdownRate := account.startingBalance, 0, 0;
      totalFees, totalStampDuty, totalFunding, totalSlippage := 0, 0, 0, 0;
      closedTradeCount, filledOcoGroups, completedIntents := 0, {}, {};
    }

    constructor FromCheckpoint(st: State)
      ensures View() == st
    {
      cash, wallet, signedQuantity := st.book.cash, st.book.wallet, st.book.quantity;
      entryPrice, lots, shortLots := st.book.entry, st.book.longLots, st.book.shortLots;
      trades, positions := st.book.trades, st.book.positions;
      cashLedger, fundingLedger := st.book.cashLedger, st.book.fundingLedger;
      totalFees, totalStampDuty := st.book.totalFees, st.book.totalStampDuty;
      totalFunding, totalSlippage := st.book.totalFunding, st.book.totalSlippage;
      closedTradeCount := st.book.closedCount;
      orders, completedIntents, filledOcoGroups := st.log.orders, st.log.completed, st.log.filledOco;
      equityCurve, drawdownCurve := st.curve.equity, st.curve.drawdown;
      peakEquity, maxDrawdown, maxDrawdownRate := st.curve.peak, st.curve.maxDrawdown, st.curve.maxDrawdownRate;
    }

    method ToCheckpoint() returns (st: State)
      ensures st == View()
    {
      st := State(
        OrderLog(orders, completedIntents, filledOcoGroups),
        Book(cash, wallet, signedQuantity, entryPrice, lots, shortLots, trades, positions,
             cashLedger, fundingLedger, totalFees, totalStampDuty, totalFunding, totalSlippage,
             closedTradeCount),
        Curve(equityCurve, drawdownCurve, peakEquity, maxDrawdown, maxDrawdownRate));
    }

    // ---- the position after a fill ----

    /** The fields are as `expected` says, or its error was returned. */
    ghost predicate Moved(r: Result<()>, expected: Result<Move>, closedBefore: nat)
      reads this
    {
      match expected
      case Err(e) => r == Err(e)
      case Ok(m) =>
        && r == Ok(())
        && signedQuantity == m.quantity && entryPrice == m.entry
        && lots == m.longLots && shortLots == m.shortLots
        && closedTradeCount == closedBefore + if m.closes then 1 else 0
    }

    method OpenLong(account: Account, session: nat, t: Intent, c: Costs) returns (r: Result<()>)
      requires t.side == Buy && t.effect == Open
      modifies this`cash, this`signedQuantity, this`lots
      ensures Moved(r, AShareMove(account, session, old(BookView()), t, c), old(closedTradeCount))
      ensures r.Ok? ==> cash == AShareMove(account, session, old(BookView()), t, c).value.cash
    {
      if signedQuantity < 0 { return Err(CrossesPosition); }
      var debit :- CheckedAdd(c.notional, c.fee);
      cash :- CheckedSub(cash, debit);
      signedQuantity :- CheckedAdd(signedQuantity, t.quantity);
      lots := lots + [Lot(t.quantity, session)];
      return Ok(());
    }

    method CloseLong(account: Account, session: nat, t: Intent, c: Costs) returns (r: Result<()>)
      requires t.side == Sell && t.effect == Close
      modifies this`cash, this`signedQuantity, this`lots, this`closedTradeCount
      ensures Moved(r, AShareMove(account, session, old(BookView()), t, c), old(closedTradeCount))
      ensures r.Ok? ==> cash == AShareMove(account, session, old(BookView()), t, c).value.cash
    {
      if signedQuantity <= 0 { return Err(CrossesPosition); }
      var left := ConsumeEligibleLots(lots, t.quantity, session);
      if left.Err? { return Err(left.error); }
      lots := left.value;
      signedQuantity :- CheckedSub(signedQuantity, t.quantity);
      var costs :- CheckedAdd(c.fee, c.stampDuty);
      var proceeds :- CheckedSub(c.notional, costs);
      cash :- CheckedAdd(cash, proceeds);
      if signedQuantity == 0 { closedTradeCount := closedTradeCount + 1; }
      return Ok(());
    }

    method OpenShort(account: Account, session: nat, t: Intent, c: Costs) returns (r: Result<()>)
      requires t.side == Sell && t.effect == Open && account.allowShort
      modifies this`cash, this`signedQuantity, this`shortLots
      ensures Moved(r, AShareMove(account, session, old(BookView()), t, c), old(closedTradeCount))
      ensures r.Ok? ==> cash == AShareMove(account, session, old(BookView()), t, c).value.cash
    {
      if signedQuantity > 0 { return Err(CrossesPosition); }
      signedQuantity :- CheckedSub(signedQuantity, t.quantity);
      shortLots := shortLots + [Lot(t.quantity, session)];
      var costs :- CheckedAdd(c.fee, c.stampDuty);
      var proceeds :- CheckedSub(c.notional, costs);
      cash :- CheckedAdd(cash, proceeds);
      return Ok(());
    }

    method CoverShort(account: Account, session: nat, t: Intent, c: Costs) returns (r: Result<()>)
      requires t.side == Buy && t.effect == Close && account.allowShort
      modifies this`cash, this`signedQuantity, this`shortLots, this`closedTradeCount
      ensures Moved(r, AShareMove(account, session, old(BookView()), t, c), old(closedTradeCount))
      ensures r.Ok? ==> cash == AShareMove(account, session, old(BookView()), t, c).value.cash
    {
      if signedQuantity >= 0 { return Err(CrossesPosition); }
      var left := ConsumeEligibleLots(shortLots, t.quantity, session);
      if left.Err? { return Err(left.error); }
      shortLots := left.value;
      signedQuantity :- CheckedAdd(signedQuantity, t.quantity);
      var debit :- CheckedAdd(c.notional, c.fee);
      cash :- CheckedSub(cash, debit);
      if signedQuantity == 0 { closedTradeCount := closedTradeCount + 1; }
      return Ok(());
    }

    method MoveAShare(account: Account, session: nat, t: Intent, c: Costs) returns (r: Result<()>)
      modifies this`cash, this`signedQuantity, this`lots, this`shortLots, this`closedTradeCount
      ensures Moved(r, AShareMove(account, session, old(BookView()), t, c), old(closedTradeCount))
      ensures r.Ok? ==> cash == AShareMove(account, session, old(BookView()), t, c).value.cash
    {
      if t.side == Buy && t.effect == Open {
        r := OpenLong(account, session, t, c);
      } else if t.side == Sell && t.effect == Close {
        r := CloseLong(account, session, t, c);
      } else if t.side == Sell && t.effect == Open && account.allowShort {
        r := OpenShort(account, session, t, c);
      } else if t.side == Buy && t.effect == Close && account.allowShort {
        r := CoverShort(account, session, t, c);
      } else {
        return Err(Unsupported);
      }
    }

    method MovePerp(t: Intent, fill: Fill, c: Costs) returns (r: Result<int>)
      modifies this`cash, this`wallet, this`signedQuantity, this`entryPrice, this`closedTradeCount
      ensures match PerpMove(old(BookView()), t, fill, c)
              case Err(e) => r == Err(e)
              case Ok(m) =>
                r == Ok(m.realized) && Moved(Ok(()), Ok(m), old(closedTradeCount)) && cash == wallet == m.cash
    {
      var realized := 0;
      if t.effect == Open {
        if signedQuantity != 0 { return Err(NotFlat); }
        var need :- CheckedAdd(c.notional, c.fee);
        if need > wallet { return Err(OneXCap); }
        signedQuantity := if t.side == Buy then t.quantity else -t.quantity;
        entryPrice := Some(fill.price);
      } else {
        if signedQuantity != (if t.side == Sell then t.quantity else -t.quantity) { return Err(CrossesPosition); }
        var entry :- Unwrap(entryPrice);
        var gain :- if t.side == Sell then CheckedSub(fill.price, entry) else CheckedSub(entry, fill.price);
        realized :- CheckedMul(gain, t.quantity);
        signedQuantity, entryPrice := 0, None;
        closedTradeCount := closedTradeCount + 1;
      }
      wallet :- CheckedAdd(wallet, realized);
      wallet :- CheckedSub(wallet, c.fee);
      cash := wallet;
      return Ok(realized);
    }

    // ---- the records of a fill ----

    method PushFill(session: nat, t: Intent, fill: Fill, c: Costs, notionalDelta: int, realized: int, eligible: int)
      modifies this`trades, this`positions, this`cashLedger
      ensures trades == old(trades) + [TradeOf(t, session, fill, c)]
      ensures positions == old(positions) + [PositionRecord(t.id, session, signedQuantity, eligible)]
      ensures cashLedger == old(cashLedger) + [FillCashRecord(t, session, c, notionalDelta, realized, cash)]
    {
      trades := trades + [TradeOf(t, session, fill, c)];
      positions := positions + [PositionRecord(t.id, session, signedQuantity, eligible)];
      cashLedger := cashLedger + [FillCashRecord(t, session, c, notionalDelta, realized, cash)];
    }

    /** Shares that could be sold, or covered, from earlier sessions. */
    method EligibleShares(account: Account, session: nat) returns (r: Result<int>)
      requires account.model == AShareCash
      ensures r == EligibleNow(account, session, BookView())
    {
      if signedQuantity >= 0 {
        r := CheckedEligible(lots, session, 0);
      } else {
        var short :- CheckedEligible(shortLots, session, 0);
        r := Ok(-short);
      }
    }

    method RecordAShare(account: Account, session: nat, t: Intent, fill: Fill, c: Costs) returns (r: Result<()>)
      requires account.model == AShareCash
      modifies this`totalFees, this`totalStampDuty, this`totalSlippage, this`trades, this`positions, this`cashLedger
      ensures Booked(r, RecordFill(account, session, old(BookView()), t, fill, c,
                                   if t.side == Buy then -c.notional else c.notional, 0))
    {
      totalFees :- CheckedAdd(totalFees, c.fee);
      totalStampDuty :- CheckedAdd(totalStampDuty, c.stampDuty);
      totalSlippage :- CheckedAdd(totalSlippage, c.slippage);
      var eligible :- EligibleShares(account, session);
      PushFill(session, t, fill, c, if t.side == Buy then -c.notional else c.notional, 0, eligible);
      return Ok(());
    }

    method RecordPerp(account: Account, session: nat, t: Intent, fill: Fill, c: Costs, realized: int)
        returns (r: Result<()>)
      requires account.model == LinearPerp
      modifies this`totalFees, this`totalSlippage, this`trades, this`positions, this`cashLedger
      ensures Booked(r, RecordFill(account, session, old(BookView()), t, fill, c, 0, realized))
    {
      totalFees :- CheckedAdd(totalFees, c.fee);
      totalSlippage :- CheckedAdd(totalSlippage, c.slippage);
      PushFill(session, t, fill, c, 0, realized, 0);
      return Ok(());
    }

    method PushOrder(t: Intent, status: Status, session: Option<nat>, phase: Option<Phase>)
      modifies this`orders, this`completedIntents
      ensures orders == old(orders) + [OrderOf(t, status, session, phase)]
      ensures completedIntents == old(completedIntents) + {t.id}
    {
      orders := orders + [OrderOf(t, status, session, phase)];
      completedIntents := completedIntents + {t.id};
    }

    /** The outcome of a bookkeeping step on the position and ledgers. */
    ghost predicate Booked(r: Result<()>, expected: Result<Book>)
      reads this
    {
      match expected
      case Err(e) => r == Err(e)
      case Ok(b) => r == Ok(()) && BookView() == b
    }

    method FillAShare(account: Account, session: nat, t: Intent, fill: Fill) returns (r: Result<()>)
      requires account.model == AShareCash
      modifies this`cash, this`signedQuantity, this`lots, this`shortLots, this`closedTradeCount
      modifies this`totalFees, this`totalStampDuty, this`totalSlippage, this`trades, this`positions, this`cashLedger
      ensures Booked(r, BookFill(account, session, old(BookView()), t, fill))
    {
      ghost var before := BookView();
      var c :- CostsOf(account, t, fill);
      AShareFillIs(account, session, before, t, fill, c);
      ghost var move := AShareMove(account, session, before, t, c);
      var moved := MoveAShare(account, session, t, c);
      if moved.Ok? {
        assert BookView() == AfterMove(account, before, move.value);
        r := RecordAShare(account, session, t, fill, c);
      } else {
        r := moved;
      }
    }

    method FillPerp(account: Account, session: nat, t: Intent, fill: Fill) returns (r: Result<()>)
      requires account.model == LinearPerp
      modifies this`cash, this`wallet, this`signedQuantity, this`entryPrice, this`closedTradeCount
      modifies this`totalFees, this`totalSlippage, this`trades, this`positions, this`cashLedger
      ensures Booked(r, BookFill(account, session, old(BookView()), t, fill))
    {
      var c :- CostsOf(account, t, fill);
      var realized := MovePerp(t, fill, c);
      if realized.Err? { return Err(realized.error); }
      r := RecordPerp(account, session, t, fill, c, realized.value);
    }

    // ---- one intent ----

    /** The state is as `expected` says, or its error was returned. */
    ghost predicate Reached(r: Result<()>, expected: Result<State>)
      reads this
    {
      match expected
      case Err(e) => r == Err(e)
      case Ok(st) => r == Ok(()) && View() == st
    }

    method FillEither(account: Account, session: nat, t: Intent, fill: Fill) returns (r: Result<()>)
      modifies this
      ensures LogView() == old(LogView()) && CurveView() == old(CurveView())
      ensures Booked(r, BookFill(account, session, old(BookView()), t, fill))
    {
      if account.model == AShareCash {
        r := FillAShare(account, session, t, fill);
      } else {
        r := FillPerp(account, session, t, fill);
      }
    }

    method ExecuteIntent(account: Account, bar: Bar, t: Intent) returns (r: Result<()>)
      modifies this
      ensures Reached(r, ProcessIntent(account, bar, old(View()), t))
    {
      if t.oco.Some? && t.oco.value in filledOcoGroups {
        PushOrder(t, Cancelled, None, None);
        return Ok(());
      }
      var decision :- FillDecision(account, bar, t);
      if decision.None? {
        if t.timeInForce == Day { PushOrder(t, Expired, None, None); }
        return Ok(());
      }
      var fill := decision.value;
      r := FillEither(account, bar.seqNo, t, fill);
      if r.Err? { return; }
      PushOrder(t, Filled, Some(bar.seqNo), Some(fill.phase));
      if t.oco.Some? { filledOcoGroups := filledOcoGroups + {t.oco.value}; }
    }

    method ExecuteIntents(input: Input, bar: Bar) returns (r: Result<()>)
      modifies this
      ensures var due := Schedule(input.intents, old(completedIntents), bar.seqNo);
              Reached(r, ProcessIntents(input.account, bar, old(View()), due, |due|))
    {
      var due := Schedule(input.intents, completedIntents, bar.seqNo);
      for i := 0 to |due|
        invariant ProcessIntents(input.account, bar, old(View()), due, i) == Ok(View())
      {
        if ProcessIntents(input.account, bar, old(View()), due, i + 1).Err? {
          FoldStops(IntentStep(input.account, bar), old(View()), due, 0, i + 1, |due|);
        }
        var done := ExecuteIntent(input.account, bar, due[i]);
        if done.Err? { return done; }
      }
      return Ok(());
    }

    // ---- the end of a bar ----

    method PushMark(account: Account, bar: Bar, money: int, marked: int) returns (r: Result<()>)
      modifies this`peakEquity, this`maxDrawdown, this`maxDrawdownRate, this`equityCurve, this`drawdownCurve
      requires MarkedPosition(account, BookView(), bar.close) == Ok(marked)
      requires money == MoneyOf(account, BookView())
      ensures match MarkCurve(account, bar, old(BookView()), old(CurveView()))
              case Err(e) => r == Err(e)
              case Ok(c) => r == Ok(()) && CurveView() == c
    {
      var equity :- CheckedAdd(money, marked);
      peakEquity := Max(peakEquity, equity);
      var drawdown :- CheckedSub(equity, peakEquity);
      var numerator :- CheckedMul(drawdown, account.rateScale);
      var rate :- CheckedDiv(numerator, peakEquity);
      maxDrawdown := Min(maxDrawdown, drawdown);
      maxDrawdownRate := Min(maxDrawdownRate, rate);
      equityCurve := equityCurve
        + [EquityPoint(bar.seqNo, bar.timestamp, bar.close, money, signedQuantity, equity)];
      drawdownCurve := drawdownCurve + [DrawdownPoint(bar.seqNo, equity, peakEquity, drawdown, rate)];
      return Ok(());
    }

    method CostOfFunding(account: Account, event: FundingEvent) returns (r: Result<int>)
      ensures r == FundingCost(account, signedQuantity, event)
    {
      var cost := 0;
      if signedQuantity != 0 {
        var size :- Exact(if signedQuantity < 0 then -signedQuantity else signedQuantity);
        var notional :- CheckedMul(size, event.mark);
        var charge :- SignedRateCharge(notional, event.rate, account.rateScale);
        if signedQuantity > 0 { cost := charge; } else { cost :- CheckedSub(0, charge); }
      }
      return Ok(cost);
    }

    method ApplyFunding(account: Account, event: FundingEvent) returns (r: Result<()>)
      modifies this`wallet, this`cash, this`totalFunding, this`cashLedger, this`fundingLedger
      ensures Booked(r, BookFunding(account, old(BookView()), event))
    {
      ghost var booked := BookFunding(account, BookView(), event);
      var cost :- CostOfFunding(account, event);
      var delta :- CheckedSub(0, cost);
      wallet :- CheckedAdd(wallet, delta);
      cash := wallet;
      totalFunding :- CheckedAdd(totalFunding, cost);
      cashLedger := cashLedger
        + [CashRecord(FromFunding(event.id), event.key.session, 0, 0, 0, 0, delta, wallet)];
      fundingLedger := fundingLedger
        + [FundingRecord(event.id, event.key.session, signedQuantity, event.rate, event.mark, delta, wallet)];
      assert booked == Ok(BookView());
      return Ok(());
    }

    method ApplyFundings(account: Account, events: seq<FundingEvent>) returns (r: Result<()>)
      modifies this`wallet, this`cash, this`totalFunding, this`cashLedger, this`fundingLedger
      ensures Booked(r, BookFundings(account, old(BookView()), events, |events|))
    {
      for i := 0 to |events|
        invariant BookFundings(account, old(BookView()), events, i) == Ok(BookView())
      {
        if BookFundings(account, old(BookView()), events, i + 1).Err? {
          FoldStops(FundingStep(account), old(BookView()), events, 0, i + 1, |events|);
        }
        var done := ApplyFunding(account, events[i]);
        if done.Err? { return done; }
      }
      return Ok(());
    }

    /** The book and the curve after a bar, or the error of marking it. */
    ghost predicate Marked(r: Result<()>, account: Account, bar: Bar, b: Book, c: Curve)
      reads this
    {
      match MarkCurve(account, bar, b, c)
      case Err(e) => r == Err(e)
      case Ok(next) => r == Ok(()) && CurveView() == next && BookView() == CloseBook(account, b)
    }

    method MarkAShare(account: Account, bar: Bar) returns (r: Result<()>)
      requires account.model == AShareCash
      modifies this`peakEquity, this`maxDrawdown, this`maxDrawdownRate, this`equityCurve, this`drawdownCurve,
               this`wallet
      ensures Marked(r, account, bar, old(BookView()), old(CurveView()))
    {
      var marked :- CheckedMul(signedQuantity, bar.close);
      r := PushMark(account, bar, cash, marked);
      if r.Err? { return; }
      wallet := cash;
    }

    method MarkPerp(account: Account, bar: Bar) returns (r: Result<()>)
      requires account.model == LinearPerp
      modifies this`peakEquity, this`maxDrawdown, this`maxDrawdownRate, this`equityCurve, this`drawdownCurve
      ensures Marked(r, account, bar, old(BookView()), old(CurveView()))
    {
      var unrealized :- UnrealizedPnl(signedQuantity, entryPrice, bar.close);
      r := PushMark(account, bar, wallet, unrealized);
    }

    method ProcessAShareBar(input: Input, bar: Bar) returns (r: Result<()>)
      requires input.account.model == AShareCash
      modifies this
      ensures Reached(r, ProcessBar(input, bar, old(View())))
    {
      r := ExecuteIntents(input, bar);
      if r.Err? { return; }
      r := MarkAShare(input.account, bar);
    }

    /** The intents of a bar, then its funding. */
    method TradeAndFund(input: Input, bar: Bar) returns (r: Result<()>)
      requires input.account.model == LinearPerp
      modifies this
      ensures Reached(r, BeforeMark(input, bar, old(View())))
    {
      ghost var st := View();
      r := ExecuteIntents(input, bar);
      if r.Err? { return; }
      ghost var traded := View();
      r := ApplyFundings(input.account, FundingFor(input.funding, bar.seqNo));
      FundingEnds(input, bar, st, traded);
    }

    method ProcessCryptoBar(input: Input, bar: Bar) returns (r: Result<()>)
      requires input.account.model == LinearPerp
      modifies this
      ensures Reached(r, ProcessBar(input, bar, old(View())))
    {
      BarIs(input, bar, View());
      r := TradeAndFund(input, bar);
      if r.Err? { return; }
      r := MarkPerp(input.account, bar);
    }

    method ProcessNextBar(input: Input, bar: Bar) returns (r: Result<()>)
      modifies this
      ensures Reached(r, ProcessBar(input, bar, old(View())))
    {
      if input.account.model == AShareCash {
        r := ProcessAShareBar(input, bar);
      } else {
        r := ProcessCryptoBar(input, bar);
      }
    }

    method ExpireUnfinished(intents: seq<Intent>)
      modifies this`orders
      ensures orders == ExpireRest(old(orders), intents, completedIntents, |intents|)
    {
      for i := 0 to |intents|
        invariant orders == ExpireRest(old(orders), intents, completedIntents, i)
      {
        if intents[i].id !in completedIntents { orders := orders + [OrderOf(intents[i], Expired, None, None)]; }
      }
    }

    method FinishRun(input: Input) returns (r: Result<Output>)
      modifies this`orders
      ensures r == Finish(input, old(View()))
    {
      var balance, perp := input.account.startingBalance, input.account.model == LinearPerp;
      ExpireUnfinished(input.intents);
      var ending := if equityCurve == [] then balance else equityCurve[|equityCurve| - 1].equity;
      var netPnl :- CheckedSub(ending, balance);
      var numerator :- CheckedMul(netPnl, input.account.rateScale);
      var totalReturn :- CheckedDiv(numerator, balance);
      return Ok(Output(input.account.model, Sorting.Sort(orders, EarlierOrder), trades, positions, cashLedger,
                       if perp then fundingLedger else [], equityCurve, drawdownCurve,
                       Metrics(balance, ending, netPnl, totalReturn, maxDrawdown, maxDrawdownRate, totalFees,
                               if perp then 0 else totalStampDuty, if perp then totalFunding else 0, totalSlippage,
                               |trades|, closedTradeCount, if signedQuantity != 0 then 1 else 0)));
    }
  }

  /** A batch of bars run on the object, as a checkpoint step does it. */
  lemma {:induction false} AShareFillIs(account: Account, session: nat, b: Book, t: Intent, fill: Fill, c: Costs)
    requires account.model == AShareCash && CostsOf(account, t, fill) == Ok(c)
    ensures BookFill(account, session, b, t, fill) ==
            match AShareMove(account, session, b, t, c)
            case Err(e) => Err(e)
            case Ok(m) => RecordFill(account, session, AfterMove(account, b, m), t, fill, c,
                                     if t.side == Buy then -c.notional else c.notional, 0)
  {
  }

  method RunBatch(state: ExecutionState, input: Input, start: nat, end: nat) returns (r: Result<()>)
    requires start <= end <= |input.bars|
    modifies state
    ensures state.Reached(r, BarsFrom(input, old(state.View()), start, end))
  {
    for i := start to end
      invariant BarsFrom(input, old(state.View()), start, i) == Ok(state.View())
    {
      if BarsFrom(input, old(state.View()), start, i + 1).Err? {
        FoldStops(BarStep(input), old(state.View()), input.bars, start, i + 1, end);
      }
      var done := state.ProcessNextBar(input, input.bars[i]);
      if done.Err? { return done; }
    }
    return Ok(());
  }
}
