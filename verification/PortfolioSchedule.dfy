/** Closing before opening is the best order a session can take: if any order of its
    due intents passes every check, the engine's order passes too and ends with the
    same cash and the same shares. */
module PortfolioSchedule {
  import opened Checked
  import opened Events
  import opened Lots
  import opened Portfolio
  import opened PortfolioInvariant
  import opened PortfolioSolvency
  import opened PortfolioAccounting
  import opened Sequences
  import opened Folds
  import Sorting

  // ---- what an intent does to cash and shares, whatever the order ----

  /** A quote if the bar lets the intent trade; an expiring intent changes nothing. */
  function FillOf(account: Account, session: Session, t: Intent): Option<Quote> {
    var bar := BarOf(session.bars, t.symbol);
    if bar.Ok? && !Blocked(bar.value, t.side) then
      var q := QuoteFor(account, bar.value, t);
      if q.Ok? then Some(q.value) else None
    else None
  }

  /** The checks of an intent that no other intent can influence. */
  predicate Quotable(account: Account, session: Session, t: Intent) {
    var bar := BarOf(session.bars, t.symbol);
    bar.Ok? &&
    (Blocked(bar.value, t.side) ||
     var q := QuoteFor(account, bar.value, t);
     && q.Ok?
     && if t.side == Buy then InI128(q.value.notional + q.value.fee)
        else InI128(q.value.fee + q.value.stampDuty)
             && InI128(q.value.notional - (q.value.fee + q.value.stampDuty)))
  }

  function CashOf(account: Account, session: Session): Intent -> int {
    (t: Intent) => match FillOf(account, session, t)
         case None => 0
         case Some(q) => if t.side == Buy then -q.notional - q.fee else q.notional - q.fee - q.stampDuty
  }

  /** The cash a closing intent brings in. */
  function ProceedsOf(account: Account, session: Session): Intent -> int {
    (t: Intent) => if t.effect == Close then CashOf(account, session)(t) else 0
  }

  function FeeOf(account: Account, session: Session): Intent -> int {
    (t: Intent) => match FillOf(account, session, t) case None => 0 case Some(q) => q.fee
  }

  function StampDutyOf(account: Account, session: Session): Intent -> int {
    (t: Intent) => match FillOf(account, session, t) case None => 0 case Some(q) => q.stampDuty
  }

  function SlippageOf(account: Account, session: Session): Intent -> int {
    (t: Intent) => match FillOf(account, session, t) case None => 0 case Some(q) => q.slippage
  }

  function SoldOf(account: Account, session: Session, symbol: Symbol): Intent -> int {
    (t: Intent) => if t.symbol == symbol && t.effect == Close && FillOf(account, session, t).Some? then t.quantity
                   else 0
  }

  function BoughtOf(account: Account, session: Session, symbol: Symbol): Intent -> int {
    (t: Intent) => if t.symbol == symbol && t.effect == Open && FillOf(account, session, t).Some? then t.quantity else 0
  }

  lemma {:induction false} FillIsSigned(account: Account, session: Session, t: Intent)
    requires ValidAccount(account) && CostsCovered(account) && ValidSession(session, account)
    requires TradableIntent(t, account.symbols)
    ensures FillOf(account, session, t).Some? ==>
              var q := FillOf(account, session, t).value;
              && q.notional > 0 && q.fee >= 0 && q.stampDuty >= 0 && q.slippage >= 0
              && (t.side == Sell ==> q.notional - q.fee - q.stampDuty >= 0)
  {
    BarIsValid(session, account, t.symbol);
    if FillOf(account, session, t).Some? {
      var bar := BarOf(session.bars, t.symbol).value;
      QuoteIsPositive(account, bar, t);
      if t.side == Sell { ProceedsNonNegative(account, bar, t); }
    }
  }

  lemma {:induction false} EffectsAreSigned(account: Account, session: Session, t: Intent)
    requires ValidAccount(account) && CostsCovered(account) && ValidSession(session, account)
    requires TradableIntent(t, account.symbols)
    ensures FeeOf(account, session)(t) >= 0 && StampDutyOf(account, session)(t) >= 0
    ensures SlippageOf(account, session)(t) >= 0
    ensures ProceedsOf(account, session)(t) >= 0
    ensures t.effect == Open ==> CashOf(account, session)(t) <= 0
    ensures t.effect == Close ==> CashOf(account, session)(t) == ProceedsOf(account, session)(t)
    ensures forall s {:trigger SoldOf(account, session, s)} :: SoldOf(account, session, s)(t) >= 0
    ensures forall s {:trigger BoughtOf(account, session, s)} :: BoughtOf(account, session, s)(t) >= 0
  {
    FillIsSigned(account, session, t);
    var fill := FillOf(account, session, t);
    if t.effect == Close && fill.Some? {
      assert t.side == Sell;
      assert CashOf(account, session)(t) == fill.value.notional - fill.value.fee - fill.value.stampDuty;
    }
    assert ProceedsOf(account, session)(t) == if t.effect == Close then CashOf(account, session)(t) else 0;
  }

  // ---- one order of intents: its state in closed form ----

  /** The state after the intents `due`, up to its records. */
  ghost predicate ReachedBy(account: Account, session: Session, start: State, st: State, due: seq<Intent>) {
    && Holdings(st.lots, account.symbols, session.seqNo) && InRange(st)
    && st.cash == start.cash + Sum(due, CashOf(account, session))
    && st.totalFees == start.totalFees + Sum(due, FeeOf(account, session))
    && st.totalStampDuty == start.totalStampDuty + Sum(due, StampDutyOf(account, session))
    && st.totalSlippage == start.totalSlippage + Sum(due, SlippageOf(account, session))
    && forall s | s in account.symbols :: SharesReached(account, session, start, st, due, s)
  }

  ghost predicate SharesReached(account: Account, session: Session, start: State, st: State, due: seq<Intent>,
      s: Symbol) {
    var sold, bought := Sum(due, SoldOf(account, session, s)), Sum(due, BoughtOf(account, session, s));
    && s in start.lots && s in st.lots
    && 0 <= sold <= |Shares(start.lots[s])| && 0 <= bought
    && Shares(st.lots[s]) == Shares(start.lots[s])[sold..] + Copies(session.seqNo, bought)
    && Eligible(st.lots[s], session.seqNo) == Eligible(start.lots[s], session.seqNo) - sold
  }

  lemma {:induction false} CopiesJoin(x: int, a: nat, b: nat)
    ensures Copies(x, a) + Copies(x, b) == Copies(x, a + b)
  {
    CopiesAre(x, a);
    CopiesAre(x, b);
    CopiesAre(x, a + b);
  }

  lemma {:induction false} LastBelow(a: seq<int>, b: seq<int>, n: nat, session: int)
    requires 0 < n <= |a + b| && (a + b)[n - 1] < session
    requires forall k :: 0 <= k < |b| ==> b[k] == session
    ensures n <= |a|
  {
  }

  /** One fill seen from the shares of its own symbol. */
  lemma {:induction false} SharesStep(start: seq<int>, held: seq<Lot>, session: nat, t: Intent, sold: nat, bought: nat)
    requires WellFormed(held, session) && t.quantity > 0
    requires t.side == Sell ==> t.quantity <= Eligible(held, session)
    requires sold <= |start| && Shares(held) == start[sold..] + Copies(session, bought)
    requires forall k :: 0 <= k < |Copies(session, bought)| ==> Copies(session, bought)[k] == session
    ensures t.side == Buy ==>
              Shares(LotsAfter(held, session, t)) == start[sold..] + Copies(session, bought + t.quantity)
    ensures t.side == Sell ==>
              && sold + t.quantity <= |start|
              && Shares(LotsAfter(held, session, t)) == start[sold + t.quantity..] + Copies(session, bought)
  {
    if t.side == Buy {
      AppendLot(held, t.quantity, session);
      CopiesJoin(session, bought, t.quantity);
      assert start[sold..] + Copies(session, bought) + Copies(session, t.quantity)
          == start[sold..] + (Copies(session, bought) + Copies(session, t.quantity));
    } else {
      SaleLeaves(held, t.quantity, session, session);
      EligiblePrefix(held, session, session);
      LastBelow(start[sold..], Copies(session, bought), t.quantity, session);
      DropConcat(start[sold..], Copies(session, bought), t.quantity);
      assert start[sold..][t.quantity..] == start[sold + t.quantity..];
    }
  }

  /** One fill of the symbol, from the shares it started with. */
  lemma {:induction false} SymbolFilled(start: seq<Lot>, held: seq<Lot>, session: nat, t: Intent, sold: nat,
      bought: nat)
    requires WellFormed(held, session) && t.quantity > 0
    requires t.side == Sell ==> t.quantity <= Eligible(held, session)
    requires sold <= |Shares(start)| && Shares(held) == Shares(start)[sold..] + Copies(session, bought)
    requires Eligible(held, session) == Eligible(start, session) - sold
    ensures var nextSold, nextBought := if t.side == Buy then sold else sold + t.quantity,
                                        if t.side == Buy then bought + t.quantity else bought;
            && nextSold <= |Shares(start)|
            && Shares(LotsAfter(held, session, t)) == Shares(start)[nextSold..] + Copies(session, nextBought)
            && Eligible(LotsAfter(held, session, t), session) == Eligible(start, session) - nextSold
  {
    CopiesAre(session, bought);
    SharesStep(Shares(start), held, session, t, sold, bought);
    LotsAfterWellFormed(held, session, t);
  }

  lemma {:induction false} OtherReachedStep(account: Account, session: Session, start: State, st: State,
      due: seq<Intent>, t: Intent, next: State, s: Symbol)
    requires SharesReached(account, session, start, st, due, s) && s in next.lots && next.lots[s] == st.lots[s]
    requires s != t.symbol || FillOf(account, session, t).None?
    ensures SharesReached(account, session, start, next, due + [t], s)
  {
    SumAppend(due, t, SoldOf(account, session, s));
    SumAppend(due, t, BoughtOf(account, session, s));
  }

  lemma {:induction false} SymbolReachedStep(account: Account, session: Session, start: State, st: State,
      due: seq<Intent>, t: Intent, next: State, s: Symbol)
    requires TradableIntent(t, account.symbols) && s in account.symbols
    requires Holdings(st.lots, account.symbols, session.seqNo)
    requires SharesReached(account, session, start, st, due, s)
    requires t.symbol in st.lots
    requires t.side == Sell && FillOf(account, session, t).Some? ==>
               t.quantity <= Eligible(st.lots[t.symbol], session.seqNo)
    requires next.lots == if FillOf(account, session, t).Some?
                          then st.lots[t.symbol := LotsAfter(st.lots[t.symbol], session.seqNo, t)] else st.lots
    ensures SharesReached(account, session, start, next, due + [t], s)
  {
    if s == t.symbol && FillOf(account, session, t).Some? {
      SumAppend(due, t, SoldOf(account, session, s));
      SumAppend(due, t, BoughtOf(account, session, s));
      SymbolFilled(start.lots[s], st.lots[s], session.seqNo, t, Sum(due, SoldOf(account, session, s)),
                   Sum(due, BoughtOf(account, session, s)));
    } else {
      OtherReachedStep(account, session, start, st, due, t, next, s);
    }
  }

  lemma {:induction false} AmountsStep(account: Account, session: Session, st: State, t: Intent)
    requires TradableIntent(t, account.symbols)
    requires Holdings(st.lots, account.symbols, session.seqNo) && InRange(st)
    requires ProcessIntent(account, session, st, t).Ok?
    ensures Quotable(account, session, t)
    ensures var next := ProcessIntent(account, session, st, t).value;
            && InRange(next)
            && next.cash == st.cash + CashOf(account, session)(t)
            && next.totalFees == st.totalFees + FeeOf(account, session)(t)
            && next.totalStampDuty == st.totalStampDuty + StampDutyOf(account, session)(t)
            && next.totalSlippage == st.totalSlippage + SlippageOf(account, session)(t)
            && next.lots == (if FillOf(account, session, t).Some?
                             then st.lots[t.symbol := LotsAfter(st.lots[t.symbol], session.seqNo, t)] else st.lots)
    ensures t.side == Sell && FillOf(account, session, t).Some? ==>
              t.quantity <= Eligible(st.lots[t.symbol], session.seqNo)
  {
    var bar := BarOf(session.bars, t.symbol).value;
    if !Blocked(bar, t.side) {
      var q := QuoteFor(account, bar, t).value;
      SettleIs(st, session.seqNo, t, q, account.symbols);
    }
  }

  lemma {:induction false} HoldingsStep(account: Account, session: Session, st: State, t: Intent)
    requires TradableIntent(t, account.symbols)
    requires Holdings(st.lots, account.symbols, session.seqNo)
    requires ProcessIntent(account, session, st, t).Ok?
    ensures Holdings(ProcessIntent(account, session, st, t).value.lots, account.symbols, session.seqNo)
  {
    var bar := BarOf(session.bars, t.symbol).value;
    if !Blocked(bar, t.side) {
      FillKeepsHoldings(st, session.seqNo, t, QuoteFor(account, bar, t).value, account.symbols);
    }
  }

  lemma {:induction false} ReachedAppend(account: Account, session: Session, start: State, st: State, due: seq<Intent>,
      t: Intent, next: State)
    requires TradableIntent(t, account.symbols)
    requires ReachedBy(account, session, start, st, due)
    requires Holdings(next.lots, account.symbols, session.seqNo) && InRange(next)
    requires next.cash == st.cash + CashOf(account, session)(t)
    requires next.totalFees == st.totalFees + FeeOf(account, session)(t)
    requires next.totalStampDuty == st.totalStampDuty + StampDutyOf(account, session)(t)
    requires next.totalSlippage == st.totalSlippage + SlippageOf(account, session)(t)
    requires next.lots == if FillOf(account, session, t).Some?
                          then st.lots[t.symbol := LotsAfter(st.lots[t.symbol], session.seqNo, t)] else st.lots
    requires t.side == Sell && FillOf(account, session, t).Some? ==>
               t.quantity <= Eligible(st.lots[t.symbol], session.seqNo)
    ensures ReachedBy(account, session, start, next, due + [t])
  {
    SumAppend(due, t, CashOf(account, session));
    SumAppend(due, t, FeeOf(account, session));
    SumAppend(due, t, StampDutyOf(account, session));
    SumAppend(due, t, SlippageOf(account, session));
    forall s | s in account.symbols
      ensures SharesReached(account, session, start, next, due + [t], s)
    {
      SymbolReachedStep(account, session, start, st, due, t, next, s);
    }
  }

  lemma {:induction false} ReachedStep(account: Account, session: Session, start: State, st: State, due: seq<Intent>,
      t: Intent)
    requires TradableIntent(t, account.symbols)
    requires ReachedBy(account, session, start, st, due)
    requires ProcessIntent(account, session, st, t).Ok?
    ensures ReachedBy(account, session, start, ProcessIntent(account, session, st, t).value, due + [t])
    ensures Quotable(account, session, t)
  {
    AmountsStep(account, session, st, t);
    HoldingsStep(account, session, st, t);
    ReachedAppend(account, session, start, st, due, t, ProcessIntent(account, session, st, t).value);
  }

  lemma {:induction false} ReachedAtStart(account: Account, session: Session, start: State)
    requires Holdings(start.lots, account.symbols, session.seqNo) && InRange(start)
    ensures ReachedBy(account, session, start, start, [])
  {
    forall s | s in account.symbols
      ensures SharesReached(account, session, start, start, [], s)
    {
      assert Shares(start.lots[s])[0..] + Copies(session.seqNo, 0) == Shares(start.lots[s]);
    }
  }

  /** Whatever the order, a run that passes has done exactly the sum of its intents. */
  lemma {:induction false} RunReaches(account: Account, session: Session, start: State, due: seq<Intent>, n: nat)
    requires n <= |due| && Tradable(due, account.symbols)
    requires Holdings(start.lots, account.symbols, session.seqNo) && InRange(start)
    requires ProcessIntents(account, session, start, due, n).Ok?
    ensures ReachedBy(account, session, start, ProcessIntents(account, session, start, due, n).value, due[..n])
  {
    var inv := (st: State, i: nat) => i <= |due| && ReachedBy(account, session, start, st, due[..i]);
    ReachedAtStart(account, session, start);
    forall st: State, i: nat | i < |due| && inv(st, i) && ProcessIntent(account, session, st, due[i]).Ok?
      ensures inv(ProcessIntent(account, session, st, due[i]).value, i + 1)
    {
      TakeNext(due, i);
      ReachedStep(account, session, start, st, due[..i], due[i]);
    }
    FoldInduction(IntentStep(account, session), start, due, n, inv);
  }

  /** Every intent of a passing run can be quoted. */
  lemma {:induction false} RunIsQuotable(account: Account, session: Session, start: State, due: seq<Intent>, i: nat)
    requires i < |due| && Tradable(due, account.symbols)
    requires Holdings(start.lots, account.symbols, session.seqNo) && InRange(start)
    requires ProcessIntents(account, session, start, due, |due|).Ok?
    ensures Quotable(account, session, due[i])
  {
    FoldPassedAt(IntentStep(account, session), start, due, |due|, i);
    RunReaches(account, session, start, due, i);
    AmountsStep(account, session, ProcessIntents(account, session, start, due, i).value, due[i]);
  }

  // ---- closes first: which closes leave a symbol flat ----

  /** The symbols of which every share held at the start is sold. */
  ghost function SoldOut(account: Account, session: Session, start: State, due: seq<Intent>): set<Symbol> {
    set s | s in account.symbols && s in start.lots
            && 0 < Sum(due, SoldOf(account, session, s)) == |Shares(start.lots[s])|
  }

  lemma {:induction false} NothingBought(account: Account, session: Session, due: seq<Intent>, s: Symbol)
    requires forall i :: 0 <= i < |due| ==> due[i].effect == Close
    ensures Sum(due, BoughtOf(account, session, s)) == 0
  {
    var zero := (t: Intent) => 0;
    SumEqual(due, BoughtOf(account, session, s), zero);
    SumNonPositive(due, zero);
    SumNonNegative(due, zero);
  }

  lemma {:induction false} OthersSell(account: Account, session: Session, start: State, due: seq<Intent>, t: Intent)
    ensures forall s | s != t.symbol || t.effect == Open || FillOf(account, session, t).None? ::
              s in SoldOut(account, session, start, due + [t]) <==> s in SoldOut(account, session, start, due)
  {
    forall s | s != t.symbol || t.effect == Open || FillOf(account, session, t).None?
      ensures s in SoldOut(account, session, start, due + [t]) <==> s in SoldOut(account, session, start, due)
    {
      SumAppend(due, t, SoldOf(account, session, s));
    }
  }

  /** The shares left after a sale that follows only closes. */
  lemma {:induction false} SaleLeft(account: Account, session: Session, start: State, st: State, due: seq<Intent>,
      t: Intent)
    requires TradableIntent(t, account.symbols) && t.side == Sell && FillOf(account, session, t).Some?
    requires ReachedBy(account, session, start, st, due) && Holdings(start.lots, account.symbols, session.seqNo)
    requires forall i :: 0 <= i < |due| ==> due[i].effect == Close
    requires t.quantity <= Eligible(st.lots[t.symbol], session.seqNo)
    ensures Total(LotsAfter(st.lots[t.symbol], session.seqNo, t))
            == |Shares(start.lots[t.symbol])| - Sum(due + [t], SoldOf(account, session, t.symbol))
    ensures t.symbol !in SoldOut(account, session, start, due)
    ensures t.symbol in SoldOut(account, session, start, due + [t])
            <==> Total(LotsAfter(st.lots[t.symbol], session.seqNo, t)) == 0
  {
    var s := t.symbol;
    assert SharesReached(account, session, start, st, due, s);
    NothingBought(account, session, due, s);
    SumAppend(due, t, SoldOf(account, session, s));
    LotsAfterWellFormed(st.lots[s], session.seqNo, t);
    EligiblePrefix(st.lots[s], session.seqNo, session.seqNo);
    ChecksAreExact(st.lots[s], session.seqNo, session.seqNo, 0);
    CopiesAre(session.seqNo, 0);
  }

  lemma {:induction false} FillCounts(st: State, session: nat, t: Intent, q: Quote, symbols: seq<Symbol>)
    requires Holdings(st.lots, symbols, session) && TradableIntent(t, symbols)
    requires FillIntent(st, session, t, q).Ok?
    ensures FillIntent(st, session, t, q).value.closedCount
            == st.closedCount + if t.side == Sell && Total(LotsAfter(st.lots[t.symbol], session, t)) == 0 then 1 else 0
  {
    SettleIs(st, session, t, q, symbols);
    var after := LotsAfter(st.lots[t.symbol], session, t);
    LotsAfterWellFormed(st.lots[t.symbol], session, t);
    ChecksAreExact(after, session, session, 0);
  }

  lemma {:induction false} CountChanges(account: Account, session: Session, st: State, t: Intent)
    requires TradableIntent(t, account.symbols) && Holdings(st.lots, account.symbols, session.seqNo)
    requires ProcessIntent(account, session, st, t).Ok?
    ensures t.symbol in st.lots
    ensures ProcessIntent(account, session, st, t).value.closedCount == st.closedCount +
            if t.side == Sell && FillOf(account, session, t).Some?
               && Total(LotsAfter(st.lots[t.symbol], session.seqNo, t)) == 0
            then 1 else 0
  {
    var fill := FillOf(account, session, t);
    if fill.Some? { FillCounts(st, session.seqNo, t, fill.value, account.symbols); }
  }

  lemma {:induction false} OtherSellsNothing(account: Account, session: Session, start: State, due: seq<Intent>,
      t: Intent)
    requires t.effect == Open || FillOf(account, session, t).None?
    ensures SoldOut(account, session, start, due + [t]) == SoldOut(account, session, start, due)
  {
    OthersSell(account, session, start, due, t);
  }

  lemma {:induction false} OneMore(before: set<Symbol>, after: set<Symbol>, s: Symbol)
    requires s !in before && forall x | x != s :: x in after <==> x in before
    ensures |after| == |before| + if s in after then 1 else 0
  {
    forall x ensures x in after - {s} <==> x in before {
      if x != s { assert x in after <==> x in before; }
    }
    assert after - {s} == before;
    if s in after { assert after == (after - {s}) + {s}; } else { assert after - {s} == after; }
  }

  lemma {:induction false} SaleSellsOut(account: Account, session: Session, start: State, st: State, due: seq<Intent>,
      t: Intent)
    requires TradableIntent(t, account.symbols) && t.side == Sell && FillOf(account, session, t).Some?
    requires ReachedBy(account, session, start, st, due) && Holdings(start.lots, account.symbols, session.seqNo)
    requires forall i :: 0 <= i < |due| ==> due[i].effect == Close
    requires t.quantity <= Eligible(st.lots[t.symbol], session.seqNo)
    ensures |SoldOut(account, session, start, due + [t])| == |SoldOut(account, session, start, due)| +
            if Total(LotsAfter(st.lots[t.symbol], session.seqNo, t)) == 0 then 1 else 0
  {
    OthersSell(account, session, start, due, t);
    SaleLeft(account, session, start, st, due, t);
    OneMore(SoldOut(account, session, start, due), SoldOut(account, session, start, due + [t]), t.symbol);
  }

  /** One more intent of a closes-first plan. */
  lemma {:induction false} CountStep(account: Account, session: Session, start: State, st: State, due: seq<Intent>,
      t: Intent)
    requires TradableIntent(t, account.symbols)
    requires ReachedBy(account, session, start, st, due) && Holdings(start.lots, account.symbols, session.seqNo)
    requires t.effect == Close ==> forall i :: 0 <= i < |due| ==> due[i].effect == Close
    requires ProcessIntent(account, session, st, t).Ok?
    ensures ProcessIntent(account, session, st, t).value.closedCount + |SoldOut(account, session, start, due)|
            == st.closedCount + |SoldOut(account, session, start, due + [t])|
  {
    CountChanges(account, session, st, t);
    if t.side == Sell && FillOf(account, session, t).Some? {
      AmountsStep(account, session, st, t);
      SaleSellsOut(account, session, start, st, due, t);
    } else {
      OtherSellsNothing(account, session, start, due, t);
    }
  }

  lemma {:induction false} NothingSoldOut(account: Account, session: Session, start: State)
    ensures SoldOut(account, session, start, []) == {}
  {
  }

  lemma {:induction false} CountNext(account: Account, session: Session, start: State, due: seq<Intent>, m: nat, n: nat,
      st: State)
    requires 0 < n <= |due| && Tradable(due, account.symbols) && ClosesFirst(due, m)
    requires Holdings(start.lots, account.symbols, session.seqNo) && InRange(start)
    requires ProcessIntents(account, session, start, due, n - 1) == Ok(st)
    requires st.closedCount == start.closedCount + |SoldOut(account, session, start, due[..n - 1])|
    requires ProcessIntent(account, session, st, due[n - 1]).Ok?
    ensures ProcessIntent(account, session, st, due[n - 1]).value.closedCount
            == start.closedCount + |SoldOut(account, session, start, due[..n])|
  {
    RunReaches(account, session, start, due, n - 1);
    TakeNext(due, n - 1);
    assert TradableIntent(due[n - 1], account.symbols);
    CountStep(account, session, start, st, due[..n - 1], due[n - 1]);
  }

  /** The closed positions of a closes-first plan are the symbols it sells out. */
  lemma {:induction false} CountIs(account: Account, session: Session, start: State, due: seq<Intent>, m: nat, n: nat)
    requires n <= |due| && Tradable(due, account.symbols) && ClosesFirst(due, m)
    requires Holdings(start.lots, account.symbols, session.seqNo) && InRange(start)
    requires ProcessIntents(account, session, start, due, n).Ok?
    ensures ProcessIntents(account, session, start, due, n).value.closedCount
            == start.closedCount + |SoldOut(account, session, start, due[..n])|
  {
    if n == 0 {
      NothingSoldOut(account, session, start);
      assert due[..0] == [];
    } else {
      CountIs(account, session, start, due, m, n - 1);
      CountNext(account, session, start, due, m, n, ProcessIntents(account, session, start, due, n - 1).value);
    }
  }

  // ---- closes first: when a plan passes ----

  /** Sums of a plan that do not depend on its order, and what they must satisfy. */
  ghost predicate AmountsFit(account: Account, session: Session, start: State, due: seq<Intent>) {
    && InI128(start.totalFees + Sum(due, FeeOf(account, session)))
    && InI128(start.totalStampDuty + Sum(due, StampDutyOf(account, session)))
    && InI128(start.totalSlippage + Sum(due, SlippageOf(account, session)))
    && start.cash + Sum(due, CashOf(account, session)) >= 0
  }

  ghost predicate SharesFit(account: Account, session: Session, start: State, due: seq<Intent>) {
    forall s | s in account.symbols ::
      && s in start.lots
      && Sum(due, SoldOf(account, session, s)) <= Eligible(start.lots[s], session.seqNo)
      && InI128(|Shares(start.lots[s])| - Sum(due, SoldOf(account, session, s))
                + Sum(due, BoughtOf(account, session, s)))
  }

  /** The first m intents close, the others open. */
  ghost predicate ClosesFirst(due: seq<Intent>, m: nat) {
    m <= |due| && forall i :: 0 <= i < |due| ==> (due[i].effect == Close <==> i < m)
  }

  lemma {:induction false} FeesFit(account: Account, session: Session, start: State, due: seq<Intent>, n: nat)
    requires ValidAccount(account) && CostsCovered(account) && ValidSession(session, account)
    requires Tradable(due, account.symbols) && n < |due| && InRange(start)
    requires AmountsFit(account, session, start, due)
    ensures InI128(start.totalFees + Sum(due[..n + 1], FeeOf(account, session)))
    ensures InI128(start.totalStampDuty + Sum(due[..n + 1], StampDutyOf(account, session)))
    ensures InI128(start.totalSlippage + Sum(due[..n + 1], SlippageOf(account, session)))
  {
    CostsAreSigned(account, session, due);
    TotalFits(start.totalFees, due, n + 1, FeeOf(account, session));
    TotalFits(start.totalStampDuty, due, n + 1, StampDutyOf(account, session));
    TotalFits(start.totalSlippage, due, n + 1, SlippageOf(account, session));
  }

  lemma {:induction false} CostsAreSigned(account: Account, session: Session, due: seq<Intent>)
    requires ValidAccount(account) && CostsCovered(account) && ValidSession(session, account)
    requires Tradable(due, account.symbols)
    ensures forall i :: 0 <= i < |due| ==> FeeOf(account, session)(due[i]) >= 0
    ensures forall i :: 0 <= i < |due| ==> StampDutyOf(account, session)(due[i]) >= 0
    ensures forall i :: 0 <= i < |due| ==> SlippageOf(account, session)(due[i]) >= 0
  {
    forall i | 0 <= i < |due|
      ensures FeeOf(account, session)(due[i]) >= 0 && StampDutyOf(account, session)(due[i]) >= 0
      ensures SlippageOf(account, session)(due[i]) >= 0
    {
      EffectsAreSigned(account, session, due[i]);
    }
  }

  lemma {:induction false} TotalFits(start: int, due: seq<Intent>, n: nat, f: Intent -> int)
    requires n <= |due| && InI128(start) && InI128(start + Sum(due, f))
    requires forall i :: 0 <= i < |due| ==> f(due[i]) >= 0
    ensures InI128(start + Sum(due[..n], f))
  {
    SumPrefix(due, n, f);
  }

  lemma {:induction false} CashFits(account: Account, session: Session, start: State, due: seq<Intent>, m: nat, n: nat)
    requires ValidAccount(account) && CostsCovered(account) && ValidSession(session, account)
    requires Tradable(due, account.symbols) && n < |due| && ClosesFirst(due, m)
    requires start.cash >= 0 && AmountsFit(account, session, start, due)
    ensures start.cash + Sum(due[..n + 1], CashOf(account, session)) >= 0
    ensures due[n].effect == Close ==>
              Sum(due[..n + 1], CashOf(account, session)) <= Sum(due, ProceedsOf(account, session))
  {
    var cash, proceeds := CashOf(account, session), ProceedsOf(account, session);
    forall i | 0 <= i < |due|
      ensures proceeds(due[i]) >= 0
      ensures due[i].effect == Open ==> cash(due[i]) <= 0
      ensures due[i].effect == Close ==> cash(due[i]) == proceeds(due[i])
    {
      EffectsAreSigned(account, session, due[i]);
    }
    if n < m {
      SumEqual(due[..n + 1], cash, proceeds);
      SumPrefix(due, n + 1, proceeds);
    } else {
      SumSuffix(due, n + 1, cash);
    }
  }

  lemma {:induction false} SharesAreSigned(account: Account, session: Session, due: seq<Intent>, s: Symbol)
    requires ValidAccount(account) && CostsCovered(account) && ValidSession(session, account)
    requires Tradable(due, account.symbols)
    ensures forall i :: 0 <= i < |due| ==> SoldOf(account, session, s)(due[i]) >= 0
    ensures forall i :: 0 <= i < |due| ==> BoughtOf(account, session, s)(due[i]) >= 0
  {
    forall i | 0 <= i < |due|
      ensures SoldOf(account, session, s)(due[i]) >= 0 && BoughtOf(account, session, s)(due[i]) >= 0
    {
      EffectsAreSigned(account, session, due[i]);
    }
  }

  lemma {:induction false} NothingSoldLater(account: Account, session: Session, due: seq<Intent>, n: nat, s: Symbol)
    requires n <= |due| && forall i :: n <= i < |due| ==> due[i].effect == Open
    ensures Sum(due[..n], SoldOf(account, session, s)) == Sum(due, SoldOf(account, session, s))
  {
    var sold, zero := SoldOf(account, session, s), (t: Intent) => 0;
    assert due == due[..n] + due[n..];
    SumConcat(due[..n], due[n..], sold);
    SumEqual(due[n..], sold, zero);
    SumNonPositive(due[n..], zero);
    SumNonNegative(due[n..], zero);
  }

  /** Closes first: the shares of a symbol only fall, then only grow. */
  lemma {:induction false} SymbolSums(account: Account, session: Session, due: seq<Intent>, m: nat, n: nat, s: Symbol)
    requires ValidAccount(account) && CostsCovered(account) && ValidSession(session, account)
    requires Tradable(due, account.symbols) && n < |due| && ClosesFirst(due, m)
    ensures 0 <= Sum(due[..n + 1], SoldOf(account, session, s)) <= Sum(due, SoldOf(account, session, s))
    ensures 0 <= Sum(due[..n + 1], BoughtOf(account, session, s)) <= Sum(due, BoughtOf(account, session, s))
    ensures Sum(due[..n + 1], BoughtOf(account, session, s)) == 0
            || Sum(due[..n + 1], SoldOf(account, session, s)) == Sum(due, SoldOf(account, session, s))
  {
    var sold, bought := SoldOf(account, session, s), BoughtOf(account, session, s);
    SharesAreSigned(account, session, due, s);
    SumPrefix(due, n + 1, sold);
    SumPrefix(due, n + 1, bought);
    if n < m {
      NothingBought(account, session, due[..n + 1], s);
    } else {
      NothingSoldLater(account, session, due, n + 1, s);
    }
  }

  lemma {:induction false} SymbolFits(account: Account, session: Session, start: State, due: seq<Intent>, m: nat,
      n: nat, s: Symbol)
    requires ValidAccount(account) && CostsCovered(account) && ValidSession(session, account)
    requires Tradable(due, account.symbols) && n < |due| && ClosesFirst(due, m)
    requires Holdings(start.lots, account.symbols, session.seqNo) && s in account.symbols
    requires SharesFit(account, session, start, due)
    ensures Sum(due[..n + 1], SoldOf(account, session, s)) <= Eligible(start.lots[s], session.seqNo)
    ensures InI128(|Shares(start.lots[s])| - Sum(due[..n + 1], SoldOf(account, session, s))
                   + Sum(due[..n + 1], BoughtOf(account, session, s)))
  {
    SymbolSums(account, session, due, m, n, s);
    EligiblePrefix(start.lots[s], session.seqNo, session.seqNo);
    ChecksAreExact(start.lots[s], session.seqNo, session.seqNo, 0);
  }

  ghost predicate CanSettle(st: State, session: nat, t: Intent, q: Quote)
    requires t.symbol in st.lots
  {
    if t.side == Buy then InI128(q.notional + q.fee) && 0 <= q.notional + q.fee <= st.cash
    else
      && InI128(q.fee + q.stampDuty) && InI128(q.notional - (q.fee + q.stampDuty))
      && InI128(st.cash + q.notional - q.fee - q.stampDuty)
      && t.quantity <= Eligible(st.lots[t.symbol], session)
      && (Total(LotsAfter(st.lots[t.symbol], session, t)) == 0 ==> st.closedCount + 1 <= U64_MAX)
  }

  lemma {:induction false} SettlePasses(st: State, session: nat, t: Intent, q: Quote, symbols: seq<Symbol>)
    requires Holdings(st.lots, symbols, session) && TradableIntent(t, symbols) && InI128(st.cash)
    requires CanSettle(st, session, t, q)
    requires t.side == Sell ==> InI128(Total(LotsAfter(st.lots[t.symbol], session, t)))
    ensures Settle(st, session, t, q).Ok?
  {
    if t.side == Sell {
      var held := st.lots[t.symbol];
      LotsAfterWellFormed(held, session, t);
      ChecksAreExact(LotsAfter(held, session, t), session, session, 0);
      ConsumeSucceeds(held, t.quantity, session, session);
    }
  }

  /** A fill passes when the cash, the eligible shares and the counters allow it. */
  lemma {:induction false} FillPasses(st: State, session: nat, t: Intent, q: Quote, symbols: seq<Symbol>)
    requires Holdings(st.lots, symbols, session) && TradableIntent(t, symbols) && InI128(st.cash)
    requires CanSettle(st, session, t, q)
    requires InI128(st.totalFees + q.fee) && InI128(st.totalStampDuty + q.stampDuty)
    requires InI128(st.totalSlippage + q.slippage)
    requires InI128(Total(LotsAfter(st.lots[t.symbol], session, t)))
    ensures FillIntent(st, session, t, q).Ok?
  {
    SettlePasses(st, session, t, q, symbols);
    SettleIs(st, session, t, q, symbols);
    var after := LotsAfter(st.lots[t.symbol], session, t);
    LotsAfterWellFormed(st.lots[t.symbol], session, t);
    ChecksAreExact(after, session, session, 0);
    assert st.lots[t.symbol := after][t.symbol] == after;
  }

  /** The next intent of a closes-first plan passes. */
  lemma {:induction false} StepPasses(account: Account, session: Session, start: State, st: State, due: seq<Intent>,
      m: nat, n: nat)
    requires ValidAccount(account) && CostsCovered(account) && ValidSession(session, account)
    requires Tradable(due, account.symbols) && n < |due| && ClosesFirst(due, m)
    requires Holdings(start.lots, account.symbols, session.seqNo) && InRange(start) && start.cash >= 0
    requires AmountsFit(account, session, start, due) && SharesFit(account, session, start, due)
    requires InI128(start.cash + Sum(due, ProceedsOf(account, session)))
    requires Quotable(account, session, due[n])
    requires ReachedBy(account, session, start, st, due[..n])
    requires Counted(account, session, start, st, due, n)
    ensures ProcessIntent(account, session, st, due[n]).Ok?
  {
    var t := due[n];
    var bar := BarOf(session.bars, t.symbol).value;
    if !Blocked(bar, t.side) {
      var q := QuoteFor(account, bar, t).value;
      TakeNext(due, n);
      AmountsAllow(account, session, start, st, due, m, n, q);
      SharesAllow(account, session, start, st, due, m, n);
      if t.side == Sell { CountAllows(account, session, start, st, due, m, n); }
      FillPasses(st, session.seqNo, t, q, account.symbols);
    }
  }

  lemma {:induction false} AmountsAllow(account: Account, session: Session, start: State, st: State, due: seq<Intent>,
      m: nat, n: nat, q: Quote)
    requires ValidAccount(account) && CostsCovered(account) && ValidSession(session, account)
    requires Tradable(due, account.symbols) && n < |due| && ClosesFirst(due, m)
    requires InRange(start) && start.cash >= 0
    requires AmountsFit(account, session, start, due)
    requires InI128(start.cash + Sum(due, ProceedsOf(account, session)))
    requires FillOf(account, session, due[n]) == Some(q)
    requires ReachedBy(account, session, start, st, due[..n])
    ensures InI128(st.totalFees + q.fee) && InI128(st.totalStampDuty + q.stampDuty)
    ensures InI128(st.totalSlippage + q.slippage)
    ensures due[n].side == Buy ==> 0 <= q.notional + q.fee <= st.cash
    ensures due[n].side == Sell ==> InI128(st.cash + q.notional - q.fee - q.stampDuty)
  {
    var t := due[n];
    TakeNext(due, n);
    SumAppend(due[..n], t, CashOf(account, session));
    SumAppend(due[..n], t, FeeOf(account, session));
    SumAppend(due[..n], t, StampDutyOf(account, session));
    SumAppend(due[..n], t, SlippageOf(account, session));
    FeesFit(account, session, start, due, n);
    CashFits(account, session, start, due, m, n);
    FillIsSigned(account, session, t);
  }

  lemma {:induction false} SharesAllow(account: Account, session: Session, start: State, st: State, due: seq<Intent>,
      m: nat, n: nat)
    requires ValidAccount(account) && CostsCovered(account) && ValidSession(session, account)
    requires Tradable(due, account.symbols) && n < |due| && ClosesFirst(due, m)
    requires Holdings(start.lots, account.symbols, session.seqNo)
    requires SharesFit(account, session, start, due)
    requires FillOf(account, session, due[n]).Some?
    requires ReachedBy(account, session, start, st, due[..n])
    ensures due[n].side == Sell ==> due[n].quantity <= Eligible(st.lots[due[n].symbol], session.seqNo)
    ensures InI128(Total(LotsAfter(st.lots[due[n].symbol], session.seqNo, due[n])))
  {
    var t := due[n];
    var s := t.symbol;
    TakeNext(due, n);
    SumAppend(due[..n], t, SoldOf(account, session, s));
    SumAppend(due[..n], t, BoughtOf(account, session, s));
    SymbolFits(account, session, start, due, m, n, s);
    assert SharesReached(account, session, start, st, due[..n], s);
    CopiesAre(session.seqNo, Sum(due[..n], BoughtOf(account, session, s)));
    ChecksAreExact(st.lots[s], session.seqNo, session.seqNo, 0);
    LotsAfterWellFormed(st.lots[s], session.seqNo, t);
  }

  lemma {:induction false} SoldOutGrows(account: Account, session: Session, start: State, due: seq<Intent>, n: nat)
    requires ValidAccount(account) && CostsCovered(account) && ValidSession(session, account)
    requires Tradable(due, account.symbols) && n <= |due|
    requires Holdings(start.lots, account.symbols, session.seqNo) && SharesFit(account, session, start, due)
    ensures SoldOut(account, session, start, due[..n]) <= SoldOut(account, session, start, due)
  {
    forall s | s in SoldOut(account, session, start, due[..n])
      ensures s in SoldOut(account, session, start, due)
    {
      SharesAreSigned(account, session, due, s);
      SumPrefix(due, n, SoldOf(account, session, s));
      EligiblePrefix(start.lots[s], session.seqNo, session.seqNo);
    }
  }

  lemma {:induction false} SmallerSet<T>(a: set<T>, b: set<T>)
    requires a <= b
    ensures |a| <= |b|
  {
    assert b == a + (b - a);
  }

  /** The closed positions so far, and room for those of the whole plan. */
  ghost predicate Counted(account: Account, session: Session, start: State, st: State, due: seq<Intent>, n: nat)
    requires n <= |due|
  {
    && st.closedCount == start.closedCount + |SoldOut(account, session, start, due[..n])|
    && start.closedCount + |SoldOut(account, session, start, due)| <= U64_MAX
  }

  lemma {:induction false} RoomForOne(account: Account, session: Session, start: State, st: State, due: seq<Intent>,
      n: nat, s: Symbol)
    requires n <= |due| && Counted(account, session, start, st, due, n)
    requires s !in SoldOut(account, session, start, due[..n]) && s in SoldOut(account, session, start, due)
    requires SoldOut(account, session, start, due[..n]) <= SoldOut(account, session, start, due)
    ensures st.closedCount + 1 <= U64_MAX
  {
    SmallerSet(SoldOut(account, session, start, due[..n]) + {s}, SoldOut(account, session, start, due));
  }

  lemma {:induction false} RoomToClose(account: Account, session: Session, start: State, st: State, due: seq<Intent>,
      n: nat, s: Symbol)
    requires ValidAccount(account) && CostsCovered(account) && ValidSession(session, account)
    requires Tradable(due, account.symbols) && n < |due| && Counted(account, session, start, st, due, n)
    requires Holdings(start.lots, account.symbols, session.seqNo) && SharesFit(account, session, start, due)
    requires s !in SoldOut(account, session, start, due[..n]) && s in SoldOut(account, session, start, due[..n + 1])
    ensures st.closedCount + 1 <= U64_MAX
  {
    SoldOutGrows(account, session, start, due, n);
    SoldOutGrows(account, session, start, due, n + 1);
    RoomForOne(account, session, start, st, due, n, s);
  }

  lemma {:induction false} CountAllows(account: Account, session: Session, start: State, st: State, due: seq<Intent>,
      m: nat, n: nat)
    requires ValidAccount(account) && CostsCovered(account) && ValidSession(session, account)
    requires Tradable(due, account.symbols) && n < |due| && ClosesFirst(due, m)
    requires Holdings(start.lots, account.symbols, session.seqNo) && SharesFit(account, session, start, due)
    requires due[n].side == Sell && FillOf(account, session, due[n]).Some?
    requires ReachedBy(account, session, start, st, due[..n]) && Counted(account, session, start, st, due, n)
    requires due[n].quantity <= Eligible(st.lots[due[n].symbol], session.seqNo)
    ensures Total(LotsAfter(st.lots[due[n].symbol], session.seqNo, due[n])) == 0 ==> st.closedCount + 1 <= U64_MAX
  {
    var t := due[n];
    TakeNext(due, n);
    assert TradableIntent(t, account.symbols);
    SaleLeft(account, session, start, st, due[..n], t);
    if Total(LotsAfter(st.lots[t.symbol], session.seqNo, t)) == 0 {
      RoomToClose(account, session, start, st, due, n, t.symbol);
    }
  }

  /** The order-independent facts under which a closes-first plan passes. */
  ghost predicate Feasible(account: Account, session: Session, start: State, due: seq<Intent>, m: nat) {
    && ValidAccount(account) && CostsCovered(account) && ValidSession(session, account)
    && Tradable(due, account.symbols) && ClosesFirst(due, m)
    && Holdings(start.lots, account.symbols, session.seqNo) && InRange(start) && start.cash >= 0
    && AmountsFit(account, session, start, due) && SharesFit(account, session, start, due)
    && InI128(start.cash + Sum(due, ProceedsOf(account, session)))
    && start.closedCount + |SoldOut(account, session, start, due)| <= U64_MAX
  }

  ghost predicate OtherPasses(account: Account, session: Session, start: State, other: seq<Intent>, due: seq<Intent>) {
    && Tradable(other, account.symbols) && multiset(other) == multiset(due)
    && ProcessIntents(account, session, start, other, |other|).Ok?
  }

  lemma {:induction false} PlanStep(account: Account, session: Session, start: State, other: seq<Intent>,
      due: seq<Intent>, m: nat, n: nat)
    requires Feasible(account, session, start, due, m) && OtherPasses(account, session, start, other, due)
    requires n < |due| && ProcessIntents(account, session, start, due, n).Ok?
    ensures ProcessIntents(account, session, start, due, n + 1).Ok?
  {
    PermutedQuotable(account, session, start, other, due, n);
    RunReaches(account, session, start, due, n);
    CountIs(account, session, start, due, m, n);
    StepPasses(account, session, start, ProcessIntents(account, session, start, due, n).value, due, m, n);
  }

  lemma {:induction false} PlanPasses(account: Account, session: Session, start: State, other: seq<Intent>,
      due: seq<Intent>, m: nat, n: nat)
    requires Feasible(account, session, start, due, m) && OtherPasses(account, session, start, other, due)
    requires n <= |due|
    ensures ProcessIntents(account, session, start, due, n).Ok?
  {
    if n > 0 {
      PlanPasses(account, session, start, other, due, m, n - 1);
      PlanStep(account, session, start, other, due, m, n - 1);
    }
  }

  lemma {:induction false} PermutedQuotable(account: Account, session: Session, st: State, other: seq<Intent>,
      plan: seq<Intent>, i: nat)
    requires Tradable(other, account.symbols) && multiset(other) == multiset(plan) && i < |plan|
    requires Holdings(st.lots, account.symbols, session.seqNo) && InRange(st)
    requires ProcessIntents(account, session, st, other, |other|).Ok?
    ensures Quotable(account, session, plan[i])
  {
    assert plan[i] in multiset(other);
    var j :| 0 <= j < |other| && other[j] == plan[i];
    RunIsQuotable(account, session, st, other, j);
  }

  lemma {:induction false} SharesPass(account: Account, session: Session, start: State, end: State, due: seq<Intent>)
    requires Holdings(start.lots, account.symbols, session.seqNo)
    requires ReachedBy(account, session, start, end, due)
    ensures SharesFit(account, session, start, due)
  {
    forall s | s in account.symbols
      ensures s in start.lots
      ensures Sum(due, SoldOf(account, session, s)) <= Eligible(start.lots[s], session.seqNo)
      ensures InI128(|Shares(start.lots[s])| - Sum(due, SoldOf(account, session, s))
                     + Sum(due, BoughtOf(account, session, s)))
    {
      assert SharesReached(account, session, start, end, due, s);
      CopiesAre(session.seqNo, Sum(due, BoughtOf(account, session, s)));
      ChecksAreExact(end.lots[s], session.seqNo, session.seqNo, 0);
    }
  }

  /** What a passing order proves about the sums. */
  lemma {:induction false} PassingFits(account: Account, session: Session, start: State, due: seq<Intent>)
    requires ValidAccount(account) && CostsCovered(account) && ValidSession(session, account)
    requires Tradable(due, account.symbols)
    requires Holdings(start.lots, account.symbols, session.seqNo) && InRange(start) && start.cash >= 0
    requires ProcessIntents(account, session, start, due, |due|).Ok?
    ensures AmountsFit(account, session, start, due) && SharesFit(account, session, start, due)
  {
    RunReaches(account, session, start, due, |due|);
    assert due[..|due|] == due;
    CashStaysPositive(account, session, start, due, |due|);
    SharesPass(account, session, start, ProcessIntents(account, session, start, due, |due|).value, due);
  }

  lemma {:induction false} CashStaysPositive(account: Account, session: Session, start: State, due: seq<Intent>, n: nat)
    requires ValidAccount(account) && CostsCovered(account) && ValidSession(session, account)
    requires Tradable(due, account.symbols) && n <= |due|
    requires Holdings(start.lots, account.symbols, session.seqNo) && InRange(start) && start.cash >= 0
    requires ProcessIntents(account, session, start, due, n).Ok?
    ensures ProcessIntents(account, session, start, due, n).value.cash >= 0
  {
    if n > 0 {
      CashStaysPositive(account, session, start, due, n - 1);
      RunReaches(account, session, start, due, n - 1);
      CashStep(account, session, ProcessIntents(account, session, start, due, n - 1).value, due[n - 1]);
    }
  }

  lemma {:induction false} CashStep(account: Account, session: Session, st: State, t: Intent)
    requires ValidAccount(account) && CostsCovered(account) && ValidSession(session, account)
    requires TradableIntent(t, account.symbols)
    requires Holdings(st.lots, account.symbols, session.seqNo) && st.cash >= 0
    requires ProcessIntent(account, session, st, t).Ok?
    ensures ProcessIntent(account, session, st, t).value.cash >= 0
  {
    BarIsValid(session, account, t.symbol);
    var bar := BarOf(session.bars, t.symbol).value;
    if !Blocked(bar, t.side) {
      var q := QuoteFor(account, bar, t).value;
      if t.side == Sell { ProceedsNonNegative(account, bar, t); }
      SettleIs(st, session.seqNo, t, q, account.symbols);
    }
  }

  lemma {:induction false} FitsPermuted(account: Account, session: Session, start: State, due: seq<Intent>,
      plan: seq<Intent>)
    requires multiset(due) == multiset(plan)
    requires AmountsFit(account, session, start, due) && SharesFit(account, session, start, due)
    ensures AmountsFit(account, session, start, plan) && SharesFit(account, session, start, plan)
    ensures Sum(due, CashOf(account, session)) == Sum(plan, CashOf(account, session))
  {
    assert |multiset(due)| == |due| && |multiset(plan)| == |plan|;
    SumPermutation(due, plan, CashOf(account, session));
    SumPermutation(due, plan, FeeOf(account, session));
    SumPermutation(due, plan, StampDutyOf(account, session));
    SumPermutation(due, plan, SlippageOf(account, session));
    forall s | s in account.symbols
      ensures Sum(due, SoldOf(account, session, s)) == Sum(plan, SoldOf(account, session, s))
      ensures Sum(due, BoughtOf(account, session, s)) == Sum(plan, BoughtOf(account, session, s))
    {
      SumPermutation(due, plan, SoldOf(account, session, s));
      SumPermutation(due, plan, BoughtOf(account, session, s));
    }
  }

  /** Same cash, same cost totals and the same shares of every symbol. */
  ghost predicate Alike(a: State, b: State, symbols: seq<Symbol>) {
    && a.cash == b.cash && a.totalFees == b.totalFees
    && a.totalStampDuty == b.totalStampDuty && a.totalSlippage == b.totalSlippage
    && forall s | s in symbols :: s in a.lots && s in b.lots && Shares(a.lots[s]) == Shares(b.lots[s])
  }

  lemma {:induction false} SumsAlike(account: Account, session: Session, start: State, due: seq<Intent>,
      plan: seq<Intent>, a: State, b: State)
    requires multiset(due) == multiset(plan)
    requires ReachedBy(account, session, start, a, due) && ReachedBy(account, session, start, b, plan)
    ensures Alike(a, b, account.symbols)
  {
    SumPermutation(due, plan, CashOf(account, session));
    SumPermutation(due, plan, FeeOf(account, session));
    SumPermutation(due, plan, StampDutyOf(account, session));
    SumPermutation(due, plan, SlippageOf(account, session));
    forall s | s in account.symbols
      ensures s in a.lots && s in b.lots && Shares(a.lots[s]) == Shares(b.lots[s])
    {
      SumPermutation(due, plan, SoldOf(account, session, s));
      SumPermutation(due, plan, BoughtOf(account, session, s));
      assert SharesReached(account, session, start, a, due, s) && SharesReached(account, session, start, b, plan, s);
    }
  }

  /** Two passing orders of the same intents end alike. */
  lemma {:induction false} SameEnd(account: Account, session: Session, start: State, due: seq<Intent>,
      plan: seq<Intent>)
    requires multiset(due) == multiset(plan)
    requires Tradable(due, account.symbols) && Tradable(plan, account.symbols)
    requires Holdings(start.lots, account.symbols, session.seqNo) && InRange(start)
    requires ProcessIntents(account, session, start, due, |due|).Ok?
    requires ProcessIntents(account, session, start, plan, |plan|).Ok?
    ensures Alike(ProcessIntents(account, session, start, due, |due|).value,
                  ProcessIntents(account, session, start, plan, |plan|).value, account.symbols)
  {
    RunReaches(account, session, start, due, |due|);
    RunReaches(account, session, start, plan, |plan|);
    assert due[..|due|] == due && plan[..|plan|] == plan;
    SumsAlike(account, session, start, due, plan, ProcessIntents(account, session, start, due, |due|).value,
              ProcessIntents(account, session, start, plan, |plan|).value);
  }

  lemma {:induction false} FirstOpen(due: seq<Intent>) returns (m: nat)
    requires Sorting.Ordered(due, RunsBefore)
    ensures ClosesFirst(due, m)
  {
    m := 0;
    while m < |due| && due[m].effect == Close
      invariant m <= |due| && forall i :: 0 <= i < m ==> due[i].effect == Close
    {
      m := m + 1;
    }
    forall i | m < i < |due|
      ensures due[i].effect == Open
    {
      assert RunsBefore(due[m], due[i]);
    }
  }

  lemma {:induction false} ProceedsAreAtTheFront(account: Account, session: Session, due: seq<Intent>, m: nat)
    requires ClosesFirst(due, m)
    ensures Sum(due, ProceedsOf(account, session)) == Sum(due[..m], CashOf(account, session))
  {
    var cash, proceeds, zero := CashOf(account, session), ProceedsOf(account, session), (t: Intent) => 0;
    SumEqual(due[..m], cash, proceeds);
    assert due == due[..m] + due[m..];
    SumConcat(due[..m], due[m..], proceeds);
    SumEqual(due[m..], proceeds, zero);
    SumNonPositive(due[m..], zero);
    SumNonNegative(due[m..], zero);
  }

  /** If a closes-first plan passes, its cash once held all the proceeds. */
  lemma {:induction false} ProceedsWereHeld(account: Account, session: Session, start: State, due: seq<Intent>, m: nat)
    requires Tradable(due, account.symbols) && ClosesFirst(due, m)
    requires Holdings(start.lots, account.symbols, session.seqNo) && InRange(start)
    requires ProcessIntents(account, session, start, due, |due|).Ok?
    ensures InI128(start.cash + Sum(due, ProceedsOf(account, session)))
  {
    if m < |due| { FoldPassedAt(IntentStep(account, session), start, due, |due|, m); }
    RunReaches(account, session, start, due, m);
    ProceedsAreAtTheFront(account, session, due, m);
  }

  lemma {:induction false} PermutedTradable(due: seq<Intent>, plan: seq<Intent>, symbols: seq<Symbol>)
    requires multiset(due) == multiset(plan) && Tradable(plan, symbols)
    ensures Tradable(due, symbols)
  {
    forall i | 0 <= i < |due|
      ensures TradableIntent(due[i], symbols)
    {
      assert due[i] in multiset(plan);
      var j :| 0 <= j < |plan| && plan[j] == due[i];
    }
  }

  /** The verdict on the engine's order `plan`, given another order that passes. */
  ghost predicate Optimal(account: Account, session: Session, st: State, other: seq<Intent>, plan: seq<Intent>)
    requires ProcessIntents(account, session, st, other, |other|).Ok?
  {
    var run := ProcessIntents(account, session, st, plan, |plan|);
    && (run.Ok? <==>
          && InI128(st.cash + Sum(plan, ProceedsOf(account, session)))
          && st.closedCount + |SoldOut(account, session, st, plan)| <= U64_MAX)
    && (run.Ok? ==> Alike(run.value, ProcessIntents(account, session, st, other, |other|).value, account.symbols))
  }

  /** When the sums allow it, the engine's order passes. */
  lemma {:induction false} PlanSucceeds(account: Account, session: Session, st: State, other: seq<Intent>,
      plan: seq<Intent>, m: nat)
    requires ValidAccount(account) && CostsCovered(account) && ValidSession(session, account)
    requires Tradable(other, account.symbols) && Tradable(plan, account.symbols)
    requires ClosesFirst(plan, m) && multiset(other) == multiset(plan)
    requires Holdings(st.lots, account.symbols, session.seqNo) && InRange(st) && st.cash >= 0
    requires ProcessIntents(account, session, st, other, |other|).Ok?
    requires InI128(st.cash + Sum(plan, ProceedsOf(account, session)))
    requires st.closedCount + |SoldOut(account, session, st, plan)| <= U64_MAX
    ensures ProcessIntents(account, session, st, plan, |plan|).Ok?
  {
    PassingFits(account, session, st, other);
    FitsPermuted(account, session, st, other, plan);
    PlanPasses(account, session, st, other, plan, m, |plan|);
  }

  /** When it passes, the sums allowed it. */
  lemma {:induction false} PlanSucceeded(account: Account, session: Session, st: State, plan: seq<Intent>, m: nat)
    requires Tradable(plan, account.symbols) && ClosesFirst(plan, m)
    requires Holdings(st.lots, account.symbols, session.seqNo) && InRange(st)
    requires ProcessIntents(account, session, st, plan, |plan|).Ok?
    ensures InI128(st.cash + Sum(plan, ProceedsOf(account, session)))
    ensures st.closedCount + |SoldOut(account, session, st, plan)| <= U64_MAX
  {
    ProceedsWereHeld(account, session, st, plan, m);
    RunReaches(account, session, st, plan, |plan|);
    CountIs(account, session, st, plan, m, |plan|);
    assert plan[..|plan|] == plan;
  }

  lemma {:induction false} BestOrder(account: Account, session: Session, st: State, other: seq<Intent>,
      plan: seq<Intent>)
    requires ValidAccount(account) && CostsCovered(account) && ValidSession(session, account)
    requires Tradable(other, account.symbols) && Tradable(plan, account.symbols)
    requires Sorting.Ordered(plan, RunsBefore) && multiset(other) == multiset(plan)
    requires Holdings(st.lots, account.symbols, session.seqNo) && InRange(st) && st.cash >= 0
    requires ProcessIntents(account, session, st, other, |other|).Ok?
    ensures Optimal(account, session, st, other, plan)
  {
    var m := FirstOpen(plan);
    if ProcessIntents(account, session, st, plan, |plan|).Ok? {
      PlanSucceeded(account, session, st, plan, m);
      SameEnd(account, session, st, plan, other);
    } else if InI128(st.cash + Sum(plan, ProceedsOf(account, session)))
              && st.closedCount + |SoldOut(account, session, st, plan)| <= U64_MAX {
      PlanSucceeds(account, session, st, other, plan, m);
    }
  }

  lemma {:induction false} StartOfSession(input: Input, k: nat)
    requires ValidInput(input) && CostsCovered(input.account)
    requires k < |input.sessions| && RunSessions(input, k).Ok?
    ensures var st := RunSessions(input, k).value;
            && Holdings(st.lots, input.account.symbols, input.sessions[k].seqNo) && InRange(st) && st.cash >= 0
    ensures ValidAccount(input.account) && ValidSession(input.sessions[k], input.account)
    ensures UniqueIds(input.intents) && IncreasingSeqNos(input.intents)
  {
    RunKeeps(input, k);
    assert k > 0 ==> input.sessions[k - 1].seqNo < input.sessions[k - 1 + 1].seqNo;
    SoundLater(RunSessions(input, k).value, input.account, LastSession(input, k), input.sessions[k].seqNo);
  }

  /** The engine's order against any other, from any reachable state: if some order of
      the session's due intents passes every check, then the engine's order passes
      unless the proceeds alone overflow the cash or the symbols sold out overflow the
      count of closed trades, and it ends with the same cash, the same cost totals and
      the same shares of every symbol. */
  lemma {:induction false} CloseBeforeOpenIsOptimal(input: Input, k: nat, st: State, other: seq<Intent>,
      plan: seq<Intent>)
    requires ValidInput(input) && CostsCovered(input.account)
    requires k < |input.sessions| && RunSessions(input, k) == Ok(st)
    requires plan == Schedule(input.intents, st.completed, input.sessions[k].seqNo)
    requires multiset(other) == multiset(plan)
    requires ProcessIntents(input.account, input.sessions[k], st, other, |other|).Ok?
    ensures Optimal(input.account, input.sessions[k], st, other, plan)
  {
    StartOfSession(input, k);
    ScheduleIsTradable(input, st.completed, input.sessions[k].seqNo);
    PermutedTradable(other, plan, input.account.symbols);
    ScheduleIsDistinct(input.intents, st.completed, input.sessions[k].seqNo);
    BestOrder(input.account, input.sessions[k], st, other, plan);
  }
}
