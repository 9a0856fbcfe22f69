/** What every reachable state of the v2 engine keeps: well-formed lots, a FIFO
    trade ledger under T+1, and, when a board lot can pay its own selling costs,
    cash that never goes negative. */
module PortfolioInvariant {
  import opened Checked
  import opened Events
  import opened Lots
  import opened Portfolio
  import opened ShareQueue
  import Sorting

  // ---- the schedule ----

  ghost predicate DistinctSeqNos(dom: set<Intent>) {
    forall a, b | a in dom && b in dom && a != b :: a.seqNo != b.seqNo
  }

  /** Closes first, then symbol, then sequence number: no two intents tie. */
  lemma {:induction false} ScheduleOrderIsTotal(dom: set<Intent>)
    requires DistinctSeqNos(dom)
    ensures Sorting.StrictTotalOrder(dom, RunsBefore)
  {
  }

  lemma {:induction false} SeqNosIncrease(intents: seq<Intent>, i: nat, j: nat)
    requires IncreasingSeqNos(intents) && i < j < |intents|
    ensures intents[i].seqNo < intents[j].seqNo
  {
    if i + 1 < j { SeqNosIncrease(intents, i, j - 1); }
  }

  lemma {:induction false} TapeIsDistinct(intents: seq<Intent>)
    requires IncreasingSeqNos(intents)
    ensures DistinctSeqNos(set t | t in intents)
  {
    forall a, b | a in intents && b in intents && a != b
      ensures a.seqNo != b.seqNo
    {
      var i :| 0 <= i < |intents| && intents[i] == a;
      var j :| 0 <= j < |intents| && intents[j] == b;
      if i < j { SeqNosIncrease(intents, i, j); } else { SeqNosIncrease(intents, j, i); }
    }
  }

  lemma {:induction false} DueIntentsAre(intents: seq<Intent>, completed: set<Id>, session: nat)
    ensures var due := DueIntents(intents, completed, session);
            forall t :: t in due <==>
              t in intents && t.id !in completed && t.effectiveAt.session == session
  {
    if intents != [] {
      DueIntentsAre(intents[1..], completed, session);
      assert intents == [intents[0]] + intents[1..];
    }
  }

  /** A schedule holds exactly the due intents. */
  lemma {:induction false} ScheduleIsDue(intents: seq<Intent>, completed: set<Id>, session: nat)
    ensures multiset(Schedule(intents, completed, session)) == multiset(DueIntents(intents, completed, session))
    ensures forall t :: t in Schedule(intents, completed, session) <==>
              t in intents && t.id !in completed && t.effectiveAt.session == session
  {
    var due := DueIntents(intents, completed, session);
    Sorting.SortPermutes(due, RunsBefore);
    DueIntentsAre(intents, completed, session);
    forall t
      ensures t in Schedule(intents, completed, session) <==> t in due
    {
      assert t in Schedule(intents, completed, session) <==> t in multiset(Schedule(intents, completed, session));
    }
  }

  // ---- lots ----

  ghost predicate Holdings(lots: map<Symbol, seq<Lot>>, symbols: seq<Symbol>, bound: int) {
    && (forall s :: s in lots <==> s in symbols)
    && (forall s | s in lots :: WellFormed(lots[s], bound) && InI128(Total(lots[s])))
  }

  ghost predicate TradableIntent(t: Intent, symbols: seq<Symbol>) {
    t.symbol in symbols && t.quantity > 0 && t.quantity % 100 == 0 && (t.side == Buy <==> t.effect == Open)
  }

  /** What a settled fill does to the lots of its symbol. */
  function LotsAfter(held: seq<Lot>, session: nat, t: Intent): seq<Lot> {
    LotsFilled(held, t.side == Buy, t.quantity, session)
  }

  lemma {:induction false} SaleSettles(held: seq<Lot>, session: nat, t: Intent)
    requires WellFormed(held, session) && InI128(Total(held)) && t.side == Sell && t.quantity > 0
    ensures Consume(held, t.quantity, session) ==
            if t.quantity <= Eligible(held, session) then Ok(LotsAfter(held, session, t)) else Err(InsufficientEligible)
    ensures t.quantity <= Eligible(held, session) ==>
              var after := LotsAfter(held, session, t);
              CheckedTotal(after, 0) == Ok(Total(after))
  {
    ConsumeSucceeds(held, t.quantity, session, session);
    ChecksAreExact(held, session, session, 0);
    if t.quantity <= Eligible(held, session) {
      LotsAfterWellFormed(held, session, t);
      ChecksAreExact(LotsAfter(held, session, t), session, session, 0);
    }
  }

  /** The settlement of a whole-lot long intent in one line: a buy needs the cash,
      a sale the eligible shares; nothing else can stop it but an overflow. */
  lemma {:induction false} SettleIs(st: State, session: nat, t: Intent, q: Quote, symbols: seq<Symbol>)
    requires Holdings(st.lots, symbols, session) && TradableIntent(t, symbols)
    ensures Settle(st, session, t, q).Ok? ==>
              var s := Settle(st, session, t, q).value;
              && s.lots == st.lots[t.symbol := LotsAfter(st.lots[t.symbol], session, t)]
              && s.cash == (if t.side == Buy then st.cash - q.notional - q.fee
                            else st.cash + q.notional - q.fee - q.stampDuty)
              && (t.side == Buy ==> s.cash >= 0)
              && (t.side == Sell ==> t.quantity <= Eligible(st.lots[t.symbol], session))
    ensures Settle(st, session, t, q).Err? ==>
              Settle(st, session, t, q).error ==
              (if t.side == Buy && InI128(q.notional + q.fee) && q.notional + q.fee > st.cash then ExceedsCash
               else if t.side == Sell && t.quantity > Eligible(st.lots[t.symbol], session) then InsufficientEligible
               else Overflow)
  {
    if t.side == Sell { SaleSettles(st.lots[t.symbol], session, t); }
  }

  lemma {:induction false} LotsAfterWellFormed(held: seq<Lot>, session: nat, t: Intent)
    requires WellFormed(held, session) && t.quantity > 0
    requires t.side == Sell ==> t.quantity <= Eligible(held, session)
    ensures var after := LotsAfter(held, session, t);
            && WellFormed(after, session)
            && Total(after) == Total(held) + (if t.side == Buy then t.quantity else -t.quantity)
            && Eligible(after, session) == Eligible(held, session) - (if t.side == Buy then 0 else t.quantity)
  {
    FilledLotsAre(held, t.side == Buy, t.quantity, session);
  }

  lemma {:induction false} HoldingsUpdate(lots: map<Symbol, seq<Lot>>, symbols: seq<Symbol>, bound: int, s: Symbol,
      after: seq<Lot>)
    requires Holdings(lots, symbols, bound) && s in lots && WellFormed(after, bound) && InI128(Total(after))
    ensures Holdings(lots[s := after], symbols, bound)
  {
  }

  lemma {:induction false} FillKeepsHoldings(st: State, session: nat, t: Intent, q: Quote, symbols: seq<Symbol>)
    requires Holdings(st.lots, symbols, session) && TradableIntent(t, symbols)
    requires FillIntent(st, session, t, q).Ok?
    ensures Holdings(FillIntent(st, session, t, q).value.lots, symbols, session)
    ensures var next := FillIntent(st, session, t, q).value;
            && next.positions[|next.positions| - 1].quantity == Total(next.lots[t.symbol])
            && next.positions[|next.positions| - 1].eligible == Eligible(next.lots[t.symbol], session)
  {
    SettleIs(st, session, t, q, symbols);
    var held := st.lots[t.symbol];
    LotsAfterWellFormed(held, session, t);
    ChecksAreExact(LotsAfter(held, session, t), session, session, 0);
    HoldingsUpdate(st.lots, symbols, session, t.symbol, LotsAfter(held, session, t));
  }

  // ---- selling costs ----

  /** The charges on the smallest sale, one board lot at price 1, leave something
      of it or nothing, when they can be computed at all. */
  predicate ChargesCovered(scale: int, commission: int, stampDuty: int) {
    var fee, duty := RateCharge(100, commission, scale), RateCharge(100, stampDuty, scale);
    fee.Ok? && duty.Ok? ==> fee.value + duty.value <= 100
  }

  predicate CostsCovered(account: Account) {
    ChargesCovered(account.rateScale, account.commissionRate, account.stampDutyRate)
  }

  lemma {:induction false} CeilingsAddUp(c: nat, s: nat, scale: int)
    requires scale > 0 && c + s <= 99 * scale
    ensures CeilDiv(c, scale) + CeilDiv(s, scale) <= 100
  {
    DivBounds(c + scale - 1, scale);
    DivBounds(s + scale - 1, scale);
    var both := CeilDiv(c, scale) + CeilDiv(s, scale);
    assert scale * both <= c + s + 2 * scale - 2;
    if both >= 101 {
      MulMonotone(101, both, scale);
    }
  }

  /** Rates that together leave a hundredth of the notional are covered. */
  lemma {:induction false} OnePercentSlackSuffices(account: Account)
    requires ValidAccount(account)
    requires 100 * (account.commissionRate + account.stampDutyRate) <= 99 * account.rateScale
    ensures CostsCovered(account)
  {
    RateChargeIsCeiling(100, account.commissionRate, account.rateScale);
    RateChargeIsCeiling(100, account.stampDutyRate, account.rateScale);
    CeilingsAddUp(100 * account.commissionRate, 100 * account.stampDutyRate, account.rateScale);
  }

  lemma {:induction false} SmallerFits(n: int, rate: int, scale: int)
    requires 100 <= n && rate >= 0 && scale > 0 && RateCharge(n, rate, scale).Ok?
    ensures RateCharge(100, rate, scale).Ok?
  {
    MulMonotone(100, n, rate);
    MulNonNegative(100, rate);
    DivBounds(100 * rate + scale - 1, scale);
    if 100 * rate != 0 { DivAtMost(100 * rate + scale - 1, scale); }
  }

  lemma {:induction false} DivAtMost(a: int, b: int)
    requires a >= 0 && b > 0
    ensures 0 <= a / b <= a
  {
    DivBounds(a, b);
    if a / b > a { MulMonotone(1, b, a / b); }
  }

  lemma {:induction false} CeilingsScale(scale: int, rate: int, lots: int)
    requires scale > 0 && rate >= 0 && lots >= 1 && 100 * lots * rate >= 0
    ensures CeilDiv(100 * lots * rate, scale) <= lots * CeilDiv(100 * rate, scale)
  {
    assert 100 * lots * rate == lots * (100 * rate);
    CeilDivSubadditive(100 * rate, lots, scale);
  }

  /** A charge that can be computed on many lots can be computed on one, and is at
      most that many times as much. */
  lemma {:induction false} ChargesScale(scale: int, rate: int, lots: int)
    requires scale > 0 && rate >= 0 && lots >= 1 && RateCharge(100 * lots, rate, scale).Ok?
    ensures RateCharge(100, rate, scale).Ok?
    ensures RateCharge(100 * lots, rate, scale).value <= lots * RateCharge(100, rate, scale).value
  {
    SmallerFits(100 * lots, rate, scale);
    RateChargeIsCeiling(100, rate, scale);
    RateChargeIsCeiling(100 * lots, rate, scale);
    CeilingsScale(scale, rate, lots);
  }

  lemma {:induction false} SharesAddUp(lots: int, c: int, s: int, x: int, y: int)
    requires lots >= 0 && c + s <= 100 && x <= lots * c && y <= lots * s
    ensures x + y <= 100 * lots
  {
    assert lots * c + lots * s == lots * (c + s);
    MulMonotone(c + s, 100, lots);
  }

  /** With covered costs no sale at a positive price takes cash away. */
  lemma {:induction false} ProceedsNonNegative(account: Account, bar: Bar, t: Intent)
    requires ValidAccount(account) && CostsCovered(account)
    requires ValidBar(bar, account.slippage)
    requires t.side == Sell && t.quantity > 0 && t.quantity % 100 == 0
    requires QuoteFor(account, bar, t).Ok?
    ensures var q := QuoteFor(account, bar, t).value;
            q.notional - q.fee - q.stampDuty >= 0
  {
    var q := QuoteFor(account, bar, t).value;
    var hundreds, scale := t.quantity / 100, account.rateScale;
    var lots := q.price * hundreds;
    MulMonotone(1, q.price, hundreds);
    assert q.notional == 100 * lots by {
      assert q.notional == q.price * (100 * hundreds);
    }
    ChargesScale(scale, account.commissionRate, lots);
    ChargesScale(scale, account.stampDutyRate, lots);
    SharesAddUp(lots, RateCharge(100, account.commissionRate, scale).value,
                RateCharge(100, account.stampDutyRate, scale).value, q.fee, q.stampDuty);
  }

  /** Fees are never negative and prices are positive. */
  lemma {:induction false} QuoteIsPositive(account: Account, bar: Bar, t: Intent)
    requires ValidAccount(account) && ValidBar(bar, account.slippage) && t.quantity > 0
    requires QuoteFor(account, bar, t).Ok?
    ensures var q := QuoteFor(account, bar, t).value;
            q.price > 0 && q.notional > 0 && q.fee >= 0 && q.stampDuty >= 0 && q.slippage >= 0
  {
    var q := QuoteFor(account, bar, t).value;
    MulMonotone(1, q.price, t.quantity);
    MulNonNegative(account.slippage, t.quantity);
    RateChargeIsCeiling(q.notional, account.commissionRate, account.rateScale);
    RateChargeIsCeiling(q.notional, account.stampDutyRate, account.rateScale);
  }
}
