/** Where closing before opening is not the best order: when a sale costs more than it
    brings, a purchase made before it can still be paid for. */
module PortfolioOptimality {
  import opened Checked
  import opened Events
  import opened Lots
  import opened Portfolio
  import opened PortfolioInvariant
  import opened PortfolioSolvency
  import opened PortfolioSchedule
  import opened Sequences
  import opened ShareQueue
  import Sorting

  const LATER_BUY := PENNY_BUY.(id := 4, seqNo := 4, knownAt := EventKey(1, AtClose, 0),
                                effectiveAt := EventKey(2, AtOpen, 0))

  /** A board lot is bought; a session later it is sold while another one is bought. */
  const SWAP_TAPE := [PENNY_BUY, PENNY_SALE, LATER_BUY]

  const SWAP := [PENNY_SALE, LATER_BUY]

  function SwapInput(account: Account): Input {
    Input(account, [PennySession(1), PennySession(2)], SWAP_TAPE)
  }

  lemma {:induction false} SwapInputIsValid(account: Account, fee: int, duty: int)
    requires PennyCosts(account, fee, duty)
    ensures ValidInput(SwapInput(account))
  {
    PennyCharges(account, fee, duty);
    var input := SwapInput(account);
    assert input.sessions[0].seqNo == 1 && input.sessions[1].seqNo == 2;
    forall i | 0 <= i < |input.intents|
      ensures ValidIntent(input.intents[i], input)
    {
      assert input.sessions[if i < 1 then 0 else 1].seqNo == input.intents[i].effectiveAt.session;
    }
  }

  lemma {:induction false} SwapSchedules()
    ensures Schedule(SWAP_TAPE, {}, 1) == [PENNY_BUY] && Schedule(SWAP_TAPE, {1}, 2) == SWAP
  {
    assert SWAP_TAPE[1..] == SWAP && SWAP[1..] == [LATER_BUY] && [LATER_BUY][1..] == [];
    assert DueIntents([LATER_BUY], {}, 1) == [] && DueIntents(SWAP, {}, 1) == [];
    assert DueIntents(SWAP_TAPE, {}, 1) == [PENNY_BUY];
    assert DueIntents([LATER_BUY], {1}, 2) == [LATER_BUY];
    assert DueIntents(SWAP, {1}, 2) == SWAP;
    assert DueIntents(SWAP_TAPE, {1}, 2) == SWAP;
    Sorting.SortedStays([PENNY_BUY], RunsBefore);
    Sorting.SortedStays(SWAP, RunsBefore);
  }

  /** After the first session: one lot, and the cash for exactly one more. */
  lemma {:induction false} SwapStarts(account: Account, fee: int, duty: int) returns (st: State)
    requires PennyCosts(account, fee, duty)
    ensures RunSessions(SwapInput(account), 1) == Ok(st)
    ensures PennyHeld(st, 100 + fee, [Lot(100, 1)], fee, 300 + fee) && st.completed == {1}
  {
    var input, start := SwapInput(account), InitialState(account);
    PennyCharges(account, fee, duty);
    SwapSchedules();
    assert start.lots == map[0 := []] && [] + [Lot(100, 1)] == [Lot(100, 1)];
    PennyFill(account, fee, duty, 1, start, PENNY_BUY);
    PennyBuys(start, PENNY_BUY, 200 + 2 * fee, [], fee, 0, 200 + 2 * fee);
    OneIntent(account, PennySession(1), start, PENNY_BUY);
    var bought := ProcessIntent(account, PennySession(1), start, PENNY_BUY).value;
    PennyTotals([Lot(100, 1)]);
    PennyMark(account, fee, duty, 1, bought, 100, 2);
    MarkFrame(account, PennySession(1), bought);
    st := Mark(account, PennySession(1), bought).value;
    assert RunSessions(input, 0) == Ok(start);
    assert RunSessions(input, 1) == ProcessSession(input, PennySession(1), start);
  }

  lemma {:induction false} SwapTotals()
    ensures CheckedTotal([Lot(100, 2)], 0) == Ok(100) && CheckedEligible([Lot(100, 2)], 2, 0) == Ok(0)
    ensures var both := [Lot(100, 1), Lot(100, 2)];
            CheckedTotal(both, 0) == Ok(200) && CheckedEligible(both, 2, 0) == Ok(100)
    ensures Consume([Lot(100, 1), Lot(100, 2)], 100, 2) == Ok([Lot(100, 2)])
    ensures Consume([Lot(100, 1)], 100, 2) == Ok([])
  {
    var held, bought, both := [Lot(100, 1)], [Lot(100, 2)], [Lot(100, 1), Lot(100, 2)];
    assert held[1..] == [] && bought[1..] == [] && both[1..] == bought;
    assert CheckedEligible(held, 2, 0) == CheckedEligible([], 2, 100);
    assert CheckedEligible(both, 2, 0) == CheckedEligible(bought, 2, 100) == CheckedEligible([], 2, 100);
    assert Deplete(held, 100, 2) == [Lot(0, 1)] && Retain([Lot(0, 1)]) == Retain([]);
    assert Deplete(both, 100, 2) == [Lot(0, 1)] + Deplete(bought, 0, 2) == [Lot(0, 1), Lot(100, 2)];
    assert [Lot(0, 1), Lot(100, 2)][1..] == bought;
    assert Retain(bought) == bought;
  }

  /** Buying first takes all the cash, and the sale afterwards is not stopped. */
  lemma {:induction false} BuyThenSell(account: Account, fee: int, duty: int, st: State)
    requires PennyCosts(account, fee, duty) && PennyHeld(st, 100 + fee, [Lot(100, 1)], fee, 300 + fee)
    ensures ProcessIntents(account, PennySession(2), st, [LATER_BUY, PENNY_SALE], 2).Ok?
  {
    PennyCharges(account, fee, duty);
    SwapTotals();
    var both := [Lot(100, 1)] + [Lot(100, 2)];
    assert both == [Lot(100, 1), Lot(100, 2)];
    PennyFill(account, fee, duty, 2, st, LATER_BUY);
    var mid := ProcessIntent(account, PennySession(2), st, LATER_BUY);
    assert mid.Ok? && mid.value.lots[0] == both && mid.value.cash == 0;
    TwoIntents(account, PennySession(2), st, [LATER_BUY, PENNY_SALE], mid.value);
    PennyFill(account, fee, duty, 2, mid.value, PENNY_SALE);
  }

  /** Selling first leaves less than the purchase needs. */
  lemma {:induction false} SellThenBuy(account: Account, fee: int, duty: int, st: State)
    requires PennyCosts(account, fee, duty) && PennyHeld(st, 100 + fee, [Lot(100, 1)], fee, 300 + fee)
    requires fee + duty > 100
    ensures ProcessIntents(account, PennySession(2), st, SWAP, 2) == Err(ExceedsCash)
  {
    PennyCharges(account, fee, duty);
    SwapTotals();
    PennyFill(account, fee, duty, 2, st, PENNY_SALE);
    var mid := ProcessIntent(account, PennySession(2), st, PENNY_SALE);
    assert mid.Ok? && mid.value.cash == 200 - duty;
    TwoIntents(account, PennySession(2), st, SWAP, mid.value);
    PennyFill(account, fee, duty, 2, mid.value, LATER_BUY);
  }

  /** Neither the proceeds nor the closed positions overflow. */
  lemma {:induction false} SwapHasRoom(account: Account, fee: int, duty: int, st: State)
    requires PennyCosts(account, fee, duty) && PennyHeld(st, 100 + fee, [Lot(100, 1)], fee, 300 + fee)
    ensures InI128(st.cash + Sum(SWAP, ProceedsOf(account, PennySession(2))))
    ensures st.closedCount + |SoldOut(account, PennySession(2), st, SWAP)| <= U64_MAX
  {
    PennyCharges(account, fee, duty);
    var session := PennySession(2);
    var proceeds := ProceedsOf(account, session);
    PennyQuote(account, fee, duty, 2, PENNY_SALE);
    assert BarOf(session.bars, 0) == Ok(PENNY_BARS[1]);
    assert FillOf(account, session, PENNY_SALE) == Some(Quote(1, 100, fee, duty, 0));
    assert CashOf(account, session)(PENNY_SALE) == 100 - fee - duty;
    assert proceeds(PENNY_SALE) == 100 - fee - duty && proceeds(LATER_BUY) == 0;
    assert [PENNY_SALE][..0] == [] && SWAP[..1] == [PENNY_SALE];
    assert Sum([PENNY_SALE], proceeds) == 100 - fee - duty;
    SmallerSet(SoldOut(account, session, st, SWAP), {0});
  }

  /** A session of a valid run, and an order of its due intents that passes. */
  ghost predicate PassesInstead(input: Input, k: nat, st: State, other: seq<Intent>) {
    && ValidInput(input) && k < |input.sessions| && RunSessions(input, k) == Ok(st)
    && multiset(other) == multiset(Schedule(input.intents, st.completed, input.sessions[k].seqNo))
    && ProcessIntents(input.account, input.sessions[k], st, other, |other|).Ok?
  }

  /** The engine's order does as well. */
  ghost predicate EngineDoesAsWell(input: Input, k: nat, st: State, other: seq<Intent>)
    requires PassesInstead(input, k, st, other)
  {
    Optimal(input.account, input.sessions[k], st, other, Schedule(input.intents, st.completed, input.sessions[k].seqNo))
  }

  ghost predicate OptimalWithRates(scale: int, commission: int, stampDuty: int) {
    forall input: Input, k: nat, st: State, other: seq<Intent> |
      && PassesInstead(input, k, st, other) && input.account.rateScale == scale
      && input.account.commissionRate == commission && input.account.stampDutyRate == stampDuty ::
      EngineDoesAsWell(input, k, st, other)
  }

  lemma {:induction false} SwapOverturns(account: Account, fee: int, duty: int, st: State)
    requires PennyCosts(account, fee, duty) && fee + duty > 100
    requires PennyHeld(st, 100 + fee, [Lot(100, 1)], fee, 300 + fee)
    ensures var other := [LATER_BUY, PENNY_SALE];
            && multiset(other) == multiset(SWAP)
            && ProcessIntents(account, PennySession(2), st, other, |other|).Ok?
            && ProcessIntents(account, PennySession(2), st, SWAP, |SWAP|) == Err(ExceedsCash)
            && !Optimal(account, PennySession(2), st, other, SWAP)
  {
    BuyThenSell(account, fee, duty, st);
    SellThenBuy(account, fee, duty, st);
    SwapHasRoom(account, fee, duty, st);
  }

  /** With uncovered rates there is a session that only the other order gets through. */
  lemma {:induction false} SwapIsNotOptimal(account: Account, fee: int, duty: int)
    requires PennyCosts(account, fee, duty) && fee + duty > 100
    ensures !OptimalWithRates(account.rateScale, account.commissionRate, account.stampDutyRate)
  {
    var input, other := SwapInput(account), [LATER_BUY, PENNY_SALE];
    SwapInputIsValid(account, fee, duty);
    var st := SwapStarts(account, fee, duty);
    SwapSchedules();
    SwapOverturns(account, fee, duty, st);
    assert PassesInstead(input, 1, st, other) && !EngineDoesAsWell(input, 1, st, other);
  }

  /** Given the rates, closing before opening is the best order of every session that a
      valid input reaches if and only if the charges on one board lot at price 1 leave
      it non-negative or cannot be computed. */
  lemma {:induction false} OptimalExactly(scale: int, commission: int, stampDuty: int)
    requires ValidRates(scale, commission, stampDuty)
    ensures OptimalWithRates(scale, commission, stampDuty) <==> ChargesCovered(scale, commission, stampDuty)
  {
    if ChargesCovered(scale, commission, stampDuty) {
      forall input: Input, k: nat, st: State, other: seq<Intent> |
        && PassesInstead(input, k, st, other) && input.account.rateScale == scale
        && input.account.commissionRate == commission && input.account.stampDutyRate == stampDuty
        ensures EngineDoesAsWell(input, k, st, other)
      {
        CloseBeforeOpenIsOptimal(input, k, st, other, Schedule(input.intents, st.completed, input.sessions[k].seqNo));
      }
    } else {
      var fee, duty := RateCharge(100, commission, scale).value, RateCharge(100, stampDuty, scale).value;
      SwapIsNotOptimal(PennyAccount(scale, commission, stampDuty, fee), fee, duty);
    }
  }
}
