/** When the cash of a v1 A-share account stays non-negative. The engine does not check
    it: a buy may debit more than there is. */
module EngineCash {
  import opened Checked
  import opened Events
  import opened Folds
  import opened Engine
  import opened EngineInduction
  import opened Validator
  import opened ValidatorMirror
  import opened ValidatorCurve
  import opened ValidatorLedger
  import opened ValidatorCompleteness
  import opened Sequences
  import Exact = ValidatorExact

  /** What a fill takes out of the cash; negative for a sale that pays for itself. */
  function Debit(trade: TradeRecord): int {
    if trade.side == Buy then trade.notional + trade.fee else trade.fee + trade.stampDuty - trade.notional
  }

  /** An A-share ledger is its trades, record by record. */
  ghost predicate LedgerIsTrades(b: Book) {
    && |b.cashLedger| == |b.trades|
    && forall i :: 0 <= i < |b.trades| ==>
         var r := b.cashLedger[i];
         r.notionalDelta + r.feeDelta + r.stampDutyDelta == -Debit(b.trades[i]) && r.realizedDelta == 0
         && r.fundingDelta == 0
  }

  lemma {:induction false} FillKeepsTrades(account: Account, session: nat, b: Book, t: Intent, fill: Fill)
    requires account.model == AShareCash && LedgerIsTrades(b) && BookFill(account, session, b, t, fill).Ok?
    ensures LedgerIsTrades(BookFill(account, session, b, t, fill).value)
  {
    FillLedger(account, session, b, t, fill);
    var c := CostsOf(account, t, fill).value;
    AShareMoney(account, session, b, t, c);
    assert t.side == Buy ==> c.stampDuty == 0;
  }

  lemma {:induction false} BarKeepsTrades(input: Input, bar: Bar, st: State)
    requires input.account.model == AShareCash && UniqueIds(input.intents)
    requires LedgerIsTrades(st.book) && ProcessBar(input, bar, st).Ok?
    ensures LedgerIsTrades(ProcessBar(input, bar, st).value.book)
  {
    var inv := (s: State) => LedgerIsTrades(s.book);
    forall s: State, t: Intent | inv(s) && t in input.intents && Live(t, bar.seqNo) && t.id !in s.log.completed
                                 && ProcessIntent(input.account, bar, s, t).Ok?
      ensures inv(ProcessIntent(input.account, bar, s, t).value)
    {
      IntentParts(input.account, bar, s, t);
      if !OcoDone(s.log, t) && FillDecision(input.account, bar, t).value.Some? {
        FillKeepsTrades(input.account, bar.seqNo, s.book, t, FillDecision(input.account, bar, t).value.value);
      }
    }
    BarParts(input, bar, st);
    BarInduction(input, bar, st, inv);
  }

  lemma {:induction false} RunKeepsTrades(input: Input, k: nat)
    requires input.account.model == AShareCash && UniqueIds(input.intents)
    requires k <= |input.bars| && Replay(input, k).Ok?
    ensures LedgerIsTrades(Replay(input, k).value.book)
  {
    if k > 0 {
      LastReplay(input, k);
      RunKeepsTrades(input, k - 1);
      BarKeepsTrades(input, input.bars[k - 1], Replay(input, k - 1).value);
    }
  }

  /** The cash after a fill is the cash before it less the debit. */
  lemma {:induction false} CashAfter(account: Account, b: Book, m: nat)
    requires LedgerIsTrades(b) && CashRuns(account, b) && AllFit(b.cashLedger) && m < |b.cashLedger|
    ensures b.cashLedger[m].resultingCash
            == Exact.CashBefore(b.cashLedger, account.startingBalance, m) - Debit(b.trades[m])
  {
    FoldPassedAt(RunningCash, account.startingBalance, b.cashLedger, |b.cashLedger|, m);
    if m > 0 { FoldPassedAt(RunningCash, account.startingBalance, b.cashLedger, |b.cashLedger|, m - 1); }
  }

  ghost predicate CashNonNegative(b: Book) {
    forall m :: 0 <= m < |b.cashLedger| ==> b.cashLedger[m].resultingCash >= 0
  }

  /** The starting balance covers what any number of the first trades debit together. */
  ghost predicate DebitsCovered(account: Account, trades: seq<TradeRecord>) {
    forall n :: 0 <= n <= |trades| ==> Sum(trades[..n], Debit) <= account.startingBalance
  }

  /** The cash before trade n is the starting balance less the debits of the trades before. */
  lemma {:induction false} CashIsWhatIsLeft(account: Account, b: Book, n: nat)
    requires LedgerIsTrades(b) && CashRuns(account, b) && AllFit(b.cashLedger) && n <= |b.trades|
    ensures Exact.CashBefore(b.cashLedger, account.startingBalance, n)
            == account.startingBalance - Sum(b.trades[..n], Debit)
  {
    if n > 0 {
      CashIsWhatIsLeft(account, b, n - 1);
      CashAfter(account, b, n - 1);
      TakeNext(b.trades, n - 1);
      SumAppend(b.trades[..n - 1], b.trades[n - 1], Debit);
    }
  }

  /** After every fill of an A-share run the cash is non-negative if and only if the
      starting balance covers the debits of every beginning of the trade list; and then
      it is non-negative after every bar. */
  lemma {:induction false} CashNonNegativeExactly(input: Input, k: nat)
    requires ValidInput(input) && input.account.model == AShareCash && k <= |input.bars| && Replay(input, k).Ok?
    ensures CashNonNegative(Replay(input, k).value.book)
            <==> DebitsCovered(input.account, Replay(input, k).value.book.trades)
    ensures CashNonNegative(Replay(input, k).value.book) ==>
              forall j :: 0 <= j <= k ==> Replay(input, j).Ok? && Replay(input, j).value.book.cash >= 0
  {
    RunKeepsTrades(input, k);
    RunFits(input, k);
    CashIsCovered(input.account, Replay(input, k).value.book);
    if CashNonNegative(Replay(input, k).value.book) {
      forall j | 0 <= j <= k ensures Replay(input, j).Ok? && Replay(input, j).value.book.cash >= 0 {
        EarlierCash(input, j, k);
      }
    }
  }

  lemma {:induction false} CashIsCovered(account: Account, b: Book)
    requires account.startingBalance > 0 && LedgerIsTrades(b) && CashRuns(account, b) && AllFit(b.cashLedger)
    ensures CashNonNegative(b) <==> DebitsCovered(account, b.trades)
  {
    forall n | 0 <= n <= |b.trades|
      ensures Exact.CashBefore(b.cashLedger, account.startingBalance, n)
              == account.startingBalance - Sum(b.trades[..n], Debit)
    {
      CashIsWhatIsLeft(account, b, n);
    }
    if CashNonNegative(b) {
      forall n | 0 <= n <= |b.trades| ensures Sum(b.trades[..n], Debit) <= account.startingBalance {
        if n > 0 { assert b.cashLedger[n - 1].resultingCash >= 0; }
      }
    }
    if DebitsCovered(account, b.trades) {
      forall m | 0 <= m < |b.cashLedger| ensures b.cashLedger[m].resultingCash >= 0 {
        assert Sum(b.trades[..m + 1], Debit) <= account.startingBalance;
      }
    }
  }

  lemma {:induction false} EarlierCash(input: Input, j: nat, k: nat)
    requires ValidInput(input) && input.account.model == AShareCash && j <= k <= |input.bars| && Replay(input, k).Ok?
    requires CashNonNegative(Replay(input, k).value.book)
    ensures Replay(input, j).Ok? && Replay(input, j).value.book.cash >= 0
  {
    RunGrows(input, j, k);
    RunIsRecomputed(input, j);
    var earlier, later := Replay(input, j).value.book.cashLedger, Replay(input, k).value.book.cashLedger;
    if earlier != [] { assert earlier[|earlier| - 1] == later[|earlier| - 1]; }
  }
}
