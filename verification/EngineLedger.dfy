/** A-share lots of the v1 engine under T+1, for the long position and for research
    shorts: the trade ledger sells, or covers, the oldest shares first, and only
    shares of earlier sessions. */
module EngineLedger {
  import opened Checked
  import opened Events
  import opened Lots
  import opened Engine
  import opened EngineInduction
  import opened ShareQueue

  /** Shares opened on one side, oldest first, as their sessions. */
  function Opened(trades: seq<TradeRecord>, side: Side): seq<int> {
    if trades == [] then []
    else
      var last := trades[|trades| - 1];
      Opened(trades[..|trades| - 1], side)
      + if last.effect == Open && last.side == side && last.quantity > 0 then Copies(last.session, last.quantity)
        else []
  }

  /** How many of them were closed again. */
  function Closed(trades: seq<TradeRecord>, side: Side): int {
    if trades == [] then 0
    else
      var last := trades[|trades| - 1];
      Closed(trades[..|trades| - 1], side) + if last.effect == Close && last.side != side then last.quantity else 0
  }

  function Opposite(side: Side): Side { if side == Buy then Sell else Buy }

  /** Trade i, if it closes, takes the queue positions from `closed` on, all of them
      opened in an earlier session. */
  ghost predicate TakesOldest(trades: seq<TradeRecord>, i: nat)
    requires i < |trades|
  {
    var t := trades[i];
    t.effect == Close ==>
      var side := Opposite(t.side);
      TakesFrom(Opened(trades[..i], side), Closed(trades[..i], side), t.quantity, t.session)
  }

  ghost predicate FifoLedger(trades: seq<TradeRecord>) {
    forall i :: 0 <= i < |trades| ==> TakesOldest(trades, i)
  }

  ghost predicate SideBook(held: seq<Lot>, trades: seq<TradeRecord>, side: Side) {
    LeftOf(held, Opened(trades, side), Closed(trades, side))
  }

  /** Lots of at most one side, adding up to the signed position, in board lots of 100. */
  ghost predicate HoldingsOf(longLots: seq<Lot>, shortLots: seq<Lot>, quantity: int, bound: int) {
    && WellFormed(longLots, bound) && WellFormed(shortLots, bound)
    && InI128(Total(longLots)) && InI128(Total(shortLots))
    && quantity == Total(longLots) - Total(shortLots) && quantity % 100 == 0
    && (longLots == [] || shortLots == [])
  }

  predicate BoardLots(t: Intent) { t.quantity > 0 && t.quantity % 100 == 0 }

  ghost predicate Holdings(b: Book, bound: int) {
    HoldingsOf(b.longLots, b.shortLots, b.quantity, bound)
  }

  ghost predicate AShareSound(b: Book, bound: int) {
    && Holdings(b, bound) && FifoLedger(b.trades)
    && SideBook(b.longLots, b.trades, Buy) && SideBook(b.shortLots, b.trades, Sell)
    && b.entry == None && b.fundingLedger == [] && b.totalFunding == 0
  }

  lemma {:induction false} LedgerAppend(trades: seq<TradeRecord>, t: TradeRecord, side: Side)
    ensures Opened(trades + [t], side) == Opened(trades, side)
            + (if t.effect == Open && t.side == side && t.quantity > 0 then Copies(t.session, t.quantity) else [])
    ensures Closed(trades + [t], side) == Closed(trades, side)
            + (if t.effect == Close && t.side != side then t.quantity else 0)
  {
    assert (trades + [t])[..|trades|] == trades;
  }

  lemma {:induction false} FifoAppend(trades: seq<TradeRecord>, t: TradeRecord)
    requires FifoLedger(trades) && TakesOldest(trades + [t], |trades|)
    ensures FifoLedger(trades + [t])
  {
    var more := trades + [t];
    forall i | 0 <= i < |more|
      ensures TakesOldest(more, i)
    {
      if i < |trades| {
        assert TakesOldest(trades, i);
        assert more[..i] == trades[..i];
      }
    }
  }

  /** One side of the book after a fill on it. */
  function HeldAfter(held: seq<Lot>, t: Intent, session: nat): seq<Lot> {
    LotsFilled(held, t.effect == Open, t.quantity, session)
  }

  lemma {:induction false} HeldStep(held: seq<Lot>, t: Intent, session: nat)
    requires WellFormed(held, session) && t.quantity > 0
    requires t.effect == Close ==> t.quantity <= Eligible(held, session)
    ensures WellFormed(HeldAfter(held, t, session), session)
    ensures Total(HeldAfter(held, t, session)) == Total(held) + (if t.effect == Open then t.quantity else -t.quantity)
  {
    FilledLotsAre(held, t.effect == Open, t.quantity, session);
  }

  lemma {:induction false} SideStep(held: seq<Lot>, trades: seq<TradeRecord>, t: Intent, session: nat,
      trade: TradeRecord, side: Side)
    requires WellFormed(held, session) && SideBook(held, trades, side) && t.quantity > 0
    requires trade.side == t.side && trade.effect == t.effect && trade.quantity == t.quantity
    requires trade.session == session
    requires side == if t.effect == Open then t.side else Opposite(t.side)
    requires t.effect == Close ==> t.quantity <= Eligible(held, session)
    ensures SideBook(HeldAfter(held, t, session), trades + [trade], side)
    ensures TakesOldest(trades + [trade], |trades|)
  {
    LedgerAppend(trades, trade, side);
    assert (trades + [trade])[..|trades|] == trades;
    QueueStep(held, Opened(trades, side), Closed(trades, side), t.effect == Open, t.quantity, session);
  }

  /** What an A-share move that passes did to the lots: it worked on one side only,
      and a close had that many eligible shares. */
  lemma {:induction false} MoveIs(account: Account, session: nat, b: Book, t: Intent, c: Costs)
    requires Holdings(b, session) && t.quantity > 0
    requires AShareMove(account, session, b, t, c).Ok?
    ensures var m := AShareMove(account, session, b, t, c).value;
            var long := (t.effect == Open) == (t.side == Buy);
            && m.longLots == (if long then HeldAfter(b.longLots, t, session) else b.longLots)
            && m.shortLots == (if long then b.shortLots else HeldAfter(b.shortLots, t, session))
            && m.quantity == b.quantity + (if t.side == Buy then t.quantity else -t.quantity)
            && InI128(m.quantity) && m.entry == b.entry
            && (t.effect == Close ==>
                  t.quantity <= Eligible(if long then b.longLots else b.shortLots, session))
            && (if long then b.shortLots == [] else b.longLots == [])
  {
    ChecksAreExact(b.longLots, session, session, 0);
    ChecksAreExact(b.shortLots, session, session, 0);
    ConsumeSucceeds(b.longLots, t.quantity, session, session);
    ConsumeSucceeds(b.shortLots, t.quantity, session, session);
    EmptyWhenZero(b.longLots, session);
    EmptyWhenZero(b.shortLots, session);
  }

  lemma {:induction false} EmptyWhenZero(lots: seq<Lot>, bound: int)
    requires WellFormed(lots, bound)
    ensures Total(lots) >= 0
    ensures Total(lots) == 0 <==> lots == []
  {
    ChecksAreExact(lots, 0, bound, 0);
    if lots != [] {
      WellFormedTail(lots, bound);
      ChecksAreExact(lots[1..], 0, bound, 0);
    }
  }

  lemma {:induction false} LongAfter(longLots: seq<Lot>, quantity: int, t: Intent, session: nat)
    requires HoldingsOf(longLots, [], quantity, session) && BoardLots(t)
    requires t.effect == Close ==> t.quantity <= Eligible(longLots, session)
    requires InI128(quantity + (if t.effect == Open then t.quantity else -t.quantity))
    ensures HoldingsOf(HeldAfter(longLots, t, session), [],
                       quantity + (if t.effect == Open then t.quantity else -t.quantity), session)
  {
    HeldStep(longLots, t, session);
    BoardLotsFit(quantity, if t.effect == Open then t.quantity else -t.quantity);
  }

  lemma {:induction false} ShortAfter(shortLots: seq<Lot>, quantity: int, t: Intent, session: nat)
    requires HoldingsOf([], shortLots, quantity, session) && BoardLots(t)
    requires t.effect == Close ==> t.quantity <= Eligible(shortLots, session)
    requires InI128(quantity + (if t.effect == Open then -t.quantity else t.quantity))
    ensures HoldingsOf([], HeldAfter(shortLots, t, session),
                       quantity + (if t.effect == Open then -t.quantity else t.quantity), session)
  {
    HeldStep(shortLots, t, session);
    BoardLotsFit(quantity, if t.effect == Open then -t.quantity else t.quantity);
  }

  /** A position in board lots is never the one integer whose negation overflows. */
  lemma {:induction false} BoardLotsFit(quantity: int, change: int)
    requires quantity % 100 == 0 && change % 100 == 0 && InI128(quantity + change)
    ensures (quantity + change) % 100 == 0 && InI128(-(quantity + change))
  {
  }

  lemma {:induction false} FillKeepsHoldings(account: Account, session: nat, b: Book, t: Intent, fill: Fill)
    requires account.model == AShareCash && Holdings(b, session) && BoardLots(t)
    requires BookFill(account, session, b, t, fill).Ok?
    ensures Holdings(BookFill(account, session, b, t, fill).value, session)
  {
    FillParts(account, session, b, t, fill);
    MoveIs(account, session, b, t, CostsOf(account, t, fill).value);
    if (t.effect == Open) == (t.side == Buy) {
      LongAfter(b.longLots, b.quantity, t, session);
    } else {
      ShortAfter(b.shortLots, b.quantity, t, session);
    }
  }

  lemma {:induction false} FillKeepsLedger(account: Account, session: nat, b: Book, t: Intent, fill: Fill)
    requires account.model == AShareCash && AShareSound(b, session) && BoardLots(t)
    requires BookFill(account, session, b, t, fill).Ok?
    ensures var next := BookFill(account, session, b, t, fill).value;
            && FifoLedger(next.trades)
            && SideBook(next.longLots, next.trades, Buy) && SideBook(next.shortLots, next.trades, Sell)
  {
    FillParts(account, session, b, t, fill);
    var c := CostsOf(account, t, fill).value;
    MoveIs(account, session, b, t, c);
    var trade := TradeOf(t, session, fill, c);
    if (t.effect == Open) == (t.side == Buy) {
      SideStep(b.longLots, b.trades, t, session, trade, Buy);
      LedgerAppend(b.trades, trade, Sell);
    } else {
      SideStep(b.shortLots, b.trades, t, session, trade, Sell);
      LedgerAppend(b.trades, trade, Buy);
    }
    FifoAppend(b.trades, trade);
  }

  lemma {:induction false} FillKeepsSound(account: Account, session: nat, b: Book, t: Intent, fill: Fill)
    requires account.model == AShareCash && AShareSound(b, session) && BoardLots(t)
    requires BookFill(account, session, b, t, fill).Ok?
    ensures AShareSound(BookFill(account, session, b, t, fill).value, session)
  {
    FillKeepsHoldings(account, session, b, t, fill);
    FillKeepsLedger(account, session, b, t, fill);
    FillParts(account, session, b, t, fill);
    MoveIs(account, session, b, t, CostsOf(account, t, fill).value);
  }

  lemma {:induction false} SoundLater(b: Book, bound: int, later: int)
    requires AShareSound(b, bound) && bound <= later
    ensures AShareSound(b, later)
  {
  }

  lemma {:induction false} BarKeepsSound(input: Input, bar: Bar, st: State)
    requires input.account.model == AShareCash && ValidTape(input.intents, input.account)
    requires input.account.lotSize == 100
    requires AShareSound(st.book, bar.seqNo)
    requires ProcessBar(input, bar, st).Ok?
    ensures AShareSound(ProcessBar(input, bar, st).value.book, bar.seqNo)
  {
    var inv := (s: State) => AShareSound(s.book, bar.seqNo);
    forall s: State, t: Intent | inv(s) && t in input.intents && Live(t, bar.seqNo) && t.id !in s.log.completed
                                 && ProcessIntent(input.account, bar, s, t).Ok?
      ensures inv(ProcessIntent(input.account, bar, s, t).value)
    {
      assert ValidIntent(t, input.account);
      IntentParts(input.account, bar, s, t);
      if !OcoDone(s.log, t) && FillDecision(input.account, bar, t).value.Some? {
        FillKeepsSound(input.account, bar.seqNo, s.book, t, FillDecision(input.account, bar, t).value.value);
      }
    }
    BarParts(input, bar, st);
    BarInduction(input, bar, st, inv);
  }

  function LastSession(input: Input, k: nat): int
    requires k <= |input.bars|
  {
    if k == 0 then 0 else input.bars[k - 1].seqNo
  }

  /** Every reachable A-share state holds lots of one side only, in order of purchase,
      and its trades close the oldest shares of earlier sessions. */
  lemma {:induction false} LedgerIsFifo(input: Input, k: nat)
    requires input.account.model == AShareCash && ValidTape(input.intents, input.account)
    requires input.account.lotSize == 100
    requires IncreasingBars(input.bars) && k <= |input.bars| && Replay(input, k).Ok?
    ensures AShareSound(Replay(input, k).value.book, LastSession(input, k))
  {
    var runs := (st: State, i: nat) => i <= |input.bars| && AShareSound(st.book, LastSession(input, i));
    forall st: State, i: nat | i < |input.bars| && runs(st, i) && ProcessBar(input, input.bars[i], st).Ok?
      ensures runs(ProcessBar(input, input.bars[i], st).value, i + 1)
    {
      assert i > 0 ==> input.bars[i - 1].seqNo < input.bars[i - 1 + 1].seqNo;
      SoundLater(st.book, LastSession(input, i), input.bars[i].seqNo);
      BarKeepsSound(input, input.bars[i], st);
    }
    RunInduction(input, k, runs);
  }
}
