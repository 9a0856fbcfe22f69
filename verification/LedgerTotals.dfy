/** T+1 in totals: whatever was closed through a session never exceeds what was opened
    strictly before it, on either side of a v1 account and for every v2 symbol. */
module LedgerTotals {
  import opened Checked
  import opened Events
  import opened Lots
  import E = Engine
  import EL = EngineLedger
  import V = Validator
  import VC = ValidatorCurve
  import P = Portfolio
  import PL = PortfolioLedger
  import PS = PortfolioSolvency

  /** Shares of a queue with a purchase session before this one. */
  function CountBefore(queue: seq<int>, session: int): nat {
    if queue == [] then 0 else (if queue[0] < session then 1 else 0) + CountBefore(queue[1..], session)
  }

  ghost predicate Ascending(queue: seq<int>, bound: int) {
    && (forall i :: 0 <= i < |queue| ==> queue[i] <= bound)
    && forall i, j :: 0 <= i < j < |queue| ==> queue[i] <= queue[j]
  }

  lemma {:induction false} EnoughBefore(queue: seq<int>, n: nat, session: int, bound: int)
    requires n <= |queue| && Ascending(queue, bound) && (n > 0 ==> queue[n - 1] < session)
    ensures n <= CountBefore(queue, session)
  {
    if n > 0 {
      assert queue[0] <= queue[n - 1];
      assert n > 1 ==> queue[1..][n - 2] == queue[n - 1];
      EnoughBefore(queue[1..], n - 1, session, bound);
    }
  }

  lemma {:induction false} MoreBefore(a: seq<int>, b: seq<int>, session: int)
    ensures CountBefore(a, session) <= CountBefore(a + b, session)
  {
    if a != [] {
      assert (a + b)[1..] == a[1..] + b;
      MoreBefore(a[1..], b, session);
    }
  }

  lemma {:induction false} QueueGrows(queue: seq<int>, x: int, n: nat, bound: int)
    requires Ascending(queue, bound) && bound <= x
    ensures Ascending(queue + Copies(x, n), x)
  {
    CopiesAre(x, n);
  }

  // ---- v1 ----

  ghost predicate InSessionOrder(trades: seq<E.TradeRecord>) {
    forall i, j :: 0 <= i < j < |trades| ==> trades[i].session <= trades[j].session
  }

  lemma {:induction false} OpenedAscends(trades: seq<E.TradeRecord>, side: Side, bound: int)
    requires InSessionOrder(trades) && forall i :: 0 <= i < |trades| ==> trades[i].session <= bound
    ensures Ascending(EL.Opened(trades, side), bound)
  {
    if trades != [] {
      var n := |trades| - 1;
      OpenedAscends(trades[..n], side, trades[n].session);
      var last := trades[n];
      QueueGrows(EL.Opened(trades[..n], side), last.session, if last.quantity > 0 then last.quantity else 0,
                 last.session);
    }
  }

  lemma {:induction false} CloseIsCovered(trades: seq<E.TradeRecord>, i: nat, side: Side, session: int)
    requires i < |trades| && EL.TakesOldest(trades, i) && InSessionOrder(trades[..i])
    requires trades[i].effect == Close && EL.Opposite(trades[i].side) == side && trades[i].session <= session
    requires forall j :: 0 <= j < i ==> trades[j].session <= session
    ensures EL.Closed(trades[..i], side) + trades[i].quantity <= CountBefore(EL.Opened(trades[..i], side), session)
  {
    var queue, closed := EL.Opened(trades[..i], side), EL.Closed(trades[..i], side) + trades[i].quantity;
    OpenedAscends(trades[..i], side, session);
    assert queue[closed - 1] < trades[i].session;
    EnoughBefore(queue, closed, session, session);
  }

  lemma {:induction false} ClosedNext(trades: seq<E.TradeRecord>, n: nat, side: Side, session: int)
    requires EL.FifoLedger(trades) && InSessionOrder(trades) && 0 < n <= |trades|
    requires forall i :: 0 <= i < n ==> trades[i].session <= session
    requires EL.Closed(trades[..n - 1], side) <= CountBefore(EL.Opened(trades[..n - 1], side), session)
    ensures EL.Closed(trades[..n], side) <= CountBefore(EL.Opened(trades[..n], side), session)
  {
    var before, t := trades[..n - 1], trades[n - 1];
    assert trades[..n] == before + [t];
    EL.LedgerAppend(before, t, side);
    var queue := EL.Opened(before, side);
    assert queue + [] == queue;
    if t.effect == Open {
      MoreBefore(queue, if t.side == side && t.quantity > 0 then Copies(t.session, t.quantity) else [], session);
    } else if t.side != side {
      CloseIsCovered(trades, n - 1, side, session);
    }
  }

  lemma {:induction false} ClosedWithin(trades: seq<E.TradeRecord>, n: nat, side: Side, session: int)
    requires EL.FifoLedger(trades) && InSessionOrder(trades) && n <= |trades|
    requires forall i :: 0 <= i < n ==> trades[i].session <= session
    ensures EL.Closed(trades[..n], side) <= CountBefore(EL.Opened(trades[..n], side), session)
  {
    if n > 0 {
      ClosedWithin(trades, n - 1, side, session);
      ClosedNext(trades, n, side, session);
    }
  }

  lemma {:induction false} SessionsSorted(trades: seq<E.TradeRecord>, i: nat, j: nat)
    requires V.SessionsOrdered(trades, V.TradeSession) && i <= j < |trades|
    ensures trades[i].session <= trades[j].session
  {
    if i < j {
      SessionsSorted(trades, i, j - 1);
      assert V.TradeSession(trades[j - 1]) <= V.TradeSession(trades[j - 1 + 1]);
    }
  }

  /** On a v1 A-share account, for longs and for research shorts alike: the shares
      closed by the trades through a session are covered by shares opened before it. */
  lemma {:induction false} ClosesStayBehindOpens(input: E.Input, k: nat, n: nat, side: Side, session: int)
    requires E.ValidInput(input) && input.account.model == E.AShareCash
    requires k <= |input.bars| && E.Replay(input, k).Ok?
    requires n <= |E.Replay(input, k).value.book.trades|
    requires forall i :: 0 <= i < n ==> E.Replay(input, k).value.book.trades[i].session <= session
    ensures var trades := E.Replay(input, k).value.book.trades;
            EL.Closed(trades[..n], side) <= CountBefore(EL.Opened(trades[..n], side), session)
  {
    var trades := E.Replay(input, k).value.book.trades;
    EL.LedgerIsFifo(input, k);
    VC.RunIsScanned(input, k);
    forall i, j | 0 <= i < j < |trades| ensures trades[i].session <= trades[j].session { SessionsSorted(trades, i, j); }
    ClosedWithin(trades, n, side, session);
  }

  // ---- v2 ----

  ghost predicate SymbolsInOrder(trades: seq<P.TradeRecord>, bound: int) {
    && (forall i :: 0 <= i < |trades| ==> trades[i].session <= bound)
    && forall i, j :: 0 <= i < j < |trades| ==> trades[i].session <= trades[j].session
  }

  lemma {:induction false} BoughtAscends(trades: seq<P.TradeRecord>, symbol: Symbol, bound: int)
    requires SymbolsInOrder(trades, bound)
    ensures Ascending(PL.Bought(trades, symbol), bound)
  {
    if trades != [] {
      var n := |trades| - 1;
      BoughtAscends(trades[..n], symbol, trades[n].session);
      var last := trades[n];
      QueueGrows(PL.Bought(trades[..n], symbol), last.session, if last.quantity > 0 then last.quantity else 0,
                 last.session);
    }
  }

  lemma {:induction false} SaleIsCovered(trades: seq<P.TradeRecord>, i: nat, symbol: Symbol, session: int)
    requires i < |trades| && PL.SellsOldest(trades, i) && SymbolsInOrder(trades[..i], session)
    requires trades[i].effect == Close && trades[i].symbol == symbol && trades[i].session <= session
    ensures PL.Sold(trades[..i], symbol) + trades[i].quantity <= CountBefore(PL.Bought(trades[..i], symbol), session)
  {
    var queue, sold := PL.Bought(trades[..i], symbol), PL.Sold(trades[..i], symbol) + trades[i].quantity;
    BoughtAscends(trades[..i], symbol, session);
    assert queue[sold - 1] < trades[i].session;
    EnoughBefore(queue, sold, session, session);
  }

  lemma {:induction false} SoldNext(trades: seq<P.TradeRecord>, n: nat, symbol: Symbol, session: int, bound: int)
    requires PL.FifoLedger(trades) && SymbolsInOrder(trades, bound) && 0 < n <= |trades|
    requires forall i :: 0 <= i < n ==> trades[i].session <= session
    requires PL.Sold(trades[..n - 1], symbol) <= CountBefore(PL.Bought(trades[..n - 1], symbol), session)
    ensures PL.Sold(trades[..n], symbol) <= CountBefore(PL.Bought(trades[..n], symbol), session)
  {
    var before, t := trades[..n - 1], trades[n - 1];
    assert trades[..n] == before + [t];
    PL.LedgerAppend(before, t, symbol);
    var queue := PL.Bought(before, symbol);
    assert queue + [] == queue;
    if t.effect == Open {
      MoreBefore(queue, if t.symbol == symbol && t.quantity > 0 then Copies(t.session, t.quantity) else [], session);
    } else if t.symbol == symbol {
      SaleIsCovered(trades, n - 1, symbol, session);
    }
  }

  lemma {:induction false} SoldWithin(trades: seq<P.TradeRecord>, n: nat, symbol: Symbol, session: int, bound: int)
    requires PL.FifoLedger(trades) && SymbolsInOrder(trades, bound) && n <= |trades|
    requires forall i :: 0 <= i < n ==> trades[i].session <= session
    ensures PL.Sold(trades[..n], symbol) <= CountBefore(PL.Bought(trades[..n], symbol), session)
  {
    if n > 0 {
      SoldWithin(trades, n - 1, symbol, session, bound);
      SoldNext(trades, n, symbol, session, bound);
    }
  }

  lemma {:induction false} IntentKeepsOrder(account: P.Account, session: P.Session, st: P.State, t: P.Intent)
    requires SymbolsInOrder(st.trades, session.seqNo) && P.ProcessIntent(account, session, st, t).Ok?
    ensures SymbolsInOrder(P.ProcessIntent(account, session, st, t).value.trades, session.seqNo)
  {
  }

  lemma {:induction false} IntentsKeepOrder(account: P.Account, session: P.Session, st: P.State, due: seq<P.Intent>,
      n: nat)
    requires n <= |due| && SymbolsInOrder(st.trades, session.seqNo)
    requires P.ProcessIntents(account, session, st, due, n).Ok?
    ensures SymbolsInOrder(P.ProcessIntents(account, session, st, due, n).value.trades, session.seqNo)
  {
    if n > 0 {
      IntentsKeepOrder(account, session, st, due, n - 1);
      IntentKeepsOrder(account, session, P.ProcessIntents(account, session, st, due, n - 1).value, due[n - 1]);
    }
  }

  lemma {:induction false} RunKeepsOrder(input: P.Input, k: nat)
    requires P.IncreasingSessions(input.sessions) && k <= |input.sessions| && P.RunSessions(input, k).Ok?
    ensures SymbolsInOrder(P.RunSessions(input, k).value.trades, PS.LastSession(input, k))
  {
    if k > 0 {
      RunKeepsOrder(input, k - 1);
      var st, session := P.RunSessions(input, k - 1).value, input.sessions[k - 1];
      assert k > 1 ==> input.sessions[k - 2].seqNo < input.sessions[k - 2 + 1].seqNo;
      P.SessionParts(input, session, st);
      var due := P.Schedule(input.intents, st.completed, session.seqNo);
      IntentsKeepOrder(input.account, session, st, due, |due|);
      P.MarkFrame(input.account, session, P.ProcessIntents(input.account, session, st, due, |due|).value);
    }
  }

  /** For every v2 symbol: the shares sold by the trades through a session are covered by
      shares bought before it. */
  lemma {:induction false} SalesStayBehindPurchases(input: P.Input, k: nat, n: nat, symbol: Symbol, session: int)
    requires P.ValidInput(input) && k <= |input.sessions| && P.RunSessions(input, k).Ok?
    requires n <= |P.RunSessions(input, k).value.trades|
    requires forall i :: 0 <= i < n ==> P.RunSessions(input, k).value.trades[i].session <= session
    ensures var trades := P.RunSessions(input, k).value.trades;
            PL.Sold(trades[..n], symbol) <= CountBefore(PL.Bought(trades[..n], symbol), session)
  {
    PS.RunKeeps(input, k);
    RunKeepsOrder(input, k);
    SoldWithin(P.RunSessions(input, k).value.trades, n, symbol, session, PS.LastSession(input, k));
  }
}
