/** The trade ledger of the v2 engine read as a queue of single shares: every
    closing trade sells the oldest shares still held of its symbol, and all of them
    were bought in an earlier session. */
module PortfolioLedger {
  import opened Checked
  import opened Events
  import opened Lots
  import opened Portfolio
  import opened PortfolioInvariant
  import opened ShareQueue

  /** All shares of a symbol ever bought, oldest first, as their purchase sessions. */
  function Bought(trades: seq<TradeRecord>, symbol: Symbol): seq<int> {
    if trades == [] then []
    else
      var last := trades[|trades| - 1];
      Bought(trades[..|trades| - 1], symbol)
      + if last.symbol == symbol && last.effect == Open && last.quantity > 0
        then Copies(last.session, last.quantity) else []
  }

  /** How many shares of a symbol were ever sold. */
  function Sold(trades: seq<TradeRecord>, symbol: Symbol): int {
    if trades == [] then 0
    else
      var last := trades[|trades| - 1];
      Sold(trades[..|trades| - 1], symbol)
      + if last.symbol == symbol && last.effect == Close then last.quantity else 0
  }

  /** Trade i, if it closes, sells the shares at queue positions `sold` to
      `sold + quantity - 1`, all of them bought in an earlier session. */
  ghost predicate SellsOldest(trades: seq<TradeRecord>, i: nat)
    requires i < |trades|
  {
    var t := trades[i];
    t.effect == Close ==> TakesFrom(Bought(trades[..i], t.symbol), Sold(trades[..i], t.symbol), t.quantity, t.session)
  }

  ghost predicate FifoLedger(trades: seq<TradeRecord>) {
    forall i :: 0 <= i < |trades| ==> SellsOldest(trades, i)
  }

  /** The lots of one symbol are what its queue has left. */
  ghost predicate SymbolBook(held: seq<Lot>, trades: seq<TradeRecord>, symbol: Symbol) {
    LeftOf(held, Bought(trades, symbol), Sold(trades, symbol))
  }

  ghost predicate Book(lots: map<Symbol, seq<Lot>>, trades: seq<TradeRecord>) {
    && FifoLedger(trades)
    && forall s | s in lots :: SymbolBook(lots[s], trades, s)
  }

  lemma {:induction false} LedgerAppend(trades: seq<TradeRecord>, t: TradeRecord, symbol: Symbol)
    ensures Bought(trades + [t], symbol) == Bought(trades, symbol)
            + (if t.symbol == symbol && t.effect == Open && t.quantity > 0 then Copies(t.session, t.quantity) else [])
    ensures Sold(trades + [t], symbol) == Sold(trades, symbol)
            + (if t.symbol == symbol && t.effect == Close then t.quantity else 0)
  {
    assert (trades + [t])[..|trades|] == trades;
  }

  lemma {:induction false} FifoAppend(trades: seq<TradeRecord>, t: TradeRecord)
    requires FifoLedger(trades)
    requires SellsOldest(trades + [t], |trades|)
    ensures FifoLedger(trades + [t])
  {
    var more := trades + [t];
    forall i | 0 <= i < |more|
      ensures SellsOldest(more, i)
    {
      if i < |trades| {
        assert SellsOldest(trades, i);
        assert more[..i] == trades[..i];
      }
    }
  }

  lemma {:induction false} SymbolBookStep(held: seq<Lot>, trades: seq<TradeRecord>, session: nat, t: Intent, q: Quote)
    requires WellFormed(held, session) && SymbolBook(held, trades, t.symbol)
    requires t.quantity > 0 && (t.side == Buy <==> t.effect == Open)
    requires t.side == Sell ==> t.quantity <= Eligible(held, session)
    ensures SymbolBook(LotsAfter(held, session, t), trades + [TradeOf(t, session, q)], t.symbol)
    ensures SellsOldest(trades + [TradeOf(t, session, q)], |trades|)
  {
    var trade := TradeOf(t, session, q);
    LedgerAppend(trades, trade, t.symbol);
    assert (trades + [trade])[..|trades|] == trades;
    QueueStep(held, Bought(trades, t.symbol), Sold(trades, t.symbol), t.side == Buy, t.quantity, session);
  }

  lemma {:induction false} OtherBookStays(held: seq<Lot>, trades: seq<TradeRecord>, trade: TradeRecord, s: Symbol)
    requires SymbolBook(held, trades, s) && s != trade.symbol
    ensures SymbolBook(held, trades + [trade], s)
  {
    LedgerAppend(trades, trade, s);
  }

  lemma {:induction false} BooksStay(lots: map<Symbol, seq<Lot>>, trades: seq<TradeRecord>, trade: TradeRecord,
      after: seq<Lot>)
    requires Book(lots, trades) && FifoLedger(trades + [trade]) && SymbolBook(after, trades + [trade], trade.symbol)
    ensures Book(lots[trade.symbol := after], trades + [trade])
  {
    forall s | s in lots && s != trade.symbol ensures SymbolBook(lots[s], trades + [trade], s) {
      OtherBookStays(lots[s], trades, trade, s);
    }
  }

  lemma {:induction false} FillTrades(st: State, session: nat, t: Intent, q: Quote, symbols: seq<Symbol>)
    requires Holdings(st.lots, symbols, session) && TradableIntent(t, symbols)
    requires FillIntent(st, session, t, q).Ok?
    ensures var next := FillIntent(st, session, t, q).value;
            && next.trades == st.trades + [TradeOf(t, session, q)]
            && next.lots == st.lots[t.symbol := LotsAfter(st.lots[t.symbol], session, t)]
    ensures t.side == Sell ==> t.quantity <= Eligible(st.lots[t.symbol], session)
  {
    SettleIs(st, session, t, q, symbols);
  }

  lemma {:induction false} FillKeepsBook(st: State, session: nat, t: Intent, q: Quote, symbols: seq<Symbol>)
    requires Holdings(st.lots, symbols, session) && TradableIntent(t, symbols)
    requires Book(st.lots, st.trades)
    requires FillIntent(st, session, t, q).Ok?
    ensures Book(FillIntent(st, session, t, q).value.lots, FillIntent(st, session, t, q).value.trades)
  {
    var held, trade := st.lots[t.symbol], TradeOf(t, session, q);
    FillTrades(st, session, t, q, symbols);
    assert WellFormed(held, session);
    SymbolBookStep(held, st.trades, session, t, q);
    FifoAppend(st.trades, trade);
    BooksStay(st.lots, st.trades, trade, LotsAfter(held, session, t));
  }
}
