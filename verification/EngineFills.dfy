/** Where an order fills, said without the branches: whether the bar reaches its price,
    and the better of open and order price, moved by the slippage. */
module EngineFills {
  import opened Checked
  import opened Events
  import opened Engine

  predicate Blocked(bar: Bar, t: Intent) {
    (t.side == Buy && !bar.canBuy) || (t.side == Sell && !bar.canSell)
  }

  /** The bar trades at the price of the order at some time. */
  predicate Reaches(bar: Bar, t: Intent)
    requires MatchingPrice(t)
  {
    match (t.orderType, t.side)
    case (Market, _) => true
    case (Limit, Buy) => bar.low <= t.limit.value
    case (Limit, Sell) => bar.high >= t.limit.value
    case (Stop, Buy) => bar.high >= t.stop.value
    case (Stop, Sell) => bar.low <= t.stop.value
  }

  /** Already reached at the open. */
  predicate ReachesAtOpen(bar: Bar, t: Intent)
    requires MatchingPrice(t)
  {
    Reaches(bar.(low := bar.open, high := bar.open), t)
  }

  /** The price before slippage: the open, unless the order only trades later. */
  function Reference(bar: Bar, t: Intent): int
    requires MatchingPrice(t)
  {
    match (t.orderType, t.side)
    case (Market, _) => bar.open
    case (Limit, Buy) => Min(bar.open, t.limit.value)
    case (Limit, Sell) => Max(bar.open, t.limit.value)
    case (Stop, Buy) => Max(bar.open, t.stop.value)
    case (Stop, Sell) => Min(bar.open, t.stop.value)
  }

  /** Slippage moves the price against the order, but never past its limit. */
  function Slipped(account: Account, t: Intent, reference: int): int
    requires MatchingPrice(t)
  {
    var moved := if t.side == Buy then reference + account.slippage else reference - account.slippage;
    if t.orderType != Limit then moved
    else if t.side == Buy then Min(moved, t.limit.value) else Max(moved, t.limit.value)
  }

  /** On a valid bar an order fills exactly when it is allowed and the bar reaches its
      price; then at the reference moved by the slippage, at the open exactly when it
      was reached there, and as maker exactly when a limit order had to wait. */
  lemma {:induction false} FillsExactly(account: Account, bar: Bar, t: Intent)
    requires ValidBar(bar, account.slippage) && MatchingPrice(t) && account.slippage >= 0
    requires FillDecision(account, bar, t).Ok?
    ensures var decision := FillDecision(account, bar, t).value;
            if Blocked(bar, t) || !Reaches(bar, t) then decision == None
            else
              var reference := Reference(bar, t);
              var price := Slipped(account, t, reference);
              decision == Some(Fill(price, if t.side == Buy then price - reference else reference - price,
                                    if t.orderType == Limit && !ReachesAtOpen(bar, t) then Maker else Taker,
                                    if ReachesAtOpen(bar, t) then AtOpen else Intrabar))
  {
  }

  /** Nothing but an overflow of the slipped price keeps the decision from being made. */
  lemma {:induction false} DecisionFails(account: Account, bar: Bar, t: Intent)
    requires ValidBar(bar, account.slippage) && MatchingPrice(t) && account.slippage >= 0
    ensures FillDecision(account, bar, t).Err? <==>
              && !Blocked(bar, t) && Reaches(bar, t)
              && !InI128(if t.side == Buy then Reference(bar, t) + account.slippage
                         else Reference(bar, t) - account.slippage)
    ensures FillDecision(account, bar, t).Err? ==> FillDecision(account, bar, t) == Err(Overflow)
  {
  }

  /** A limit order never trades beyond its limit, no order outside the bar by more
      than the slippage, and the slippage of a fill is never negative. */
  lemma {:induction false} FillsInRange(account: Account, bar: Bar, t: Intent)
    requires ValidBar(bar, account.slippage) && MatchingPrice(t) && account.slippage >= 0
    requires FillDecision(account, bar, t).Ok? && FillDecision(account, bar, t).value.Some?
    ensures var fill := FillDecision(account, bar, t).value.value;
            && 0 <= fill.slippagePerUnit <= account.slippage
            && (t.orderType == Limit ==>
                  if t.side == Buy then fill.price <= t.limit.value else fill.price >= t.limit.value)
            && (if t.side == Buy then bar.low <= fill.price <= bar.high + account.slippage
                else bar.low - account.slippage <= fill.price <= bar.high)
  {
    FillsExactly(account, bar, t);
  }
}
