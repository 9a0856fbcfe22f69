/** Share lots under T+1: a lot bought in one session can be sold only in a later
    one, and a sale consumes the eligible lots in the order they were bought. */
module Lots {
  import opened Checked

  datatype Lot = Lot(quantity: int, acquired: int)

  function Total(lots: seq<Lot>): int {
    if lots == [] then 0 else lots[0].quantity + Total(lots[1..])
  }

  function Eligible(lots: seq<Lot>, session: int): int {
    if lots == [] then 0
    else (if lots[0].acquired < session then lots[0].quantity else 0) + Eligible(lots[1..], session)
  }

  /** The running sums are checked one lot at a time, from the oldest. */
  function CheckedTotal(lots: seq<Lot>, total: int): Result<int> {
    if lots == [] then Ok(total)
    else
      var next :- CheckedAdd(total, lots[0].quantity);
      CheckedTotal(lots[1..], next)
  }

  function CheckedEligible(lots: seq<Lot>, session: int, total: int): Result<int> {
    if lots == [] then Ok(total)
    else if lots[0].acquired >= session then CheckedEligible(lots[1..], session, total)
    else
      var next :- CheckedAdd(total, lots[0].quantity);
      CheckedEligible(lots[1..], session, next)
  }

  function Deplete(lots: seq<Lot>, remaining: int, session: int): seq<Lot> {
    if lots == [] || remaining == 0 then lots
    else if lots[0].acquired >= session then
      [lots[0]] + Deplete(lots[1..], remaining, session)
    else
      var consumed := Min(lots[0].quantity, remaining);
      [Lot(lots[0].quantity - consumed, lots[0].acquired)] +
      Deplete(lots[1..], remaining - consumed, session)
  }

  function Retain(lots: seq<Lot>): seq<Lot> {
    if lots == [] then []
    else if lots[0].quantity != 0 then [lots[0]] + Retain(lots[1..])
    else Retain(lots[1..])
  }

  function Consume(lots: seq<Lot>, quantity: int, session: int): Result<seq<Lot>> {
    var eligible :- CheckedEligible(lots, session, 0);
    if eligible < quantity then Err(InsufficientEligible)
    else Ok(Retain(Deplete(lots, quantity, session)))
  }

  method SumEligible(lots: seq<Lot>, session: int) returns (r: Result<int>)
    ensures r == CheckedEligible(lots, session, 0)
  {
    var eligible := 0;
    for i := 0 to |lots|
      invariant CheckedEligible(lots, session, 0) == CheckedEligible(lots[i..], session, eligible)
    {
      if lots[i].acquired < session {
        var next := CheckedAdd(eligible, lots[i].quantity);
        if next.Err? { return Err(next.error); }
        eligible := next.value;
      }
    }
    return Ok(eligible);
  }

  lemma {:induction false} DepleteUnrolls(lots: seq<Lot>, i: nat, remaining: int, session: int)
    requires i < |lots| && remaining != 0
    ensures var lot := lots[i];
            var consumed := if lot.acquired < session then Min(lot.quantity, remaining) else 0;
            Deplete(lots[i..], remaining, session)
            == [if lot.acquired < session then Lot(lot.quantity - consumed, lot.acquired) else lot]
               + Deplete(lots[i + 1..], remaining - consumed, session)
  {
    assert lots[i..][1..] == lots[i + 1..];
  }

  lemma {:induction false} Overwritten(result: seq<Lot>, work: seq<Lot>, i: nat, lot: Lot, rest: seq<Lot>)
    requires i < |work| && result == work[..i] + ([lot] + rest)
    ensures result == work[i := lot][..i + 1] + rest
    ensures work[i := lot][i + 1..] == work[i + 1..]
  {
    assert work[i := lot][..i + 1] == work[..i] + [lot];
  }

  lemma {:induction false} DepleteStep(result: seq<Lot>, lots: seq<Lot>, work: seq<Lot>, i: nat, remaining: int,
      session: int, consumed: int, lot: Lot)
    requires i < |work| == |lots| && remaining != 0 && work[i..] == lots[i..]
    requires result == work[..i] + Deplete(lots[i..], remaining, session)
    requires consumed == if work[i].acquired < session then Min(work[i].quantity, remaining) else 0
    requires lot == if work[i].acquired < session then Lot(work[i].quantity - consumed, work[i].acquired) else work[i]
    ensures work[i := lot][i + 1..] == lots[i + 1..]
    ensures result == work[i := lot][..i + 1] + Deplete(lots[i + 1..], remaining - consumed, session)
  {
    TailsAgree(work, lots, i);
    DepleteUnrolls(lots, i, remaining, session);
    Overwritten(result, work, i, lot, Deplete(lots[i + 1..], remaining - consumed, session));
  }

  /** The lots are overwritten one after the other until nothing remains. */
  method DepleteInPlace(lots: seq<Lot>, quantity: int, session: int) returns (work: seq<Lot>)
    ensures work == Deplete(lots, quantity, session)
  {
    work := lots;
    var remaining := quantity;
    var i := 0;
    ghost var result := Deplete(lots, quantity, session);
    assert lots[0..] == lots;
    while i < |work| && remaining != 0
      invariant 0 <= i <= |work| == |lots|
      invariant work[i..] == lots[i..]
      invariant result == work[..i] + Deplete(lots[i..], remaining, session)
    {
      var consumed := if work[i].acquired < session then Min(work[i].quantity, remaining) else 0;
      var lot := if work[i].acquired < session then Lot(work[i].quantity - consumed, work[i].acquired) else work[i];
      DepleteStep(result, lots, work, i, remaining, session, consumed, lot);
      work := work[i := lot];
      remaining := remaining - consumed;
      i := i + 1;
    }
    assert work[..i] + lots[i..] == work;
  }

  lemma {:induction false} TailsAgree(work: seq<Lot>, lots: seq<Lot>, i: nat)
    requires i < |work| == |lots| && work[i..] == lots[i..]
    ensures work[i] == lots[i] && work[i + 1..] == lots[i + 1..]
  {
    assert work[i] == work[i..][0] && lots[i] == lots[i..][0];
    assert work[i + 1..] == work[i..][1..] && lots[i + 1..] == lots[i..][1..];
  }

  method DropEmpty(work: seq<Lot>) returns (kept: seq<Lot>)
    ensures kept == Retain(work)
  {
    kept := [];
    for k := 0 to |work|
      invariant Retain(work) == kept + Retain(work[k..])
    {
      if work[k].quantity != 0 { kept := kept + [work[k]]; }
    }
  }

  method ConsumeEligibleLots(lots: seq<Lot>, quantity: int, session: int) returns (r: Result<seq<Lot>>)
    ensures r == Consume(lots, quantity, session)
  {
    var eligible := SumEligible(lots, session);
    if eligible.Err? { return Err(eligible.error); }
    if eligible.value < quantity { return Err(InsufficientEligible); }
    var work := DepleteInPlace(lots, quantity, session);
    var kept := DropEmpty(work);
    return Ok(kept);
  }

  // ---- the lots as a queue of single shares, each with its purchase session ----

  function Copies(x: int, n: nat): seq<int> {
    if n == 0 then [] else [x] + Copies(x, n - 1)
  }

  function Shares(lots: seq<Lot>): seq<int> {
    if lots == [] then []
    else Copies(lots[0].acquired, if lots[0].quantity > 0 then lots[0].quantity else 0) + Shares(lots[1..])
  }

  /** Lots hold shares and are in the order of purchase, none after `session`. */
  ghost predicate WellFormed(lots: seq<Lot>, session: int) {
    && (forall i :: 0 <= i < |lots| ==> lots[i].quantity > 0 && lots[i].acquired <= session)
    && (forall i, j :: 0 <= i < j < |lots| ==> lots[i].acquired <= lots[j].acquired)
  }

  lemma {:induction false} CopiesAre(x: int, n: nat)
    ensures |Copies(x, n)| == n
    ensures forall k :: 0 <= k < n ==> Copies(x, n)[k] == x
  {
    if n > 0 { CopiesAre(x, n - 1); }
  }

  lemma {:induction false} CopiesSplit(x: int, n: nat, k: nat)
    requires k <= n
    ensures |Copies(x, n)| == n
    ensures Copies(x, n)[k..] == Copies(x, n - k)
  {
    CopiesAre(x, n);
    CopiesAre(x, n - k);
  }

  lemma {:induction false} WellFormedTail(lots: seq<Lot>, session: int)
    requires WellFormed(lots, session) && lots != []
    ensures WellFormed(lots[1..], session)
    ensures forall i :: 0 <= i < |lots[1..]| ==> lots[1..][i].acquired >= lots[0].acquired
  {
  }

  /** For lots that hold shares the checked sums are the exact sums. */
  lemma {:induction false} ChecksAreExact(lots: seq<Lot>, session: int, bound: int, start: int)
    requires WellFormed(lots, bound)
    requires InI128(start)
    ensures 0 <= Eligible(lots, session) <= Total(lots) == |Shares(lots)|
    ensures CheckedTotal(lots, start) == Exact(start + Total(lots))
    ensures CheckedEligible(lots, session, start) == Exact(start + Eligible(lots, session))
  {
    if lots != [] {
      WellFormedTail(lots, bound);
      CopiesAre(lots[0].acquired, lots[0].quantity);
      ChecksAreExact(lots[1..], session, bound, start);
      var next := start + lots[0].quantity;
      if InI128(next) {
        ChecksAreExact(lots[1..], session, bound, next);
      }
    }
  }

  /** A prefix of the queue is eligible: exactly the shares of earlier sessions. */
  lemma {:induction false} EligiblePrefix(lots: seq<Lot>, session: int, bound: int)
    requires WellFormed(lots, bound)
    ensures 0 <= Eligible(lots, session) <= |Shares(lots)|
    ensures forall k :: 0 <= k < |Shares(lots)| ==>
              (Shares(lots)[k] < session <==> k < Eligible(lots, session))
  {
    if lots != [] {
      WellFormedTail(lots, bound);
      CopiesAre(lots[0].acquired, lots[0].quantity);
      EligiblePrefix(lots[1..], session, bound);
      if lots[0].acquired >= session {
        NothingEligible(lots[1..], session);
      }
    }
  }

  lemma {:induction false} NothingEligible(lots: seq<Lot>, session: int)
    requires forall i :: 0 <= i < |lots| ==> lots[i].acquired >= session
    ensures Eligible(lots, session) == 0
  {
    if lots != [] {
      assert forall i :: 0 <= i < |lots[1..]| ==> lots[1..][i] == lots[i + 1];
      NothingEligible(lots[1..], session);
    }
  }

  ghost predicate NotBefore(lots: seq<Lot>, session: int) {
    forall i :: 0 <= i < |lots| ==> lots[i].acquired >= session
  }

  /** As `WellFormed`, but emptied lots may still be there. */
  ghost predicate Depleted(lots: seq<Lot>, bound: int) {
    && (forall i :: 0 <= i < |lots| ==> lots[i].quantity >= 0 && lots[i].acquired <= bound)
    && (forall i, j :: 0 <= i < j < |lots| ==> lots[i].acquired <= lots[j].acquired)
  }

  lemma {:induction false} RetainKeepsOrder(lots: seq<Lot>, bound: int, first: int)
    requires Depleted(lots, bound) && NotBefore(lots, first)
    ensures WellFormed(Retain(lots), bound) && NotBefore(Retain(lots), first)
  {
    if lots != [] {
      RetainKeepsOrder(lots[1..], bound, lots[0].acquired);
    }
  }

  lemma {:induction false} RetainKeepsShares(lots: seq<Lot>, session: int)
    ensures Shares(Retain(lots)) == Shares(lots)
    ensures Total(Retain(lots)) == Total(lots)
    ensures Eligible(Retain(lots), session) == Eligible(lots, session)
  {
    if lots != [] {
      RetainKeepsShares(lots[1..], session);
      if lots[0].quantity != 0 {
        assert ([lots[0]] + Retain(lots[1..]))[1..] == Retain(lots[1..]);
      }
    }
  }

  lemma {:induction false} DepleteKeepsOrder(lots: seq<Lot>, quantity: int, session: int, bound: int)
    requires WellFormed(lots, bound) && quantity >= 0
    ensures |Deplete(lots, quantity, session)| == |lots|
    ensures forall i :: 0 <= i < |lots| ==>
              var after := Deplete(lots, quantity, session)[i];
              after.acquired == lots[i].acquired && 0 <= after.quantity
    ensures Depleted(Deplete(lots, quantity, session), bound)
  {
    if lots != [] && quantity != 0 {
      WellFormedTail(lots, bound);
      var consumed := if lots[0].acquired < session then Min(lots[0].quantity, quantity) else 0;
      DepleteKeepsOrder(lots[1..], quantity - consumed, session, bound);
    }
  }

  lemma {:induction false} DropConcat(a: seq<int>, b: seq<int>, k: nat)
    requires k <= |a| + |b|
    ensures k <= |a| ==> (a + b)[k..] == a[k..] + b
    ensures k >= |a| ==> (a + b)[k..] == b[k - |a|..]
  {
  }

  lemma {:induction false} DepleteDropsOldest(lots: seq<Lot>, quantity: int, session: int, bound: int)
    requires WellFormed(lots, bound)
    requires 0 <= quantity <= Eligible(lots, session)
    ensures Eligible(lots, session) <= |Shares(lots)|
    ensures Shares(Deplete(lots, quantity, session)) == Shares(lots)[quantity..]
    ensures Total(Deplete(lots, quantity, session)) == Total(lots) - quantity
    ensures Eligible(Deplete(lots, quantity, session), session) == Eligible(lots, session) - quantity
  {
    EligiblePrefix(lots, session, bound);
    if quantity != 0 && lots != [] {
      var head, tail := lots[0], lots[1..];
      WellFormedTail(lots, bound);
      if head.acquired >= session {
        NothingEligible(lots, session);
      } else {
        var consumed := Min(head.quantity, quantity);
        EligiblePrefix(tail, session, bound);
        DepleteDropsOldest(tail, quantity - consumed, session, bound);
        var rest := Deplete(tail, quantity - consumed, session);
        var after := [Lot(head.quantity - consumed, head.acquired)] + rest;
        assert after[1..] == rest;
        CopiesSplit(head.acquired, head.quantity, consumed);
        DropConcat(Copies(head.acquired, head.quantity), Shares(tail), quantity);
      }
    }
  }

  /** What a sale of eligible shares leaves behind. */
  lemma {:induction false} SaleLeaves(lots: seq<Lot>, quantity: int, session: int, bound: int)
    requires WellFormed(lots, bound)
    requires 0 < quantity <= Eligible(lots, session)
    ensures Eligible(lots, session) <= |Shares(lots)|
    ensures var left := Retain(Deplete(lots, quantity, session));
            && WellFormed(left, bound)
            && Shares(left) == Shares(lots)[quantity..]
            && Eligible(left, session) == Eligible(lots, session) - quantity
            && Total(left) == Total(lots) - quantity
  {
    DepleteDropsOldest(lots, quantity, session, bound);
    DepleteKeepsOrder(lots, quantity, session, bound);
    RetainKeepsShares(Deplete(lots, quantity, session), session);
    RetainKeepsOrder(Deplete(lots, quantity, session), bound, lots[0].acquired);
  }

  /** A sale succeeds exactly when the lots hold that many eligible shares. */
  lemma {:induction false} ConsumeSucceeds(lots: seq<Lot>, quantity: int, session: int, bound: int)
    requires WellFormed(lots, bound) && InI128(Total(lots))
    ensures Consume(lots, quantity, session) ==
            if quantity <= Eligible(lots, session) then Ok(Retain(Deplete(lots, quantity, session)))
            else Err(InsufficientEligible)
  {
    ChecksAreExact(lots, session, bound, 0);
  }

  /** The queue form of a sale: it succeeds exactly when that many shares of
      earlier sessions are held, and then drops them from the front. */
  lemma {:induction false} ConsumeIsFifo(lots: seq<Lot>, quantity: int, session: int, bound: int)
    requires WellFormed(lots, bound) && InI128(Total(lots)) && 0 < quantity
    ensures Consume(lots, quantity, session).Ok? <==>
              quantity <= |Shares(lots)| && Shares(lots)[quantity - 1] < session
    ensures Consume(lots, quantity, session).Ok? ==>
              Shares(Consume(lots, quantity, session).value) == Shares(lots)[quantity..]
  {
    ConsumeSucceeds(lots, quantity, session, bound);
    EligiblePrefix(lots, session, bound);
    if quantity <= Eligible(lots, session) {
      SaleLeaves(lots, quantity, session, bound);
    }
  }

  lemma {:induction false} AppendLot(lots: seq<Lot>, quantity: int, session: int)
    requires WellFormed(lots, session) && quantity > 0
    ensures var more := lots + [Lot(quantity, session)];
            && WellFormed(more, session)
            && Total(more) == Total(lots) + quantity
            && Eligible(more, session) == Eligible(lots, session)
            && Shares(more) == Shares(lots) + Copies(session, quantity)
  {
    AppendAmounts(lots, quantity, session);
    AppendShares(lots, quantity, session);
  }

  lemma {:induction false} AppendAmounts(lots: seq<Lot>, quantity: int, session: int)
    ensures Total(lots + [Lot(quantity, session)]) == Total(lots) + quantity
    ensures Eligible(lots + [Lot(quantity, session)], session) == Eligible(lots, session)
  {
    var more := lots + [Lot(quantity, session)];
    if lots == [] {
      assert more == [Lot(quantity, session)];
    } else {
      assert more[1..] == lots[1..] + [Lot(quantity, session)];
      AppendAmounts(lots[1..], quantity, session);
    }
  }

  lemma {:induction false} AppendShares(lots: seq<Lot>, quantity: int, session: int)
    requires quantity > 0
    ensures Shares(lots + [Lot(quantity, session)]) == Shares(lots) + Copies(session, quantity)
  {
    var more := lots + [Lot(quantity, session)];
    if lots == [] {
      assert more == [Lot(quantity, session)];
      assert Shares(more) == Copies(session, quantity) + Shares([]);
    } else {
      var first := Copies(lots[0].acquired, if lots[0].quantity > 0 then lots[0].quantity else 0);
      assert more[1..] == lots[1..] + [Lot(quantity, session)];
      AppendShares(lots[1..], quantity, session);
      assert first + (Shares(lots[1..]) + Copies(session, quantity))
             == (first + Shares(lots[1..])) + Copies(session, quantity);
    }
  }

  /** When a new session begins, everything held becomes eligible. */
  lemma {:induction false} AllEligibleLater(lots: seq<Lot>, session: int, later: int)
    requires WellFormed(lots, session) && session < later
    ensures WellFormed(lots, later)
    ensures Eligible(lots, later) == Total(lots)
  {
    if lots != [] {
      WellFormedTail(lots, session);
      AllEligibleLater(lots[1..], session, later);
    }
  }
}
