/** Lots read as a queue of single shares: opens join its end, closes take its oldest
    shares, which were opened in an earlier session. */
module ShareQueue {
  import opened Lots

  /** The lots a fill works on, after it. */
  function LotsFilled(held: seq<Lot>, opens: bool, quantity: int, session: int): seq<Lot> {
    if opens then held + [Lot(quantity, session)] else Retain(Deplete(held, quantity, session))
  }

  lemma {:induction false} FilledLotsAre(held: seq<Lot>, opens: bool, quantity: int, session: int)
    requires WellFormed(held, session) && quantity > 0
    requires !opens ==> quantity <= Eligible(held, session)
    ensures var after := LotsFilled(held, opens, quantity, session);
            && WellFormed(after, session)
            && Total(after) == Total(held) + (if opens then quantity else -quantity)
            && Eligible(after, session) == Eligible(held, session) - (if opens then 0 else quantity)
  {
    if opens {
      AppendLot(held, quantity, session);
    } else {
      SaleLeaves(held, quantity, session, session);
    }
  }

  /** The lots are what is left of a queue after its first `taken` shares. */
  ghost predicate LeftOf(held: seq<Lot>, queue: seq<int>, taken: int) {
    0 <= taken <= |queue| && Shares(held) == queue[taken..]
  }

  /** The shares from `taken` on are there, and from an earlier session. */
  ghost predicate TakesFrom(queue: seq<int>, taken: int, quantity: int, session: int) {
    && 0 <= taken && 0 < quantity && taken + quantity <= |queue|
    && forall k :: taken <= k < taken + quantity ==> queue[k] < session
  }

  lemma {:induction false} QueueStep(held: seq<Lot>, queue: seq<int>, taken: int, opens: bool, quantity: int,
      session: int)
    requires WellFormed(held, session) && LeftOf(held, queue, taken) && quantity > 0
    requires !opens ==> quantity <= Eligible(held, session)
    ensures opens ==> LeftOf(LotsFilled(held, opens, quantity, session), queue + Copies(session, quantity), taken)
    ensures !opens ==>
              LeftOf(LotsFilled(held, opens, quantity, session), queue, taken + quantity)
              && TakesFrom(queue, taken, quantity, session)
  {
    if opens {
      AppendLot(held, quantity, session);
      DropConcat(queue, Copies(session, quantity), taken);
    } else {
      SaleLeaves(held, quantity, session, session);
      EligiblePrefix(held, session, session);
      assert queue[taken..][quantity..] == queue[taken + quantity..];
      forall k | taken <= k < taken + quantity
        ensures queue[k] < session
      {
        assert queue[k] == Shares(held)[k - taken];
      }
    }
  }
}
