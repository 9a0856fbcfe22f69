/** Names shared by both engines. Identifiers, symbols and timestamps are opaque;
    only their equality and, for symbols, their order is used. */
module Events {
  type Id = int
  type Symbol = int

  datatype Side = Buy | Sell

  datatype Effect = Open | Close

  datatype Phase = AtOpen | Intrabar | AtClose

  function PhaseRank(phase: Phase): int {
    match phase
    case AtOpen => 0
    case Intrabar => 1
    case AtClose => 2
  }

  datatype EventKey = EventKey(session: nat, phase: Phase, stable: nat)

  /** Session first, then phase, then the stable sequence number. */
  predicate KeyBefore(a: EventKey, b: EventKey) {
    || a.session < b.session
    || (a.session == b.session && PhaseRank(a.phase) < PhaseRank(b.phase))
    || (a.session == b.session && a.phase == b.phase && a.stable < b.stable)
  }
}
