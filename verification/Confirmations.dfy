/** Which way a deposit moves for a confirmation count (watcher/src/deposits/confirmation-tracker.ts). */
module Confirmations {
  import opened Coins

  /** Later: everything from MINT_AUTH_CREATED on, and FAILED; the watcher's block handlers never touch those. */
  datatype InboundState = AddressAssigned | SeenMempool | Confirmed | Finalized | Later

  datatype Config = Config(minConfirmations: nat, finalConfirmations: nat)

  /** The edges of the inbound state machine between the states the watcher drives. */
  predicate CanTransition(from: InboundState, next: InboundState) {
    match from
    case AddressAssigned => next.SeenMempool?
    case SeenMempool => next.Confirmed?
    case Confirmed => next.Finalized? || next.SeenMempool?
    case _ => false
  }

  function ComputeConfirmationTransition(state: InboundState, confirmations: int, config: Config): Option<InboundState> {
    if confirmations == 0 then
      if state.AddressAssigned? then Some(SeenMempool) else None
    else if confirmations >= config.finalConfirmations then
      if state.Confirmed? || state.SeenMempool? || state.AddressAssigned? then Some(Finalized) else None
    else if confirmations >= config.minConfirmations then
      if state.SeenMempool? || state.AddressAssigned? then Some(Confirmed) else None
    else if state.AddressAssigned? then Some(SeenMempool)
    else None
  }

  function ComputeReorgRollback(state: InboundState, newConfirmations: int, config: Config): Option<InboundState> {
    if state.Confirmed? && newConfirmations < config.minConfirmations then Some(SeenMempool) else None
  }

  /** The states an order walks through to reach the target: one edge a step. */
  function Route(state: InboundState, target: InboundState): seq<InboundState> {
    (if state.SeenMempool? && target.Finalized? then [Confirmed] else []) + [target]
  }

  predicate ValidRoute(state: InboundState, route: seq<InboundState>)
    decreases route
  {
    route == [] || (CanTransition(state, route[0]) && ValidRoute(route[0], route[1..]))
  }

  /** The order's state after the count was looked at. */
  function Moved(state: InboundState, confirmations: int, config: Config): InboundState {
    var target := ComputeConfirmationTransition(state, confirmations, config);
    if target.Some? then target.value else state
  }

  function Lower(a: int, b: int): int { if a < b then a else b }

  /** What the count of a deposit already seen in a block can do: every step is an edge, and no step comes early. */
  lemma MovesAreEarned(state: InboundState, confirmations: int, config: Config)
    requires (state.SeenMempool? || state.Confirmed?) && confirmations >= 1
    ensures var target := ComputeConfirmationTransition(state, confirmations, config);
      && (target.Some? ==> ValidRoute(state, Route(state, target.value)))
      && (Moved(state, confirmations, config).Finalized? <==> confirmations >= config.finalConfirmations)
      && (Moved(state, confirmations, config).Confirmed? && state.SeenMempool? ==> confirmations >= config.minConfirmations)
      && (target.Some? && Confirmed in Route(state, target.value) ==> confirmations >= Lower(config.minConfirmations, config.finalConfirmations))
      // Looking again at the same count changes nothing.
      && (Moved(state, confirmations, config).Finalized? || ComputeConfirmationTransition(Moved(state, confirmations, config), confirmations, config).None?)
  {
    var target := ComputeConfirmationTransition(state, confirmations, config);
    if target.Some? {
      var route := Route(state, target.value);
      assert route == if state.SeenMempool? && target.value.Finalized? then [Confirmed, Finalized] else [target.value];
      assert route[1..] == (if |route| == 2 then [Finalized] else []) && (|route| == 2 ==> route[1..][1..] == []);
    }
  }
}
