/** Runtime state of the buy-low/sell-high strategy (examples/strategy-simple/src/state.rs). */
module SimpleStateDef {
  import opened Wrappers
  import opened BotCore

  /** Which phase of the buy/sell cycle the strategy is in. */
  datatype Phase =
    | WaitingToBuy   // no position, no order
    | BuyPlaced      // buy order placed, waiting for its fill
    | WaitingToSell  // holding the position
    | SellPlaced     // sell order placed, waiting for its fill

  datatype SimpleState = SimpleState(phase: Phase, activeOrder: Option<ClientOrderId>)

  /** `SimpleState::new`: waiting to buy, no order in flight. */
  function NewSimpleState(): (s: SimpleState)
    ensures s.phase == WaitingToBuy && s.activeOrder == None
  {
    SimpleState(WaitingToBuy, None)
  }
}
