/** Runtime state of the strategy template (templates/strategy-template/src/state.rs). */
module TemplateStateDef {
  import opened Wrappers
  import opened BotCore

  datatype MyState = MyState(
    isInitialized: bool,              // `on_start` completed its checks
    lastMid: Option<Price>,           // last observed mid price
    activeOrder: Option<ClientOrderId>,
    lastLogTs: TimestampMs)           // time of the last periodic status log

  /** `MyState::new`: not initialised, nothing observed, no order, never logged. */
  function NewMyState(): (s: MyState)
    ensures !s.isInitialized && s.lastMid == None && s.activeOrder == None && s.lastLogTs == 0
  {
    MyState(false, None, None, 0)
  }

  /** `Default::default` for `MyState`. */
  function DefaultMyState(): (s: MyState)
    ensures s == NewMyState()
  {
    NewMyState()
  }
}
