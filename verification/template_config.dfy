/** Parameters of the strategy template (templates/strategy-template/src/config.rs). */
module TemplateConfigDef {
  import opened BotCore

  datatype MyConfig = MyConfig(
    strategyId: StrategyId,
    environment: Environment,
    market: Market,
    orderSize: Decimal)  // order size in the base asset

  const SizeError := "order_size must be > 0"

  /** The configuration's rule violations; empty exactly when it is usable. */
  function Validate(config: MyConfig): (errors: seq<string>)
    ensures errors == [] <==> config.orderSize > 0
    ensures |errors| <= 1
    ensures errors != [] ==> errors == [SizeError]
  {
    if config.orderSize <= 0 then [SizeError] else []
  }
}
