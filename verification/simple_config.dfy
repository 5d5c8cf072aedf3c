/** Parameters of the buy-low/sell-high strategy (examples/strategy-simple/src/config.rs). */
module SimpleConfigDef {
  import opened BotCore

  datatype SimpleConfig = SimpleConfig(
    strategyId: StrategyId,
    environment: Environment,
    market: Market,
    buyPrice: Decimal,   // limit price of the buy order
    sellPrice: Decimal,  // limit price of the sell (take-profit) order
    orderSize: Decimal)  // order quantity in the base asset

  const PriceOrderError := "buy_price must be < sell_price"
  const SizeError := "order_size must be > 0"

  /** The configuration's rule violations, price rule first; empty exactly when it is usable. */
  function Validate(config: SimpleConfig): (errors: seq<string>)
    ensures errors == [] <==> config.buyPrice < config.sellPrice && config.orderSize > 0
    ensures PriceOrderError in errors <==> config.buyPrice >= config.sellPrice
    ensures SizeError in errors <==> config.orderSize <= 0
    ensures |errors| == (if config.buyPrice >= config.sellPrice then 1 else 0) + (if config.orderSize <= 0 then 1 else 0)
    ensures |errors| == 2 ==> errors == [PriceOrderError, SizeError]
    ensures forall e :: e in errors ==> e != ""
  {
    (if config.buyPrice >= config.sellPrice then [PriceOrderError] else []) +
    (if config.orderSize <= 0 then [SizeError] else [])
  }
}
