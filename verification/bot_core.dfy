/** Optional values, as Rust's `Option`. */
module Wrappers {
  datatype Option<+T> = None | Some(value: T)
}

/**
 * The boundary of the `bot_core` crate as the two strategies see it: identifiers,
 * money values, instrument metadata, events, commands and the strategy context.
 * The crate's helper functions (price/quantity rounding, significant-figure trimming,
 * the quote mid, market projections) are held as function-valued fields, so every
 * statement of this model holds whatever those helpers compute.
 */
module BotCore {
  import opened Wrappers

  /** A fixed-point decimal, written as an integer count of the smallest unit. */
  type Decimal = int

  datatype Price = Price(value: Decimal)
  datatype Qty = Qty(value: Decimal)

  type ClientOrderId = nat
  type StrategyId = string
  type InstrumentId = string
  /** Milliseconds since the epoch (an `i64` in the source). */
  type TimestampMs = int
  type TimerId = nat

  datatype Environment = Mainnet | Testnet
  datatype ExchangeInstance = ExchangeInstance(exchange: string, environment: Environment)

  /** A market selection: it names its exchange instance per environment and its instrument. */
  datatype Market = Market(exchangeInstance: Environment -> ExchangeInstance, instrumentId: InstrumentId)

  datatype OrderSide = Buy | Sell

  /** Per-instrument normalisation: round to tick, round to lot, truncate to lot. */
  datatype InstrumentMeta = InstrumentMeta(
    roundPrice: Price -> Price,
    roundQty: Qty -> Qty,
    truncQty: Qty -> Qty)

  datatype Quote = Quote(bid: Price, ask: Price)

  /** The price helpers of `bot_core` used without instrument metadata. */
  datatype PriceHelpers = PriceHelpers(
    trimToSigFigs: (Price, nat) -> Price,
    mid: Quote -> Price)

  datatype ExchangeHealth = Active | Halted

  /** The inbound events a strategy receives. */
  datatype Event =
    | QuoteUpdate(quote: Quote)
    | FundingRate(rate: Decimal)
    | OrderAccepted(acceptedId: ClientOrderId)
    | OrderFilled(filledId: ClientOrderId, side: OrderSide, price: Price, qty: Qty)
    | OrderCompleted(completedId: ClientOrderId, filledQty: Qty, avgFillPx: Option<Price>)
    | OrderCanceled(canceledId: ClientOrderId)
    | OrderRejected(rejectedId: ClientOrderId, reason: string)
    | ExchangeStateChanged(oldState: ExchangeHealth, newState: ExchangeHealth, why: string)

  /** The events that end an order: completion, cancellation, rejection. */
  predicate Terminal(event: Event)
  {
    event.OrderCompleted? || event.OrderCanceled? || event.OrderRejected?
  }

  /** A limit order as built by `PlaceOrder::limit`. */
  datatype LimitOrder = LimitOrder(
    exchange: ExchangeInstance,
    instrument: InstrumentId,
    side: OrderSide,
    price: Price,
    qty: Qty,
    clientId: ClientOrderId)

  /** The outbound commands a strategy emits through its context. */
  datatype Command =
    | Place(order: LimitOrder)
    | CancelAll(exchange: ExchangeInstance, instrument: Option<InstrumentId>)
    | StopStrategy(strategyId: StrategyId, reason: string)

  /**
   * The strategy context: the read-only query surface a strategy sees (instrument
   * metadata, the deterministic clock) and the recorder of the commands it emits.
   * Client ids are drawn from a counter, so each one is issued at most once.
   */
  class Context {
    var instruments: map<InstrumentId, InstrumentMeta>
    var nowMs: TimestampMs
    var commands: seq<Command>
    var nextId: ClientOrderId

    /** Every placed order carries an issued id, and ids grow along the log (so none repeats). */
    ghost predicate Valid()
      reads this
    {
      (forall i :: 0 <= i < |commands| && commands[i].Place? ==> commands[i].order.clientId < nextId) &&
      (forall i, j :: 0 <= i < j < |commands| && commands[i].Place? && commands[j].Place? ==>
         commands[i].order.clientId < commands[j].order.clientId)
    }

    constructor (instruments: map<InstrumentId, InstrumentMeta>, nowMs: TimestampMs)
      ensures Valid()
      ensures this.instruments == instruments && this.nowMs == nowMs
      ensures commands == [] && nextId == 0
    {
      this.instruments := instruments;
      this.nowMs := nowMs;
      commands := [];
      nextId := 0;
    }

    function InstrumentMetaOf(instrument: InstrumentId): (r: Option<InstrumentMeta>)
      reads this
      ensures r.Some? <==> instrument in instruments
    {
      if instrument in instruments then Some(instruments[instrument]) else None
    }

    /** `PlaceOrder::limit`: a limit order under a client id never issued before. */
    method NewLimitOrder(exchange: ExchangeInstance, instrument: InstrumentId, side: OrderSide, price: Price, qty: Qty)
      returns (order: LimitOrder)
      requires Valid()
      modifies this`nextId
      ensures Valid()
      ensures order == LimitOrder(exchange, instrument, side, price, qty, old(nextId))
      ensures nextId == old(nextId) + 1
    {
      order := LimitOrder(exchange, instrument, side, price, qty, nextId);
      nextId := nextId + 1;
    }

    /** Records `order`, whose id must be issued and newer than every id placed so far. */
    method PlaceOrder(order: LimitOrder)
      requires Valid()
      requires order.clientId < nextId
      requires forall i :: 0 <= i < |commands| && commands[i].Place? ==> commands[i].order.clientId < order.clientId
      modifies this`commands
      ensures Valid()
      ensures commands == old(commands) + [Place(order)]
    {
      commands := commands + [Place(order)];
    }

    method CancelAll(exchange: ExchangeInstance)
      requires Valid()
      modifies this`commands
      ensures Valid()
      ensures commands == old(commands) + [Command.CancelAll(exchange, None)]
    {
      commands := commands + [Command.CancelAll(exchange, None)];
    }

    method StopStrategy(strategyId: StrategyId, reason: string)
      requires Valid()
      modifies this`commands
      ensures Valid()
      ensures commands == old(commands) + [Command.StopStrategy(strategyId, reason)]
    {
      commands := commands + [Command.StopStrategy(strategyId, reason)];
    }
  }
}
