/**
 * The buy-low/sell-high strategy (examples/strategy-simple/src/strategy.rs): one limit
 * order in flight at a time, a buy at `buyPrice`, then a sell at `sellPrice`, and again.
 */
module SimpleStrategyDef {
  import opened Wrappers
  import opened BotCore
  import opened Text
  import opened SimpleStateDef
  import opened SimpleConfigDef

  const InstrumentNotFound := "Instrument not found"

  /** The stop reason `on_start` emits, or None when it goes on to place the first buy. */
  function StartVerdict(config: SimpleConfig, meta: Option<InstrumentMeta>): (stop: Option<string>)
    ensures stop == None <==> meta.Some? && config.buyPrice < config.sellPrice && config.orderSize > 0
    ensures meta.None? ==> stop == Some(InstrumentNotFound)
    ensures meta.Some? && config.buyPrice >= config.sellPrice && config.orderSize > 0 ==> stop == Some(PriceOrderError)
    ensures meta.Some? && config.buyPrice < config.sellPrice && config.orderSize <= 0 ==> stop == Some(SizeError)
    ensures meta.Some? && config.buyPrice >= config.sellPrice && config.orderSize <= 0 ==>
      stop == Some(PriceOrderError + "; " + SizeError)
  {
    if meta.None? then Some(InstrumentNotFound)
    else
      var errors := Validate(config);
      if errors != [] then Some(Join(errors, "; ")) else None
  }

  /** The order `on_event` places in reply to `event` while in `phase`, if any. */
  function Reaction(phase: Phase, event: Event): Option<OrderSide>
  {
    match event
    case OrderCompleted(_, _, _) =>
      if phase == BuyPlaced then Some(Sell)
      else if phase == SellPlaced then Some(Buy)
      else None
    case OrderCanceled(_) => Some(Buy)
    case OrderRejected(_, _) => Some(Buy)
    case _ => None
  }

  /** The phase that placing an order on `side` leads to. */
  function PlacedPhase(side: OrderSide): Phase
  {
    if side == Buy then BuyPlaced else SellPlaced
  }

  /** The phase after `on_event` handles `event`. */
  function NextPhase(phase: Phase, event: Event): Phase
  {
    match Reaction(phase, event)
    case None => phase
    case Some(side) => PlacedPhase(side)
  }

  /** The limit order `place_buy` / `place_sell` builds: buys round the quantity, sells truncate it. */
  function OrderFor(config: SimpleConfig, meta: InstrumentMeta, side: OrderSide, id: ClientOrderId): (order: LimitOrder)
    ensures order.side == side && order.clientId == id
    ensures order.exchange == config.market.exchangeInstance(config.environment)
    ensures order.instrument == config.market.instrumentId
    ensures side == Buy ==> order.price == meta.roundPrice(Price(config.buyPrice)) && order.qty == meta.roundQty(Qty(config.orderSize))
    ensures side == Sell ==> order.price == meta.roundPrice(Price(config.sellPrice)) && order.qty == meta.truncQty(Qty(config.orderSize))
  {
    var limit := if side == Buy then config.buyPrice else config.sellPrice;
    var qty := if side == Buy then meta.roundQty(Qty(config.orderSize)) else meta.truncQty(Qty(config.orderSize));
    LimitOrder(config.market.exchangeInstance(config.environment), config.market.instrumentId, side,
               meta.roundPrice(Price(limit)), qty, id)
  }

  /** Phases a started strategy can be in: `WaitingToSell` is never entered, and an order is
      in flight exactly when the strategy is not waiting to buy. */
  ghost predicate Consistent(s: SimpleState)
  {
    s.phase != WaitingToSell && (s.phase == WaitingToBuy <==> s.activeOrder == None)
  }

  /** The phase after handling `events` one by one. */
  function RunPhase(phase: Phase, events: seq<Event>): Phase
    decreases |events|
  {
    if events == [] then phase else RunPhase(NextPhase(phase, events[0]), events[1..])
  }

  /** The sides of the orders placed while handling `events` one by one. */
  function Placements(phase: Phase, events: seq<Event>): seq<OrderSide>
    decreases |events|
  {
    if events == [] then []
    else
      var rest := Placements(NextPhase(phase, events[0]), events[1..]);
      match Reaction(phase, events[0])
      case None => rest
      case Some(side) => [side] + rest
  }

  /** A completion's client id plays no part: only the phase decides. */
  lemma CompletionIgnoresClientId(phase: Phase, a: Event, b: Event)
    requires a.OrderCompleted? && b.OrderCompleted?
    ensures Reaction(phase, a) == Reaction(phase, b) && NextPhase(phase, a) == NextPhase(phase, b)
  {
  }

  /** Each step keeps the started phases closed. */
  lemma NextPhaseStaysPlaced(phase: Phase, event: Event)
    requires phase == BuyPlaced || phase == SellPlaced
    ensures NextPhase(phase, event) == BuyPlaced || NextPhase(phase, event) == SellPlaced
  {
  }

  /** Once started (a buy or a sell in flight), every run of events stays in the two placed phases. */
  lemma {:induction false} RunStaysPlaced(phase: Phase, events: seq<Event>)
    requires phase == BuyPlaced || phase == SellPlaced
    ensures RunPhase(phase, events) == BuyPlaced || RunPhase(phase, events) == SellPlaced
    decreases |events|
  {
    if events != [] {
      NextPhaseStaysPlaced(phase, events[0]);
      RunStaysPlaced(NextPhase(phase, events[0]), events[1..]);
    }
  }

  /** `WaitingToSell` is never assigned: no run of events reaches it from another phase. */
  lemma {:induction false} NeverWaitingToSell(phase: Phase, events: seq<Event>)
    requires phase != WaitingToSell
    ensures RunPhase(phase, events) != WaitingToSell
    decreases |events|
  {
    if events != [] {
      NeverWaitingToSell(NextPhase(phase, events[0]), events[1..]);
    }
  }

  function CountTerminal(events: seq<Event>): nat
  {
    if events == [] then 0 else (if Terminal(events[0]) then 1 else 0) + CountTerminal(events[1..])
  }

  /** In a started run exactly one order is placed per terminal event, and none otherwise. */
  lemma {:induction false} OnePlacementPerTerminalEvent(phase: Phase, events: seq<Event>)
    requires phase == BuyPlaced || phase == SellPlaced
    ensures |Placements(phase, events)| == CountTerminal(events)
    decreases |events|
  {
    if events != [] {
      NextPhaseStaysPlaced(phase, events[0]);
      OnePlacementPerTerminalEvent(NextPhase(phase, events[0]), events[1..]);
    }
  }

  /** A run of completions alternates: from `BuyPlaced` it places sell, buy, sell, ... */
  lemma {:induction false} CompletionsAlternate(phase: Phase, events: seq<Event>, k: nat)
    requires phase == BuyPlaced || phase == SellPlaced
    requires forall i :: 0 <= i < |events| ==> events[i].OrderCompleted?
    requires k < |events|
    ensures |Placements(phase, events)| == |events|
    ensures Placements(phase, events)[k] == (if (k % 2 == 0) == (phase == BuyPlaced) then Sell else Buy)
    decreases |events|
  {
    var next := NextPhase(phase, events[0]);
    assert next == (if phase == BuyPlaced then SellPlaced else BuyPlaced);
    if k == 0 {
      if |events| > 1 {
        CompletionsAlternate(next, events[1..], 0);
      }
    } else {
      CompletionsAlternate(next, events[1..], k - 1);
    }
  }

  /** The strategy object: its configuration, its state and the metadata `on_start` loads. */
  class SimpleStrategy {
    const config: SimpleConfig
    var state: SimpleState
    var meta: Option<InstrumentMeta>

    /** `SimpleStrategy::new`: waiting to buy, no order, no metadata. */
    constructor (config: SimpleConfig)
      ensures this.config == config
      ensures state == NewSimpleState() && meta == None
      ensures Consistent(state)
    {
      this.config := config;
      state := NewSimpleState();
      meta := None;
    }

    /** `exchange`: the market's exchange instance for the configured environment. */
    function Exchange(): (e: ExchangeInstance)
      ensures e == config.market.exchangeInstance(config.environment)
    {
      config.market.exchangeInstance(config.environment)
    }

    /** `instrument`: the market's instrument id. */
    function Instrument(): (id: InstrumentId)
      ensures id == config.market.instrumentId
    {
      config.market.instrumentId
    }

    /** `place_buy`: one buy limit order under a fresh id, which becomes the active order. */
    method PlaceBuy(ctx: Context)
      requires meta.Some? && ctx.Valid()
      modifies this`state, ctx`nextId, ctx`commands
      ensures ctx.Valid() && ctx.nextId == old(ctx.nextId) + 1
      ensures state == SimpleState(BuyPlaced, Some(old(ctx.nextId)))
      ensures ctx.commands == old(ctx.commands) + [Place(OrderFor(config, meta.value, Buy, old(ctx.nextId)))]
    {
      var price := meta.value.roundPrice(Price(config.buyPrice));
      var qty := meta.value.roundQty(Qty(config.orderSize));
      var order := ctx.NewLimitOrder(Exchange(), Instrument(), Buy, price, qty);
      state := state.(activeOrder := Some(order.clientId));
      state := state.(phase := BuyPlaced);
      ctx.PlaceOrder(order);
    }

    /** `place_sell`: one sell limit order (truncated quantity) under a fresh id. */
    method PlaceSell(ctx: Context)
      requires meta.Some? && ctx.Valid()
      modifies this`state, ctx`nextId, ctx`commands
      ensures ctx.Valid() && ctx.nextId == old(ctx.nextId) + 1
      ensures state == SimpleState(SellPlaced, Some(old(ctx.nextId)))
      ensures ctx.commands == old(ctx.commands) + [Place(OrderFor(config, meta.value, Sell, old(ctx.nextId)))]
    {
      var price := meta.value.roundPrice(Price(config.sellPrice));
      var qty := meta.value.truncQty(Qty(config.orderSize));
      var order := ctx.NewLimitOrder(Exchange(), Instrument(), Sell, price, qty);
      state := state.(activeOrder := Some(order.clientId));
      state := state.(phase := SellPlaced);
      ctx.PlaceOrder(order);
    }

    /** `on_start`: load the metadata; stop on a missing instrument or an invalid
        configuration, otherwise place the first buy. */
    method OnStart(ctx: Context)
      requires ctx.Valid() && Consistent(state)
      modifies this`state, this`meta, ctx`nextId, ctx`commands
      ensures ctx.Valid() && Consistent(state)
      ensures meta == old(ctx.InstrumentMetaOf(Instrument()))
      ensures StartVerdict(config, meta).Some? ==>
        state == old(state) && ctx.nextId == old(ctx.nextId) &&
        ctx.commands == old(ctx.commands) + [StopStrategy(config.strategyId, StartVerdict(config, meta).value)]
      ensures StartVerdict(config, meta).None? ==>
        state == SimpleState(BuyPlaced, Some(old(ctx.nextId))) && ctx.nextId == old(ctx.nextId) + 1 &&
        ctx.commands == old(ctx.commands) + [Place(OrderFor(config, meta.value, Buy, old(ctx.nextId)))]
    {
      meta := ctx.InstrumentMetaOf(Instrument());
      if meta.None? {
        ctx.StopStrategy(config.strategyId, InstrumentNotFound);
        return;
      }
      var errors := Validate(config);
      if errors != [] {
        ctx.StopStrategy(config.strategyId, Join(errors, "; "));
        return;
      }
      PlaceBuy(ctx);
    }

    /** `on_event`: a completion moves buy to sell and sell to buy; a cancellation or rejection
        restarts with a fresh buy; everything else is ignored. */
    method OnEvent(ctx: Context, event: Event)
      requires ctx.Valid() && Consistent(state)
      requires Reaction(state.phase, event).Some? ==> meta.Some?
      modifies this`state, ctx`nextId, ctx`commands
      ensures ctx.Valid() && Consistent(state)
      ensures state.phase == NextPhase(old(state.phase), event)
      ensures Reaction(old(state.phase), event).None? ==>
        state == old(state) && ctx.nextId == old(ctx.nextId) && ctx.commands == old(ctx.commands)
      ensures Reaction(old(state.phase), event).Some? ==>
        state.activeOrder == Some(old(ctx.nextId)) && ctx.nextId == old(ctx.nextId) + 1 &&
        ctx.commands == old(ctx.commands) + [Place(OrderFor(config, meta.value, Reaction(old(state.phase), event).value, old(ctx.nextId)))]
      ensures old(state.phase) == BuyPlaced || old(state.phase) == SellPlaced ==>
        (state.phase == BuyPlaced || state.phase == SellPlaced) && state.activeOrder.Some?
    {
      match event
      case OrderCompleted(_, _, _) =>
        match state.phase {
          case BuyPlaced => PlaceSell(ctx);
          case SellPlaced => PlaceBuy(ctx);
          case _ =>
        }
      case OrderCanceled(_) =>
        state := SimpleState(WaitingToBuy, None);
        PlaceBuy(ctx);
      case OrderRejected(_, _) =>
        state := SimpleState(WaitingToBuy, None);
        PlaceBuy(ctx);
      case _ =>
    }

    /** `on_timer` does nothing. */
    method OnTimer(ctx: Context, timerId: TimerId)
      ensures unchanged(this, ctx)
    {
    }

    /** `on_stop`: one cancel-all on the configured exchange; the state is left alone. */
    method OnStop(ctx: Context)
      requires ctx.Valid()
      modifies ctx`commands
      ensures ctx.Valid()
      ensures ctx.commands == old(ctx.commands) + [Command.CancelAll(Exchange(), None)]
    {
      ctx.CancelAll(Exchange());
    }
  }
}
