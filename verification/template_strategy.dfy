/**
 * The strategy template (templates/strategy-template/src/strategy.rs): an initialisation
 * gate, quote and order-outcome bookkeeping, and a throttled periodic status log.
 */
module TemplateStrategyDef {
  import opened Wrappers
  import opened BotCore
  import opened Text
  import opened TemplateStateDef
  import opened TemplateConfigDef

  const InstrumentNotFound := "Instrument not found"
  const ConfigFailedPrefix := "Config validation failed: "
  /** Minimum spacing of the periodic status log, in milliseconds. */
  const LogIntervalMs := 30000
  /** Significant figures kept by `round_price` before metadata rounding. */
  const PriceSigFigs := 5

  /** The stop reason `on_start` emits, or None when the strategy becomes initialised. */
  function StartVerdict(config: MyConfig, meta: Option<InstrumentMeta>): (stop: Option<string>)
    ensures stop == None <==> meta.Some? && config.orderSize > 0
    ensures meta.None? ==> stop == Some(InstrumentNotFound)
    ensures meta.Some? && config.orderSize <= 0 ==> stop == Some(ConfigFailedPrefix + SizeError)
  {
    if meta.None? then Some(InstrumentNotFound)
    else
      var errors := Validate(config);
      if errors != [] then Some(ConfigFailedPrefix + Join(errors, "; ")) else None
  }

  /** The state after `on_event` handles `event`. */
  function ApplyEvent(s: MyState, event: Event, helpers: PriceHelpers): (r: MyState)
    ensures !s.isInitialized ==> r == s
    ensures r.isInitialized == s.isInitialized && r.lastLogTs == s.lastLogTs
    ensures r.lastMid == (if s.isInitialized && event.QuoteUpdate? then Some(helpers.mid(event.quote)) else s.lastMid)
    ensures r.activeOrder == (if s.isInitialized && Terminal(event) then None else s.activeOrder)
  {
    if !s.isInitialized then s
    else
      match event
      case QuoteUpdate(q) => s.(lastMid := Some(helpers.mid(q)))
      case OrderFilled(_, _, _, _) => s
      case OrderCompleted(_, _, _) => s.(activeOrder := None)
      case OrderCanceled(_) => s.(activeOrder := None)
      case OrderRejected(_, _) => s.(activeOrder := None)
      case ExchangeStateChanged(_, _, _) => s
      case _ => s
  }

  /** The state after handling `events` one by one. */
  function ApplyEvents(s: MyState, events: seq<Event>, helpers: PriceHelpers): MyState
    decreases |events|
  {
    if events == [] then s else ApplyEvents(ApplyEvent(s, events[0], helpers), events[1..], helpers)
  }

  /** The last quote among `events`, if any. */
  function LatestQuote(events: seq<Event>): Option<Quote>
  {
    if events == [] then None
    else if events[|events| - 1].QuoteUpdate? then Some(events[|events| - 1].quote)
    else LatestQuote(events[..|events| - 1])
  }

  /** Handling events never touches the initialisation flag or the log timestamp, and before
      initialisation it changes nothing at all. */
  lemma {:induction false} EventsKeepGateAndClock(s: MyState, events: seq<Event>, helpers: PriceHelpers)
    ensures ApplyEvents(s, events, helpers).isInitialized == s.isInitialized
    ensures ApplyEvents(s, events, helpers).lastLogTs == s.lastLogTs
    ensures !s.isInitialized ==> ApplyEvents(s, events, helpers) == s
    decreases |events|
  {
    if events != [] {
      EventsKeepGateAndClock(ApplyEvent(s, events[0], helpers), events[1..], helpers);
    }
  }

  /** A fresh state ignores every run of events. */
  lemma FreshStateIgnoresEvents(events: seq<Event>, helpers: PriceHelpers)
    ensures ApplyEvents(NewMyState(), events, helpers) == NewMyState()
  {
    EventsKeepGateAndClock(NewMyState(), events, helpers);
  }

  /** Handling one more event extends the run by one step. */
  lemma {:induction false} ApplyEventsSnoc(s: MyState, events: seq<Event>, e: Event, helpers: PriceHelpers)
    ensures ApplyEvents(s, events + [e], helpers) == ApplyEvent(ApplyEvents(s, events, helpers), e, helpers)
    decreases |events|
  {
    if events == [] {
      assert [e][1..] == [];
    } else {
      assert (events + [e])[1..] == events[1..] + [e];
      ApplyEventsSnoc(ApplyEvent(s, events[0], helpers), events[1..], e, helpers);
    }
  }

  /** Once initialised, `lastMid` is the mid of the latest quote seen, or what it was if none came. */
  lemma {:induction false} LastMidIsLatestQuote(s: MyState, events: seq<Event>, helpers: PriceHelpers)
    requires s.isInitialized
    ensures ApplyEvents(s, events, helpers).lastMid ==
      (if LatestQuote(events).Some? then Some(helpers.mid(LatestQuote(events).value)) else s.lastMid)
    decreases |events|
  {
    if events != [] {
      var init := events[..|events| - 1];
      var last := events[|events| - 1];
      assert events == init + [last];
      ApplyEventsSnoc(s, init, last, helpers);
      EventsKeepGateAndClock(s, init, helpers);
      LastMidIsLatestQuote(s, init, helpers);
    }
  }

  /** Once initialised, the active order is cleared exactly when a terminal event occurs in the
      run, and is otherwise left as it was. */
  lemma {:induction false} TerminalEventClearsOrder(s: MyState, events: seq<Event>, helpers: PriceHelpers)
    requires s.isInitialized
    ensures ApplyEvents(s, events, helpers).activeOrder ==
      (if exists i :: 0 <= i < |events| && Terminal(events[i]) then None else s.activeOrder)
    decreases |events|
  {
    if events != [] {
      var init := events[..|events| - 1];
      var last := events[|events| - 1];
      assert events == init + [last];
      ApplyEventsSnoc(s, init, last, helpers);
      EventsKeepGateAndClock(s, init, helpers);
      TerminalEventClearsOrder(s, init, helpers);
      if exists i :: 0 <= i < |events| && Terminal(events[i]) {
        var i :| 0 <= i < |events| && Terminal(events[i]);
        if i < |events| - 1 {
          assert init[i] == events[i];
        }
      } else {
        assert forall i :: 0 <= i < |init| ==> init[i] == events[i];
      }
    }
  }

  /** The log timestamp after `on_timer` fires at `now`: refreshed only past the interval. */
  function RefreshedLogTs(last: TimestampMs, now: TimestampMs): (r: TimestampMs)
    ensures now - last > LogIntervalMs ==> r == now
    ensures now - last <= LogIntervalMs ==> r == last
  {
    if now - last > LogIntervalMs then now else last
  }

  /** The times at which a run of timer firings at `nows` refreshes the log timestamp. */
  function LogRefreshes(last: TimestampMs, nows: seq<TimestampMs>): seq<TimestampMs>
    decreases |nows|
  {
    if nows == [] then []
    else if RefreshedLogTs(last, nows[0]) != last then [nows[0]] + LogRefreshes(nows[0], nows[1..])
    else LogRefreshes(last, nows[1..])
  }

  /** The log timestamp after a run of timer firings. */
  function RunTimers(last: TimestampMs, nows: seq<TimestampMs>): TimestampMs
    decreases |nows|
  {
    if nows == [] then last else RunTimers(RefreshedLogTs(last, nows[0]), nows[1..])
  }

  /** Refreshes are more than the interval apart, the first more than the interval after the
      starting timestamp, and the final timestamp is the last refresh (or the start). */
  lemma {:induction false} RefreshesAreSpaced(last: TimestampMs, nows: seq<TimestampMs>)
    ensures var r := LogRefreshes(last, nows);
      (r != [] ==> r[0] - last > LogIntervalMs) &&
      (forall i :: 0 < i < |r| ==> r[i] - r[i - 1] > LogIntervalMs) &&
      RunTimers(last, nows) == (if r == [] then last else r[|r| - 1])
    decreases |nows|
  {
    if nows != [] {
      if nows[0] - last > LogIntervalMs {
        RefreshesAreSpaced(nows[0], nows[1..]);
        var tail := LogRefreshes(nows[0], nows[1..]);
        var r := [nows[0]] + tail;
        assert forall i :: 0 < i < |r| ==> r[i] == tail[i - 1];
      } else {
        RefreshesAreSpaced(last, nows[1..]);
      }
    }
  }

  /** The log timestamp never moves backwards. */
  lemma {:induction false} LogTsNeverDecreases(last: TimestampMs, nows: seq<TimestampMs>)
    ensures RunTimers(last, nows) >= last
    decreases |nows|
  {
    if nows != [] {
      LogTsNeverDecreases(RefreshedLogTs(last, nows[0]), nows[1..]);
    }
  }

  /** The strategy object: configuration, state, metadata loaded by `on_start`, and the
      price helpers of `bot_core` it relies on. */
  class MyStrategy {
    const config: MyConfig
    const helpers: PriceHelpers
    var state: MyState
    var instrumentMeta: Option<InstrumentMeta>

    /** `MyStrategy::new`: a fresh state and no metadata. */
    constructor (config: MyConfig, helpers: PriceHelpers)
      ensures this.config == config && this.helpers == helpers
      ensures state == NewMyState() && instrumentMeta == None
    {
      this.config := config;
      this.helpers := helpers;
      state := NewMyState();
      instrumentMeta := None;
    }

    /** `round_price`: trim to five significant figures, then round to tick if metadata is known. */
    function RoundPrice(price: Price): (r: Price)
      reads this`instrumentMeta
      ensures instrumentMeta.None? ==> r == helpers.trimToSigFigs(price, PriceSigFigs)
      ensures instrumentMeta.Some? ==> r == instrumentMeta.value.roundPrice(helpers.trimToSigFigs(price, PriceSigFigs))
    {
      var trimmed := helpers.trimToSigFigs(price, PriceSigFigs);
      if instrumentMeta.Some? then instrumentMeta.value.roundPrice(trimmed) else trimmed
    }

    /** `round_qty`: round to lot if metadata is known, otherwise the quantity itself. */
    function RoundQty(qty: Qty): (r: Qty)
      reads this`instrumentMeta
      ensures instrumentMeta.None? ==> r == qty
      ensures instrumentMeta.Some? ==> r == instrumentMeta.value.roundQty(qty)
    {
      if instrumentMeta.Some? then instrumentMeta.value.roundQty(qty) else qty
    }

    /** `exchange_instance`: the market's exchange instance for the configured environment. */
    function Exchange(): (e: ExchangeInstance)
      ensures e == config.market.exchangeInstance(config.environment)
    {
      config.market.exchangeInstance(config.environment)
    }

    /** `instrument_id`: the market's instrument id. */
    function Instrument(): (id: InstrumentId)
      ensures id == config.market.instrumentId
    {
      config.market.instrumentId
    }

    /** `on_start`: load the metadata; stop on a missing instrument or an invalid
        configuration, otherwise open the initialisation gate. */
    method OnStart(ctx: Context)
      requires ctx.Valid()
      modifies this`state, this`instrumentMeta, ctx`commands
      ensures ctx.Valid()
      ensures instrumentMeta == old(ctx.InstrumentMetaOf(Instrument()))
      ensures StartVerdict(config, instrumentMeta).Some? ==>
        state == old(state) &&
        ctx.commands == old(ctx.commands) + [StopStrategy(config.strategyId, StartVerdict(config, instrumentMeta).value)]
      ensures StartVerdict(config, instrumentMeta).None? ==>
        state == old(state).(isInitialized := true) && ctx.commands == old(ctx.commands)
    {
      var instrument := Instrument();
      instrumentMeta := ctx.InstrumentMetaOf(instrument);
      if instrumentMeta.None? {
        ctx.StopStrategy(config.strategyId, InstrumentNotFound);
        return;
      }
      var errors := Validate(config);
      if errors != [] {
        ctx.StopStrategy(config.strategyId, ConfigFailedPrefix + Join(errors, "; "));
        return;
      }
      state := state.(isInitialized := true);
    }

    /** `on_event`: ignored until initialised; then quotes record the mid and order
        outcomes clear the active order. */
    method OnEvent(ctx: Context, event: Event)
      modifies this`state
      ensures state == ApplyEvent(old(state), event, helpers)
    {
      if !state.isInitialized {
        return;
      }
      match event
      case QuoteUpdate(q) =>
        var mid := helpers.mid(q);
        state := state.(lastMid := Some(mid));
      case OrderFilled(_, _, _, _) =>
      case OrderCompleted(_, _, _) =>
        state := state.(activeOrder := None);
      case OrderCanceled(_) =>
        state := state.(activeOrder := None);
      case OrderRejected(_, _) =>
        state := state.(activeOrder := None);
      case ExchangeStateChanged(_, _, _) =>
      case _ =>
    }

    /** `on_timer`: refresh the log timestamp when more than the interval has passed. */
    method OnTimer(ctx: Context, timerId: TimerId)
      modifies this`state
      ensures state == old(state).(lastLogTs := RefreshedLogTs(old(state.lastLogTs), ctx.nowMs))
    {
      var now := ctx.nowMs;
      if now - state.lastLogTs > LogIntervalMs {
        state := state.(lastLogTs := now);
      }
    }

    /** `on_stop`: one cancel-all on the configured exchange instance. */
    method OnStop(ctx: Context)
      requires ctx.Valid()
      modifies ctx`commands
      ensures ctx.Valid()
      ensures ctx.commands == old(ctx.commands) + [Command.CancelAll(Exchange(), None)]
    {
      ctx.CancelAll(Exchange());
    }
  }
}
