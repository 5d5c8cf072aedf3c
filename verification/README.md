# Two trading strategies on `bot_core`, modelled in Dafny

This project models the strategy-side logic of two strategies built on the `bot_core` crate:

- **SimpleStrategy** (`examples/strategy-simple`) runs a buy-low/sell-high cycle with one limit
  order in flight. `on_start` loads the instrument metadata and validates the configuration.
  If either check fails it stops the strategy; otherwise it places a buy. After that:
  - each `OrderCompleted` swaps buy for sell, or sell for buy;
  - each `OrderCanceled` or `OrderRejected` restarts with a fresh buy;
  - `on_stop` cancels everything on the configured exchange.
- **MyStrategy** (`templates/strategy-template`) is the skeleton every new strategy starts from.
  - It has an initialisation gate that `on_start` opens.
  - Once the gate is open, quotes record the mid price and order outcomes clear the active order.
  - `on_timer` keeps a status-log timestamp that is refreshed at most once per 30 000 ms.
  - `round_price` and `round_qty` normalise prices and quantities with or without metadata.

Files:

- `bot_core.dfy` holds the crate boundary.
  - `BotCore.Context` is the strategy context. It keeps a log of emitted commands (place a limit
    order, cancel all, stop the strategy), the instrument-metadata table and the clock.
  - It also hands out client order ids. Each id is issued at most once, and ids grow along the log.
  - The crate's helpers are function-valued fields: `InstrumentMeta` rounding and truncation,
    `Price::trim_to_sig_figs`, `Quote::mid` and the `Market` projections. No statement here
    depends on what those helpers compute.
- `simple_state.dfy`, `simple_config.dfy` and `simple_strategy.dfy` follow the three source files
  of the simple strategy.
- `template_state.dfy`, `template_config.dfy` and `template_strategy.dfy` follow the template.
- `text.dfy` holds `[String]::join`, which builds the stop reasons.

The state structs are datatypes. Each strategy is a class whose `state` field is reassigned by
its callbacks, as the source assigns `self.state.*`. Each callback's postcondition ties the new
state and the new command log to a pure function of the old state. Run-level properties are
lemmas over those functions.

The simple strategy's module comment gives its lifecycle as
`WaitingToBuy → BuyPlaced → WaitingToSell → SellPlaced → WaitingToBuy`. The code differs, and the
model follows the code:
- `WaitingToSell` is never assigned;
- `WaitingToBuy` is left at once by the buy that follows it;
- once started, the phase stays in `BuyPlaced` or `SellPlaced`: each completion swaps them, and
  each cancellation or rejection returns to `BuyPlaced` (from `BuyPlaced` it stays there, with a
  fresh buy in flight).

## Model

| member | source | states |
|---|---|---|
| `SimpleStateDef.NewSimpleState` | examples/strategy-simple/src/state.rs:24-29 | a new state waits to buy and has no active order |
| `SimpleConfigDef.Validate` | examples/strategy-simple/src/config.rs:23-32 | no errors iff buy_price < sell_price and order_size > 0; each message is present iff its rule is violated; the error count equals the number of violated rules, with the price error listed first |
| `Text.Join` | examples/strategy-simple/src/strategy.rs:97 | joining no parts gives "", one part gives that part; the length is the total of the parts plus one separator between neighbours; the result starts with the first part |
| `Text.JoinSnoc` | examples/strategy-simple/src/strategy.rs:97 | with two or more parts, the join is the join of all parts but the last, then one separator, then the last part; with the first-part equation this places every part and separator |
| `SimpleStrategyDef.StartVerdict` | examples/strategy-simple/src/strategy.rs:89-99 | on_start goes on iff the metadata is present and the config is valid; missing metadata gives "Instrument not found"; otherwise the reason is the price error, the size error, or both joined by "; " |
| `SimpleStrategyDef.OrderFor` | examples/strategy-simple/src/strategy.rs:35-81 | the order goes to the configured exchange and instrument; a buy is at round_price(buy_price) with round_qty(order_size); a sell is at round_price(sell_price) with trunc_qty(order_size) |
| `SimpleStrategyDef.CompletionIgnoresClientId` | examples/strategy-simple/src/strategy.rs:110-123 | the reply to a completion depends on the phase alone, not on the event's client id |
| `SimpleStrategyDef.NextPhaseStaysPlaced` | examples/strategy-simple/src/strategy.rs:108-132 | from BuyPlaced or SellPlaced, every event leads to BuyPlaced or SellPlaced |
| `SimpleStrategyDef.RunStaysPlaced` | examples/strategy-simple/src/strategy.rs:105-132 | after a successful start, every run of events ends in BuyPlaced or SellPlaced |
| `SimpleStrategyDef.NeverWaitingToSell` | examples/strategy-simple/src/strategy.rs:108-132 | no run of events reaches WaitingToSell from any other phase |
| `SimpleStrategyDef.OnePlacementPerTerminalEvent` | examples/strategy-simple/src/strategy.rs:108-132 | in a started run, exactly one order is placed per completion, cancellation or rejection, and none for any other event |
| `SimpleStrategyDef.CompletionsAlternate` | examples/strategy-simple/src/strategy.rs:110-121 | a run of completions places one order each, alternating sides, beginning with a sell when a buy is in flight |
| `SimpleStrategyDef.SimpleStrategy.constructor` | examples/strategy-simple/src/strategy.rs:17-23 | a new strategy waits to buy, has no active order and no metadata |
| `SimpleStrategyDef.SimpleStrategy.Exchange` | examples/strategy-simple/src/strategy.rs:25-29 | the exchange instance of the configured market for the configured environment |
| `SimpleStrategyDef.SimpleStrategy.Instrument` | examples/strategy-simple/src/strategy.rs:31-33 | the instrument id of the configured market |
| `SimpleStrategyDef.SimpleStrategy.PlaceBuy` | examples/strategy-simple/src/strategy.rs:35-57 | emits exactly one buy limit order under a fresh id; the phase becomes BuyPlaced and the active order is that id |
| `SimpleStrategyDef.SimpleStrategy.PlaceSell` | examples/strategy-simple/src/strategy.rs:59-81 | emits exactly one sell limit order, with truncated quantity, under a fresh id; the phase becomes SellPlaced and the active order is that id |
| `SimpleStrategyDef.SimpleStrategy.OnStart` | examples/strategy-simple/src/strategy.rs:89-106 | stores the looked-up metadata; on a stop verdict it emits one stop command with that reason and leaves state and ids alone; otherwise it emits the first buy and enters BuyPlaced |
| `SimpleStrategyDef.SimpleStrategy.OnEvent` | examples/strategy-simple/src/strategy.rs:108-132 | completion in BuyPlaced places a sell and in SellPlaced a buy; cancellation or rejection places a buy in any phase; every other case changes nothing and emits nothing; the placed phases are closed; WaitingToSell is never entered |
| `SimpleStrategyDef.SimpleStrategy.OnTimer` | examples/strategy-simple/src/strategy.rs:134 | changes neither the strategy nor the context |
| `SimpleStrategyDef.SimpleStrategy.OnStop` | examples/strategy-simple/src/strategy.rs:136-139 | emits exactly one cancel-all for the configured exchange instance and does not touch the state |
| `TemplateStateDef.NewMyState` | templates/strategy-template/src/state.rs:31-38 | a new state is uninitialised, has no mid and no active order, and last_log_ts is 0 |
| `TemplateStateDef.DefaultMyState` | templates/strategy-template/src/state.rs:41-45 | the default state equals the new state |
| `TemplateConfigDef.Validate` | templates/strategy-template/src/config.rs:40-50 | no errors iff order_size > 0; at most one error, and that one is "order_size must be > 0" |
| `TemplateStrategyDef.StartVerdict` | templates/strategy-template/src/strategy.rs:68-90 | on_start goes on iff the metadata is present and order_size > 0; missing metadata gives "Instrument not found"; a bad size gives "Config validation failed: order_size must be > 0" |
| `TemplateStrategyDef.ApplyEvent` | templates/strategy-template/src/strategy.rs:103-154 | before initialisation nothing changes; the gate flag and the log timestamp never change; a quote sets last_mid to its mid; completion, cancellation and rejection clear the active order |
| `TemplateStrategyDef.EventsKeepGateAndClock` | templates/strategy-template/src/strategy.rs:103-154 | no run of events changes the gate flag or the log timestamp, and an uninitialised state ignores every run |
| `TemplateStrategyDef.FreshStateIgnoresEvents` | templates/strategy-template/src/strategy.rs:103-106 | a new state stays the new state under any run of events |
| `TemplateStrategyDef.LastMidIsLatestQuote` | templates/strategy-template/src/strategy.rs:109-111 | once initialised, last_mid is the mid of the latest quote in the run, or unchanged if there was none |
| `TemplateStrategyDef.TerminalEventClearsOrder` | templates/strategy-template/src/strategy.rs:124-144 | once initialised, the active order after a run is None iff a completion, cancellation or rejection occurred in it, and otherwise unchanged |
| `TemplateStrategyDef.RefreshedLogTs` | templates/strategy-template/src/strategy.rs:160-169 | the timestamp becomes now when more than 30 000 ms have passed (strictly), otherwise it stays |
| `TemplateStrategyDef.RefreshesAreSpaced` | templates/strategy-template/src/strategy.rs:156-170 | over a run of timer firings, refreshes are more than 30 000 ms apart, the first is more than 30 000 ms after the start, and the final timestamp is the last refresh |
| `TemplateStrategyDef.LogTsNeverDecreases` | templates/strategy-template/src/strategy.rs:156-170 | the log timestamp never moves backwards over a run of timer firings |
| `TemplateStrategyDef.MyStrategy.constructor` | templates/strategy-template/src/strategy.rs:23-29 | a new strategy has the new state and no metadata |
| `TemplateStrategyDef.MyStrategy.RoundPrice` | templates/strategy-template/src/strategy.rs:32-39 | trims to 5 significant figures, then applies metadata rounding if metadata is present |
| `TemplateStrategyDef.MyStrategy.RoundQty` | templates/strategy-template/src/strategy.rs:42-48 | the identity without metadata, the metadata's lot rounding with it |
| `TemplateStrategyDef.MyStrategy.Exchange` | templates/strategy-template/src/strategy.rs:50-55 | the exchange instance of the configured market for the configured environment |
| `TemplateStrategyDef.MyStrategy.Instrument` | templates/strategy-template/src/strategy.rs:57-60 | the instrument id of the configured market |
| `TemplateStrategyDef.MyStrategy.OnStart` | templates/strategy-template/src/strategy.rs:68-101 | stores the looked-up metadata; on a stop verdict it emits exactly one stop command with that reason and leaves the gate closed; otherwise it opens the gate and emits nothing |
| `TemplateStrategyDef.MyStrategy.OnEvent` | templates/strategy-template/src/strategy.rs:103-154 | the new state is the ApplyEvent step of the old one, and no command is emitted |
| `TemplateStrategyDef.MyStrategy.OnTimer` | templates/strategy-template/src/strategy.rs:156-170 | only last_log_ts may change, and it is refreshed to now iff more than 30 000 ms have passed, whether or not a mid is known |
| `TemplateStrategyDef.MyStrategy.OnStop` | templates/strategy-template/src/strategy.rs:172-175 | emits exactly one cancel-all for the configured exchange instance |

## Left out

- The execution engine behind `bot_core` is not part of this model: order ledger, command dispatcher, event router, timer service and supervisor. `bot_core` is an external crate whose source is not part of this repository.
- The `bot_core` helpers are function-valued fields with arbitrary behaviour, so their rounding is not modelled: `InstrumentMeta::round_price/round_qty/trunc_qty`, `Price::trim_to_sig_figs`, `Quote::mid` and `Market::exchange_instance/instrument_id`. `MyStrategy`'s constructor takes the two price helpers as an extra argument for this reason.
- Client-id generation in `PlaceOrder::limit` is modelled as a counter in the context. The model keeps its one promise, that an id is never reused, and not its random or seeded construction.
- `Decimal` is an unbounded integer count of a common smallest unit. The 96-bit mantissa and per-value scale of `rust_decimal` are not modelled; comparisons with zero and between prices are unaffected.
- `TemplateStrategyDef.RefreshedLogTs`: timestamps are unbounded integers. The `i64` overflow of `now - last_log_ts`, possible only for extreme negative clock values, is not modelled.
- Logging is I/O with no effect on state, so it is left out: `log_info`, `log_warn`, `log_error` and their `format!` messages. This includes the template `on_start`'s loop that logs each configuration error. Stop reasons, which are commands, are modelled.
- The `unwrap()` on the metadata in `place_buy` and `place_sell` becomes `requires meta.Some?`. Likewise `SimpleStrategy.OnEvent` requires metadata whenever the event makes it place an order, so the panic on a cancellation or rejection while no metadata is loaded (before `on_start`, or after "Instrument not found") is not modelled.
- `Strategy::id` only returns the configured strategy id. It is the `strategyId` field of each config.
- Serde/`JsonSchema` derivations, JSON loading of the configs and the `lib.rs` re-export files are not modelled.
- `Phase` is a datatype with four distinct constructors. Its derived `Copy`/`PartialEq` become Dafny's value semantics and structural equality, so no lemma states them.
