# rebar resource economy, modelled in Dafny

rebar simulates the resource economy of a real-time-strategy match. A
`GameState` owns an ordered list of units, two global pools (metal and
energy), a wind strength and a clock. Each call to `simulate(dt)` runs one
tick with four steps:

1. Every alive unit adds its energy production. Its wind generation is
   capped by the global wind, unit by unit.
2. Alive units are powered in list order. A unit is served only while the
   energy pool holds strictly more than it needs. A served unit pays its
   energy and produces its metal; an unserved unit stalls, with nothing
   partial.
3. Both pools are clamped to their storage caps. A cap is a base plus the
   storage of the alive units.
4. The clock advances by `dt`.

Unit templates come from definition files. The loader maps the evaluated
key/value table of a definition onto a `Unit`. It supplies defaults, rejects
missing or mistyped fields by key, folds a negative upkeep into production,
and names an unnamed unit after its file.

The project has six modules:

- `Params` (`world_params.dfy`): the world parameters and their defaults.
- `Units` (`unit.dfy`): the unit record and the unconstructed-unit
  constructor.
- `Game` (`game_state.dfy`):
  - the specification functions of a tick: `Contribution`, `Total`,
    `Serve`, `Consume` and `Tick`;
  - the `GameState` class, whose methods run the loops of rebar's `GameState` over its
    fields. Each method is proved to compute those functions.
- `TickProperties` (`tick_properties.dfy`): lemmas about a tick. They cover
  additivity, the inertness of dead units, list-order priority,
  non-negativity, zero-length steps, per-unit wind capping and the
  irrelevance of the decay parameters.
- `Scenarios` (`scenarios.dfy`): the `#[test]` functions of rebar's src/game_state.rs,
  written as client methods of `GameState`. Each scenario except
  `TimeAdvances` has a lemma that computes its ticks.
- `Loader` (`loader.dfy`): the field mapping of the definition loader over
  an abstract table. It comes with an encoder, and a round-trip lemma shows
  that every template the loader can produce parses back from its
  encoding.

Quantities are `real`, so f32 arithmetic is taken as exact.

## Model

| member | source | states |
|---|---|---|
| Params.Default | src/world_params.rs:13-28 | The default world parameters are decay delay 9, decay rate 0.03, start metal and energy 1000, and base metal and energy storage 500. |
| Units.NewUnconstructed | src/unit.rs:30-47 | An unconstructed unit is named "Unnamed", is not alive and has nothing banked. It carries the given metal cost, energy cost and build time. Build power, every rate and both storages are zero. |
| Units.UnitEquality | src/unit.rs:1-25 | Two units are equal exactly when all fourteen fields are equal (the derived `PartialEq`). |
| Game.Min | src/game_state.rs:45 | `f32::min`: the result is one of the two arguments and no larger than either, so it is their minimum. |
| Game.Contribution | src/game_state.rs:42-95 | A dead unit contributes nothing. An alive unit produces `dt*e_per_second + dt*min(wind_e_per_second, wind)` (lines 43-45), and adds its own metal storage (lines 82-84) or energy storage (lines 93-95) to the matching cap. |
| Game.Serve | src/game_state.rs:58-67 | Served (alive and pool strictly above `dt*e_cost_per_second`): the unit pays exactly its need, gains `dt*m_per_second` metal, and the pool stays positive. Otherwise the pools are unchanged. |
| Game.Tick | src/game_state.rs:40-76 | After a tick neither pool exceeds its storage cap. |
| Game.Completed | src/game_state.rs:31-37 | A completed unit is alive, with its full metal and energy build cost banked. Every other field equals the template's. |
| Game.GameState.constructor | src/game_state.rs:16-27 | A new state has no units, the given world parameters, the start metal and energy as pools, wind strength 25 and time 0. |
| Game.GameState.AddCompletedUnit | src/game_state.rs:31-37 | The unit list gains exactly `Completed(unit)` at its end; pools, wind, parameters and time are unchanged. |
| Game.GameState.Simulate | src/game_state.rs:40-76 | The new pools are `Tick` of the old pools: production, then consumption in list order, then the clamp. Time advances by `dt`. Units, parameters and wind are unchanged. |
| Game.GameState.ProductionPass | src/game_state.rs:42-47 | Energy grows by exactly the production `Total` of the unit list; only energy changes. |
| Game.GameState.ConsumptionPass | src/game_state.rs:58-67 | The pools become exactly the in-order fold `Consume` of the unit list. Only the two pools change. |
| Game.GameState.ServeUnit | src/game_state.rs:59-66 | One unit's consumption step changes the pools exactly as `Serve` says: all or nothing. |
| Game.ConsumeStep | src/game_state.rs:58-67 | Consuming from position `i` is serving unit `i`, then consuming from position `i + 1`. |
| Game.GameState.MetalStorage | src/game_state.rs:79-87 | Returns the base metal storage plus the metal storage of every alive unit, and changes nothing. |
| Game.GameState.EnergyStorage | src/game_state.rs:90-98 | Returns the base energy storage plus the energy storage of every alive unit, and changes nothing. |
| TickProperties.TotalAppend | src/game_state.rs:42-47 | A sum over a concatenated list is the sum of the sums of its two parts. |
| TickProperties.ConsumeAppend | src/game_state.rs:58-67 | Consuming over `a + b` equals consuming over `a` and then over `b` from what is left. A unit's service depends only on the units before it. |
| TickProperties.DeadUnitInert | src/game_state.rs:40-98 | Inserting a dead unit anywhere in the list leaves the result of a tick unchanged. |
| TickProperties.ConsumeKeepsEnergyPositive | src/game_state.rs:58-67 | Starting from a positive energy pool, the consumption pass never brings it to zero or below. |
| TickProperties.ConsumeMonotone | src/game_state.rs:58-67 | With non-negative step and rates, consumption never adds energy or removes metal. It keeps a non-negative energy pool non-negative. |
| TickProperties.TotalNonNegative | src/game_state.rs:79-98 | With non-negative rates, storage, wind and step, every sum over the units is non-negative. |
| TickProperties.TickNonNegative | src/game_state.rs:40-76 | Under those conditions, with non-negative pools and base storage, neither pool becomes negative in a tick. |
| TickProperties.ConsumeZeroStep | src/game_state.rs:58-67 | With a zero step, consumption leaves the pools unchanged. |
| TickProperties.ProductionZeroStep | src/game_state.rs:42-47 | With a zero step, production is zero. |
| TickProperties.TickZeroStep | src/game_state.rs:40-76 | A zero-length tick only clamps, so pools already within storage are unchanged. |
| TickProperties.TotalOfCopies | src/game_state.rs:42-47 | `n` identical units contribute `n` times one unit's share. Each unit's wind is capped separately, so `n` wind units can exceed the global wind together. |
| TickProperties.EarlierUnitWins | src/game_state.rs:55-67 | When the pool covers only one of two alive units with equal needs, the first in list order is served in full and the second stalls. |
| TickProperties.TickIgnoresDecay | src/game_state.rs:40-76 | The decay delay and decay rate do not influence a tick. |
| Scenarios.OneUnitTick | src/game_state.rs:40-98 | A tick over one unit, unfolded into its production, service and caps. |
| Scenarios.TwoUnitTick | src/game_state.rs:40-98 | A tick over two units, unfolded. The first unit is served before the second. |
| Scenarios.TimeAdvances | src/game_state.rs:107-116 | Across steps of 1.5 and 0.1 the clock reads 0, 1.5 and 1.6. |
| Scenarios.StorageTicks | src/game_state.rs:119-145 | An empty game has caps 500/500 and clamps 1000/1000 down to 500/500. With a 500/500-storage commander the caps are 1000/1000 and the pools stay full. |
| Scenarios.StorageFollowsAliveUnits | src/game_state.rs:119-145 | The caps double while the commander exists. After the unit list is cleared, caps and pools return to 500. |
| Scenarios.GenerationTicks | src/game_state.rs:148-170 | A commander making 30 energy and 2 metal per second moves the pools from 500/500 to 560/504 in 2 seconds, and fills both to 1000 in 250 more. |
| Scenarios.ResourceGeneration | src/game_state.rs:148-170 | The resource-generation scenario ends at 1000/1000. |
| Scenarios.WindTicks | src/game_state.rs:172-210 | Under wind 8, one unit rated 25 yields energy 516 after 2 seconds, and two such units yield 532. |
| Scenarios.WindIsCapped | src/game_state.rs:172-189 | The one-unit wind scenario ends at energy 516. |
| Scenarios.DoubleWindCappedPerUnit | src/game_state.rs:192-210 | The two-unit wind scenario ends at energy 532. |
| Scenarios.ExtractorTicks | src/game_state.rs:213-241 | An extractor (needs 3 energy/s, makes 3 metal/s, stores 50 metal) takes 25/500 to 19/506, then 1/524. It stalls at 1/524 and runs again from 100 to 97/527. |
| Scenarios.MetalExtractorStalls | src/game_state.rs:213-241 | The one-extractor scenario ends at energy 97 and metal 527. |
| Scenarios.DoubleExtractorTicks | src/game_state.rs:244-270 | Two extractors take 28/500 to 4/524. Then only the first is served (1/527), then neither is (1/527). |
| Scenarios.DoubleMetalExtractorPriority | src/game_state.rs:244-270 | The two-extractor scenario ends at energy 1 and metal 527. |
| Loader.AsFloat | src/loader.rs:20-24 | A value reads as a float exactly when it is a number, or an integer within the i32 range. Otherwise the error names the key as an invalid float. |
| Loader.GetStringOr | src/loader.rs:9-15 | An absent key gives the default. A present string gives its text. Any other present value is an invalid-string error for that key. |
| Loader.GetFloatOr | src/loader.rs:17-27 | An absent key gives the default; a present one is read as a float. |
| Loader.GetFloat | src/loader.rs:29-39 | An absent key is a missing-key error for that key; a present one is read as a float. |
| Loader.Unwrap | src/loader.rs:56-58 | A table with exactly one entry is replaced by that entry's table, or fails when the entry is not a table. Any other table passes through unchanged. |
| Loader.FoldUpkeep | src/loader.rs:60-65 | A negative upkeep gives exactly production `make - upkeep` and upkeep 0; a non-negative upkeep passes through unchanged. Either way upkeep ends non-negative and production minus upkeep is preserved. |
| Loader.Encode | src/loader.rs:66-81 | The table written for a unit uses the loader's keys and is well-formed. |
| Loader.ParseDefinition | src/loader.rs:52-82 | Parsing succeeds exactly when the unwrapped table is well-formed, and the result then matches the table key by key, defaults included; the unit is never alive, banks nothing and has non-negative upkeep. A failure is either the single top-level entry not being a table, or an error naming an actual defect of the unwrapped table (an unreadable float under one of the keys the loader reads, an absent required key, a non-string `name`). |
| Loader.LoadDefinitionFromPath | src/loader.rs:42-49 | Loading succeeds exactly when parsing does, and errors are passed through. Only a name equal to "Unknown" is replaced by the file stem; every other field is the parsed one. |
| Loader.ParseEncoded | src/loader.rs:52-82 | Every template (not alive, nothing banked, non-negative upkeep) parses back from its encoding under a single top-level key. |
| Loader.MinimalDefinition | src/loader.rs:42-82 | A definition giving only build time, metal cost and energy cost loads as the unconstructed unit with those costs, named after its file. |
| Loader.WellFormedFields | src/loader.rs:60-80 | A table is well-formed exactly when each of the eleven fields, in the order the loader reads them, is acceptable. |
| Loader.FirstFaultReported | src/loader.rs:60-80 | When parsing an unwrapped table fails, the reported key is one of the eleven keys the loader reads and names an actual defect there. Every field read before it is acceptable, so the error is the first defect in read order. |
| Loader.ErrorOrder | src/loader.rs:56-73 | After unwrapping, an unreadable `energymake` is the error reported whatever else is wrong; with the fields before it acceptable, a missing `buildtime` is the error reported. |
| Loader.NonStringNameRefused | src/loader.rs:9-15 | After unwrapping, a present, non-string `name` (with acceptable `energymake` and `energyupkeep`) fails loading with an invalid-string error for `name`, even when a file stem is available. |

## Left out

- Lua evaluation (`Lua::new`, `load(...).eval()`) and the `from_lua` conversion of a table: a definition enters as the map it evaluates to, with string keys. A table whose keys are not strings is not modelled.
- Lua strings are taken to be text; the lossy UTF-8 conversion of `to_string_lossy` is not modelled.
- Reading the file and taking its stem: the stem is a parameter of `LoadDefinitionFromPath`.
- Floating point: `f32` rounding, including the `as f32` casts of integers and numbers in the loader, is not modelled. Quantities are exact reals, and the scenarios' approximate comparisons become equalities.
- Decay and health: the world parameters carry a decay delay and rate, but nothing in src/game_state.rs, src/unit.rs or src/loader.rs reads them (`TickIgnoresDecay` states this). Health is commented out of the unit record.
- A build-progress pass, a unit catalog, registering, adding or building units by name, and a build target: none of these exist in src/game_state.rs, src/unit.rs or src/loader.rs, so none is modelled.
- The loader tests read definition files that are not part of this model. `MinimalDefinition` states the mapping they rely on for a minimal definition, but not their exact contents.
- The two loops of `simulate` are written as the helper methods `ProductionPass` and `ConsumptionPass`, and the body of the consumption loop as `ServeUnit`. The statements of `simulate` stay in the same order.
- TickProperties.TickZeroStep: a zero-length tick is idempotent only for pools already within storage; the clamp still lowers pools above a cap (src/game_state.rs:69-73), and the lemma states that clamp rather than unconditional idempotence.
