# Resource-economy simulator, modelled in Dafny

This project models, in Dafny, the engine of a game-economy simulator.

**The ledger.** The engine keeps a ledger of named items. Each item has a mutable `amount` and an optional cap `max`.

**Conversions.** A conversion works on the ledger in three steps:
- it spends its inputs, flooring each balance at zero;
- it draws a number from a cumulative frequency partition of its outcomes;
- it pays the wins of the outcome the draw selects.

A win applies two clamps in order: first its own `totalLimit`, which is an absolute ceiling, then the item's `max`. Both are tested by JavaScript truthiness, so a value of 0 clamps nothing.

**Periodic conversions.** These also carry a timer, `nextExecTime`. The timer starts at the period, and each execution advances it by one period.

**The Game and the simulation loop.** The `Game` builds its ledger and conversions from a game configuration. `simulate(maxTime)` repeats one round until `time` reaches `maxTime`:
1. it fires every periodic conversion whose timer equals `time`;
2. it drains the immediate conversions to a fixed point;
3. it jumps `time` to the earliest timer of an affordable periodic conversion, or to `maxTime`.

`reset` restores the initial amounts and the timers. `result` takes a snapshot of the ledger.

**The older copy.** The older calculator (`src/calc.ts`) runs the same loop as a free function over a caller's item table. Its drain differs: it re-checks each conversion just before executing it. The game's drain instead filters the affordable conversions once per scan and then executes all of them.

**The Poker Tales generator.** This is a builder that appends caps and conversions to a configuration object. From poker, theft and story rules it produces a full game configuration.

## Structure

| module | file | contents |
|---|---|---|
| `Wrappers` | wrappers.dfy | `Option` and `Result` |
| `Seqs` | seqs.dfy | generic slice facts |
| `Config` | config.dfy | the configuration schema (`IGameConfig` and its parts); JavaScript objects used as dictionaries (`Record`, `Lookup`, `Put`); truthiness |
| `Conversions` | conversions.dfy | the ledger (`Ledger`, an array of amounts); `getItem`; `ConversionInput`, `ConversionWin`, `ConversionOutcome` and `Conversion`, as value-level specifications plus methods on the ledger; their construction from the configuration; the injected random source |
| `Schedule` | schedule.dfy | the `PeriodConversion` class; the periodic pass, the two drain policies, the time jump and the loop, as functions, with the methods proved against them; the split of the configured conversions into immediate and periodic ones |
| `Simulator` | game.dfy | the `Game` class: constructor, `simulate`, `reset`, `result` |
| `Calc` | calc.dfy | the free `simulate` of `src/calc.ts` |
| `PokerTales` | poker_tales.dfy | the config generator, with a `ConfigDraft` class for the mutated configuration object |
| `Scenario` | scenario.dfy | the test game of `test/index.ts`, built, simulated and reset |

**How a loop is proved.** Each imperative loop of the source is a `method` on the ledger's array and the objects' fields. It is proved equal to a function on values: `FireDue`, `SnapshotScan`, `CheckedScan`, `Drain`, `NextTime`, `Loop`. The properties the source promises are then proved as lemmas about those functions.

**Unbounded loops.** The drain loop and the outer loop need not terminate. Each therefore runs on fuel: at most `scans` scans per drain and `rounds` rounds. Running out of fuel is reported as `OutOfFuel`.

**`BugError`.** This is the "no outcome" exception, raised after the inputs were spent. The model reports it as the `ok = false` flag or the `Bug` status, with the ledger as the exception leaves it.

**The code does not enforce three invariants a reader might expect, and the model follows the code:**
- The code does not check that `totalFreq > 0` when it builds a conversion, nor that each `freq` is non-negative. With non-negative weights summing to 0, an execution spends its inputs and then raises `BugError` (`ExecuteWithoutWeightFails`). With a negative weight the total can be 0 and an outcome still be selected (`NegativeWeightCanHideBug`).
- The code does not keep amounts non-negative in general. Negative initial amounts, win amounts or limits are accepted as given. Only spending floors a balance at 0.
- A period is `Math.floor(ms / 1000)`, which may be 0. The model accepts it, as the code does.

## Model

| member | source | states |
|---|---|---|
| Conversions.GetItem | src/game.ts:25-33 | succeeds exactly when the name is an item; then the index names that item; otherwise the error is `UnknownItem(name)` |
| Conversions.Ledger.constructor | src/game.ts:174-188 | the ledger holds the given names, caps and amounts, in a fresh array |
| Conversions.Random.Next | src/game.ts:135 | the k-th call of `Math.random()` returns the k-th value of the stream, and the call count goes up by one |
| Conversions.Spent | src/game.ts:51-58 | the balance after `spend` is at least 0 and at least balance − amount, and it is one of the two |
| Conversions.Paid | src/game.ts:73-83 | after `payout` the balance is at most balance + amount; it is at most a truthy `totalLimit` and at most a truthy `max`; it equals balance + amount, the limit or the cap; it equals balance + amount whenever neither clamp is exceeded |
| Conversions.TotalLimitCanLowerBalance | src/game.ts:74-75 | the total-limit clamp sets an absolute value, so it can lower a balance already above it (10 + 1 with limit 5 gives 5) |
| Conversions.ZeroLimitIsNoLimit | src/game.ts:74-80 | a `totalLimit` or `max` of 0 is falsy and clamps nothing |
| Conversions.Find | src/game.ts:136 | `outcomes.find`: the index of the first outcome whose range holds the draw; `None` exactly when no range holds it |
| Conversions.SpendAllFloors | src/game.ts:134 | spending the inputs changes only input items, and leaves each of them at 0 or more |
| Conversions.SpendAllDistinct | src/game.ts:133-134 | every input item ends at max(0, balance − amount), without any affordability check |
| Conversions.PayAllCapped | src/game.ts:101-103 | paying the wins changes only win items, and leaves every capped win item at or below its truthy `max` |
| Conversions.DrawInRange | src/game.ts:135 | `Math.floor(u * totalFreq)` lies in [0, totalFreq) for u in [0, 1) and totalFreq > 0 |
| Conversions.RangesOrdered | src/game.ts:117-121 | with contiguous ranges of non-negative weight, a range ends no later than any later range begins |
| Conversions.RangesWithinTotal | src/game.ts:117-121 | with contiguous ranges of non-negative weight, every range lies within [0, totalFreq] |
| Conversions.SomeRangeHolds | src/game.ts:135-136 | with contiguous ranges of any weights, every draw from 0 up to the end of range n − 1 lies in one of the first n ranges |
| Conversions.Partition | src/game.ts:135-136 | with contiguous ranges of non-negative weight, the ranges partition [0, totalFreq): each draw in it lies in exactly one range, the one `find` returns |
| Conversions.NoWeightNoOutcome | src/game.ts:136-140 | with non-negative weights summing to 0, no draw selects an outcome |
| Conversions.ExecuteFindsOutcome | src/game.ts:133-143 | with contiguous ranges of any weights, a positive total weight and a draw from [0, 1), `execute` finds an outcome and raises no `BugError` |
| Conversions.ExecuteWithoutWeightFails | src/game.ts:133-140 | with non-negative weights summing to 0, `execute` spends the inputs and then raises `BugError` |
| Conversions.NegativeWeightCanHideBug | src/game.ts:135-140 | weights 1 and −1 total 0, yet the draw 0 falls in the first range, so `execute` pays it and raises no `BugError` |
| Conversions.Spend | src/game.ts:51-58 | `spend` sets the input's item to `Spent(balance, amount)` and changes no other item |
| Conversions.Payout | src/game.ts:73-83 | `payout` sets the win's item to `Paid(balance, amount, totalLimit, max)` and changes no other item |
| Conversions.PayWins | src/game.ts:101-103 | `payWins` pays the wins in order, as `PayAll` |
| Conversions.CanExecute | src/game.ts:124-131 | `canExecute` is true exactly when every input is forced or covered by its item's balance |
| Conversions.Execute | src/game.ts:133-143 | `execute` spends all inputs, draws once, and pays the outcome whose range holds the draw; the flag is false (`BugError`) when none holds it; the ledger ends as `ExecSpec` says |
| Conversions.FirstUnknown | src/game.ts:112-115 | the name `getItem` throws on: `None` exactly when all referenced names are items; otherwise a referenced name that is not an item |
| Conversions.FirstUnknownAt | src/game.ts:112-115 | the first unknown name is the one at position i when all names before it are known |
| Conversions.BuiltRangesCumulative | src/game.ts:117-121 | a built conversion refers only to ledger items; its ranges are contiguous; range k begins at the sum of the weights before it; `totalFreq` is the sum of all weights; non-negative weights give no inverted range |
| Conversions.ConversionBuiltUnique | src/game.ts:111-122 | over distinct item names, the configuration fixes every field of the conversion built from it |
| Conversions.BuildOutcome | src/game.ts:91-99 | the `ConversionOutcome` constructor: the range [prevFreqEnd, prevFreqEnd + freq) and one win per entry, in order; it fails exactly when a win names an unknown item, and then on the first such name |
| Conversions.BuildInputs | src/game.ts:112-115 | the input loop: one input per entry, in order, with `force` defaulting to false; it fails exactly on the first unknown name |
| Conversions.BuildOutcomes | src/game.ts:117-121 | the outcome loop: each range starts where the previous one ended; it fails exactly on the first unknown win name |
| Conversions.BuildConversion | src/game.ts:111-122 | the `Conversion` constructor: it fails exactly when an input or win names an unknown item, reporting the first in lookup order (inputs first); otherwise the result is built from the configuration |
| Config.Lookup | src/game.ts:220 | `r[k]`: absent exactly when k is not a key; otherwise the value stored under k |
| Config.Put | src/gen-poker-tales-config.ts:127 | `r[k] = v` keeps the keys of an existing k in place and appends a new k last |
| Config.PutLookup | src/gen-poker-tales-config.ts:127 | after `r[k] = v`, k maps to v and every other key keeps its value |
| Schedule.PeriodSeconds | src/game.ts:159 | `Math.floor(ms / 1000)`: p · 1000 ≤ ms < p · 1000 + 1000 |
| Schedule.PeriodConversion.constructor | src/game.ts:150-161 | the timer starts at the period |
| Schedule.PeriodConversion.Execute | src/game.ts:163-166 | executes the conversion as `Execute`; the timer advances by one period unless `BugError` was raised |
| Schedule.PeriodConversion.Reset | src/game.ts:168-171 | the timer goes back to the period |
| Schedule.FireDueTimers | src/game.ts:202-206 | after the periodic pass, exactly the timers equal to `time` have advanced, each by its period |
| Schedule.FirePeriodic | src/game.ts:202-206 | the periodic pass executes each conversion whose timer equals `time`, affordable or not; the ledger, the timers and the random source end as `FireDue` says |
| Schedule.FireOne | src/game.ts:203-205 | one step of the periodic pass, as one step of `FireDue` |
| Schedule.FilterAvailable | src/game.ts:210 | the filter returns `Available`, the indices of the affordable conversions |
| Schedule.AvailableExactly | src/game.ts:210 | an index is in the filter's result exactly when its conversion is affordable; the result is in increasing index order |
| Schedule.ExecuteAll | src/game.ts:211 | executes the filtered conversions in order without re-checking, stopping at a `BugError` |
| Schedule.RunAllShots | src/game.ts:211 | without a `BugError`, every listed conversion executes once, in list order |
| Schedule.ScanFiltered | src/game.ts:209-211 | one scan of the game's drain, as `SnapshotScan` |
| Schedule.SnapshotScanFiresAvailable | src/game.ts:208-212 | in one scan of the game's drain, a conversion executes exactly when it was affordable at the start of the scan, once each, in index order |
| Schedule.SnapshotCanExecuteUnaffordable | src/game.ts:210-211 | a counterexample: two copies of a conversion that costs the only unit both pass the filter, so the second executes while unaffordable |
| Schedule.ScanChecked | src/calc.ts:179-185 | one scan of the calculator's drain, as `CheckedScan`; `executed` is true exactly when something executed |
| Schedule.CheckedScanGated | src/calc.ts:180-185 | in the calculator's drain, every execution happens while its conversion is affordable |
| Schedule.CheckedScanIdle | src/calc.ts:177-186 | a calculator scan that executes nothing changes nothing and found no conversion affordable |
| Schedule.CheckedScanBusy | src/calc.ts:180-185 | a calculator scan that executes something found an affordable conversion |
| Schedule.ScanIdle | src/game.ts:208-212 | under either drain, a scan executes nothing exactly when no immediate conversion is affordable, and then it changes nothing |
| Schedule.ScanConversions | src/game.ts:208-212 | one scan under the chosen drain, as `ScanOnce`; `fired` is true exactly when something executed |
| Schedule.DrainConversions | src/game.ts:208-212 | the drain loop: the ledger and the random source end as `Drain` says |
| Schedule.DrainFixedPoint | src/game.ts:208-212 | when the drain ends normally, under either drain, no immediate conversion is affordable |
| Schedule.DrainMoreFuel | src/game.ts:209-212 | a drain that ends within n scans ends the same way with any larger bound |
| Schedule.NextExecTime | src/game.ts:214-215 | the time jump returns `NextTime` |
| Schedule.ReduceIsMinimum | src/game.ts:214-215 | the reduce returns the minimum of its seed and the timers of the affordable periodic conversions |
| Schedule.NextTimeIsMinimum | src/game.ts:214-215 | the new time is at most `maxTime` and at most every affordable timer; it is `maxTime` or one of those timers |
| Schedule.TimeCanMoveBackwards | src/game.ts:214-215 | a counterexample: a timer skipped while its conversion was unaffordable makes the jump go back from 3 to 1 |
| Schedule.Round | src/game.ts:202-215 | one round of the loop: the periodic pass; then, if it succeeded, the drain; then, if that finished, the time jump |
| Schedule.RunLoop | src/game.ts:200-216 | the do-while loop from `time = 0`: the ledger, the timers, the status and the final time are those of `Simulation` |
| Schedule.LoopEndsAtHorizon | src/game.ts:216 | the loop ends normally only with `time = maxTime` |
| Schedule.NoPeriodicSingleRound | src/game.ts:199-217 | without periodic conversions the loop body runs exactly once: one drain, then `time = maxTime` |
| Schedule.SplitByPeriod | src/game.ts:190-196 | the immediate list holds only conversions with a falsy period; the periodic list holds only conversions with a truthy one |
| Schedule.SplitPartitions | src/game.ts:190-196 | every configured conversion goes to exactly one of the two lists (lengths and multisets add up) |
| Schedule.BuildPeriodConversion | src/game.ts:150-161 | the `PeriodConversion` constructor: it fails on an unknown item and then on an unparsable period; otherwise the period is `Math.floor(ms / 1000)` and the timer starts at it |
| Schedule.BuildAll | src/game.ts:190-196 | the `forEach` over the configured conversions: truthy-period ones become periodic, the others immediate, in order; it fails exactly with the error of the first failing conversion |
| Schedule.BuiltAsUnique | src/game.ts:190-196 | over distinct item names, the configuration fixes the immediate conversions, the periodic ones and their periods |
| Simulator.Dedup | src/game.ts:180-183 | the keys of the items Map: distinct, the same names as the input, in order of first `set` |
| Simulator.DedupKeepsFirstPlace | src/game.ts:181-183 | setting a name already present keeps its place; a new name goes last |
| Simulator.DedupDistinct | src/game.ts:180 | distinct names come out as they went in |
| Simulator.MaxOf | src/game.ts:181-183 | an item carries `max` exactly when `itemsMax` has its name, with that value |
| Simulator.InitialAmounts | src/game.ts:220 | every item starts at `initAmounts[name] ?? 0` |
| Simulator.InitialLedgerAmounts | src/game.ts:184-187 | the `initAmounts` loop fails exactly on the first unknown name, and otherwise sets each named item to its initial amount |
| Simulator.ItemTable | src/game.ts:180-183 | the ledger's names and caps, as `ItemNames` and `MaxOf` |
| Simulator.Game.constructor | src/game.ts:173-177 | the game holds the given ledger, initial amounts and conversions |
| Schedule.FirstErrorAt | src/game.ts:190-196 | if any one conversion fails to build, building the list fails |
| Simulator.Game.Create | src/game.ts:179-197 | `new Game(config)` throws exactly when `CreateError` names an error (an unknown `initAmounts` key first, then the first failing conversion); otherwise the ledger, caps, amounts, conversions and timers are built from the configuration |
| Simulator.Game.Assemble | src/game.ts:188-196 | binds the built parts into a game that is valid and built from the configuration |
| Simulator.Game.Simulate | src/game.ts:199-217 | `simulate(maxTime)` with the game's drain: the ledger, the timers and the random source end as `Simulation` says, and the timers carry over from earlier calls |
| Simulator.Game.Reset | src/game.ts:219-222 | every item goes back to its initial amount, with no cap applied, and every timer goes back to its period |
| Simulator.Game.Result | src/game.ts:224-228 | a map from every item name to its amount |
| Calc.Simulate | src/calc.ts:158-191 | builds the conversions and runs the loop with the re-checking drain; it fails exactly with the first construction error, changing no amount; otherwise the amounts end as `Simulation` with the `Recheck` drain says |
| PokerTales.ConfigDraft.constructor | src/gen-poker-tales-config.ts:169-188 | the configuration object holds the given fields |
| PokerTales.Decimal | src/gen-poker-tales-config.ts:30 | `${n}` is a non-empty string of decimal digits |
| PokerTales.DecimalRoundTrip | src/gen-poker-tales-config.ts:30 | reading `${n}` back gives n |
| PokerTales.NamesInjective | src/gen-poker-tales-config.ts:121-122 | different numbers give different `theft<id>` and `level<i>` names |
| PokerTales.SetAllHit | src/gen-poker-tales-config.ts:31 | after `itemsMax[theft] = 1` for each theft item, each of them has cap 1 |
| PokerTales.SetAllMiss | src/gen-poker-tales-config.ts:31 | every other cap keeps its value |
| PokerTales.PokerCapsLookup | src/gen-poker-tales-config.ts:29-31 | after poker, every `theft<id>` of a poker outcome has cap 1, and every other cap is as before |
| PokerTales.PokerOutcomeShape | src/gen-poker-tales-config.ts:32-41 | poker outcome `id` keeps its weight and pays gold, anchor, magicball and crown (each 0 when absent), then one `theft<id>` |
| PokerTales.PokerConversionShape | src/gen-poker-tales-config.ts:22-28 | the poker conversion carries the rules' period (whether the game runs it periodically is `PokerTalesPeriodic`), consumes only `energyInput` energy, and has one outcome per poker outcome, in order |
| PokerTales.GeneratePoker | src/gen-poker-tales-config.ts:21-44 | caps every `theft<id>` at 1 and appends exactly the poker conversion |
| PokerTales.TheftPassesFromChances | src/gen-poker-tales-config.ts:60-82 | each theft-pass conversion comes from a nonzero chance, and each nonzero chance gives its conversion |
| PokerTales.TheftChanceIff | src/gen-poker-tales-config.ts:60-67 | a theft item is consumed by some theft-pass conversion exactly when its chance is nonzero |
| PokerTales.TheftRewardLast | src/gen-poker-tales-config.ts:84-104 | the theft part ends with the reward conversion: it consumes one `theftPass`, with the win outcome first and the loss second |
| PokerTales.GenerateTheft | src/gen-poker-tales-config.ts:58-105 | appends the theft-pass conversions, then the reward, and changes nothing else |
| PokerTales.WinsOfLookup | src/gen-poker-tales-config.ts:124-126 | each win of a sub-level is paid with its amount and no limit |
| PokerTales.AmountWins | src/gen-poker-tales-config.ts:123-126 | the `for ... in sl.wins` copy keeps the keys and amounts, in order |
| PokerTales.StoryConversionShape | src/gen-poker-tales-config.ts:121-139 | sub-level i consumes its gold and one `level<i>`; it has one outcome of weight 1, which pays one `level<i+1>` and the sub-level's other wins |
| PokerTales.SubLevelConversion | src/gen-poker-tales-config.ts:121-139 | one iteration of the level loop builds `StoryConversion(sl, i)` |
| PokerTales.GenerateStoryLevel | src/gen-poker-tales-config.ts:118-142 | appends the sub-levels' conversions, numbered from levelId · len, and changes nothing else |
| PokerTales.FirstLevelUnscaled | src/gen-poker-tales-config.ts:146-155 | level 0 is the first level unchanged (every factor is a power 0) |
| PokerTales.StoryLength | src/gen-poker-tales-config.ts:145-157 | the story has levelsNum · first.length conversions |
| PokerTales.StoryAt | src/gen-poker-tales-config.ts:145-157 | sub-level j of level b is conversion b · len + j |
| PokerTales.StoryChain | src/gen-poker-tales-config.ts:118-157 | story conversion k consumes `level<k>` and pays `level<k+1>`, so the levels form one chain |
| PokerTales.ScaleSubLevel | src/gen-poker-tales-config.ts:147-154 | scales the gold input and every win by the multiplier raised to levelId, rounding down |
| PokerTales.ScaleLevel | src/gen-poker-tales-config.ts:146-155 | the `first.map(...)` of one level, as `ScaledLevel` |
| PokerTales.GenerateStory | src/gen-poker-tales-config.ts:144-158 | appends the story conversions, level after level, and changes nothing else |
| PokerTales.GeneratePokerTales | src/gen-poker-tales-config.ts:168-216 | returns the fixed items, `umbrella` capped at 3 plus the theft caps, `{energy: initEnergy}`, and the conversions in the order refill, poker, theft, story |
| PokerTales.PokerTalesLayout | src/gen-poker-tales-config.ts:190-211 | conversion 0 is the refill, 1 the poker conversion, then the theft passes, then the reward, then the story chain |
| PokerTales.PokerTalesPeriods | src/gen-poker-tales-config.ts:191-211 | exactly conversions 0 and 1 carry a period: the refill `refillEnergyPeriod`, the poker conversion its own period |
| PokerTales.PokerTalesPeriodic | src/gen-poker-tales-config.ts:191-211 | the game runs conversion k periodically exactly when k is 0 and `refillEnergyPeriod` is not empty, or k is 1 and the poker period is not empty; every other conversion is immediate |
| PokerTales.PokerTalesCaps | src/gen-poker-tales-config.ts:181-183 | the caps are `umbrella` 3 and each `theft<id>` of a poker outcome 1, and nothing else |
| PokerTales.UndeclaredLevel | src/gen-poker-tales-config.ts:170-180 | with at least one level and sub-level, the first story conversion pays `level1`, which is neither listed nor capped, so for every period parser building a game from this configuration raises `VerificationError`: for `level1` at the latest, or earlier for another unknown item or an invalid period |
| PokerTales.LevelOneUndeclared | src/gen-poker-tales-config.ts:170-183 | no declared item or cap is called `level1` |
| Scenario.NamesOf | test/index.ts:6-14 | the test game's ledger holds res1 .. res4, then res5 |
| Scenario.CapsOf | test/index.ts:12-14 | only res5 carries a cap, 3 |
| Scenario.AmountsOf | test/index.ts:45-48 | res1 and res4 start at 10, the others at 0, and both keys name items |
| Scenario.CreatesOf | test/index.ts:53 | the test configuration's constructor throws nothing when "1s" parses as 1000 ms |
| Scenario.CreatedRulesOf | test/index.ts:5-49 | the created game holds the capped res4 → res5 conversion and the periodic res1 → res2 + res3 conversion, its timer at 1 second, and the initial amounts |
| Scenario.SimulationOf | test/index.ts:54-59 | simulate(100) over the two conversions ends with res1 0, res2 10, res3 5, res4 0, res5 3 after ten executions of each |
| Scenario.TestSimulation | test/index.ts:54-59 | the same for the test rules and any random source with values in [0, 1) |
| Scenario.CreateTest | test/index.ts:53 | `new Game(config)` on the test configuration |
| Scenario.SimulateTest | test/index.ts:54 | `game.simulate(100)` ends with amounts 0, 10, 5, 0, 3 |
| Scenario.GameOf | test/index.ts:51-66 | the test over any five distinct names |
| Scenario.TestGame | test/index.ts:51-66 | after `simulate(100)`, `result()` maps res1..res5 to 0, 10, 5, 0, 3; after `reset()`, to 10, 0, 0, 10, 0 |

## Left out

- parse-duration (`src/game.ts:153`, `src/calc.ts:144`) is a foreign library. It is a parameter `parse` that returns milliseconds, or `None` when it rejects the text. The test game assumes only that "1s" gives 1000.
- `Math.random()` is an injected stream of reals that counts its calls. Only the scenario assumes that its values lie in [0, 1).
- Simulator.Game.Simulate: the loops are bounded by the fuel `scans` and `rounds`, which the source does not have. `DrainMoreFuel` shows that a larger bound changes nothing once a drain ends. An immediate conversion with no unforced inputs, or a zero period, makes the source loop forever; the model then ends with `OutOfFuel`.
- Calc.Simulate: the same fuel bounds as `Simulator.Game.Simulate`.
- Numbers are unbounded integers, and the draw and the story scaling are exact reals. JavaScript's floating point, `NaN` and non-integer amounts are not modelled.
- JavaScript enumerates integer-like object keys before the others. The model keeps insertion order for every key.
- PokerTales.GenerateStory: requires `StoryDefined`. With fewer multipliers than first-level sub-levels the source throws a `TypeError`, and with a missing win multiplier above level 0 it computes `NaN` amounts; neither path is modelled.
- PokerTales.GeneratePokerTales: requires `StoryDefined`, for the same reason.
- `levelsNum` is a natural number. A negative or fractional count is not modelled.
- The game never accepts the generated Poker Tales configuration, because story levels above 0 are never declared: `UndeclaredLevel` proves its construction raises `VerificationError`. That a `Game` built from it would run is not claimed.
- Negative `freq` values are accepted by the code as given. `RangesOrdered`, `RangesWithinTotal`, `Partition`, `NoWeightNoOutcome` and `ExecuteWithoutWeightFails` assume non-negative weights; `NegativeWeightCanHideBug` shows what happens without them.
- The helper classes of `src/calc.ts` are textually the same as those of `src/game.ts`, so they are modelled once. Their rows cite `src/game.ts`.
- `src/calc.ts` has no `reset`. Its `simulate` works on the caller's item table, modelled as a `Ledger`.
- Simulator.Game.Result: returns a Dafny `map`, which has no order. The insertion order of the source's `Map` is not modelled.
- The error classes are modelled as error values, not exceptions. `VerificationError` carries its cause as `UnknownItem` or `InvalidPeriod`. The message texts are not modelled.
- src/index.ts, src/solver.ts and src/test-data/poker1.ts are not part of this model. src/game-config.ts and src/rules.ts only give the shapes of the datatypes in `Config`.
