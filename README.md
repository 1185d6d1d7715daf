# Listaris idle economy — a Dafny model

Listaris is an idle clicker. The player earns "leaves" (coins) by clicking and from buildings,
spends them on buildings and upgrades, earns sparks from the later buildings, and can trade a
large coin balance for permanent prestige points in a soft reset. This project models the economy
of both snapshots of the repository and proves its contracts:

- **React/TypeScript game** (src/App.tsx and src/modules/*.ts):
  - the building, upgrade and achievement tables and the cost formulas (`CostCurve`, `Buildings`,
    `Upgrades`, `Achievements`);
  - the reducer `gameReducer` with `meetsUpgradeRequirement` (`Game`);
  - save rehydration `hydrateState` (`Persistence`);
  - the derived metrics: bonus sums, the income map, income per second and prestige gain (`Metrics`);
  - the boost window (`Boost`);
  - achievement progress and the unlocked/locked building split (`Progress`);
  - the imperative session: click, tick, boost, prestige, load and save, as a class (`AppSession`).
- **Vue/Pinia early snapshot** (src/stores/game.js, src/modules/buildings.js):
  - the one-entry excavator table (`PiniaBuildings`);
  - the store as a class whose `BuyBuilding` and `AddCoins` update `coins` and `buildings` in place
    (`PiniaStore`).

## Modelling choices

- **Numbers.** Coins, sparks, clicks and prestige are exact `real`s. Building counts are `nat`.
  Timestamps are `int`. The component reads two clocks, and each is a parameter. `now` is the
  component's `now` state, refreshed once a second; the boost guard and the boost factor read it.
  `timestamp` is a fresh `Date.now()`; it stamps the boost window, reset, prestige, loading and
  saving. A fresh `Date.now()` is never earlier than the `now` state, so `now <= timestamp`.
- **JavaScript truthiness.** It is written out where the code relies on it:
  - `!building.sparkCostBase || !building.sparkCostExp` is `Buildings.Truthy`;
  - `upgrade.requiresBuildings && upgrade.targetBuildingId` is `Game.ChecksTargetCount`;
  - `!upgrade.targetBuildingId` is `Upgrades.HasTarget`.
- **Absent values.** Optional fields are `Option`, and `x ?? d` is `x.GetOr(d)`.
- **Prestige gain.** `Math.floor(Math.sqrt(coins / 25000))` is the largest `n` with
  `n * n * 25000 <= coins`, computed by counting up.
- **Costs.** `getBuildingCost` is `(costBase * costExp^count).Floor`, with a recursive power over
  `real`.
- **Invariants.** The reducer state carries the invariant `Game.Valid`:
  - no negative currency or counter;
  - no upgrade owned twice;
  - the building list is the table in table order, each entry with its own count.

  Every admissible action preserves it (admissible: non-negative amounts and gains, a valid
  `loadState` payload). So do the session's click and tick, and a load of a sane save.

## Model

| member | source | states |
|---|---|---|
| CostCurve.PowNonNegative | src/modules/buildings.ts:137 | a power of a non-negative base is non-negative |
| CostCurve.PowAtLeastOne | src/modules/buildings.ts:137 | a power of a base of at least 1 is at least 1 |
| CostCurve.PowMonotone | src/modules/buildings.ts:137 | for a base of at least 1 the power grows with the exponent |
| CostCurve.CostNonNegative | src/modules/buildings.ts:136-138 | `floor(costBase * costExp^count)` is a non-negative integer for non-negative parameters |
| CostCurve.CostAtZero | src/modules/buildings.ts:136-138 | at count 0 the price is `floor(costBase)`, and exactly `costBase` when that is integral |
| CostCurve.CostMonotone | src/modules/buildings.ts:136-138 | with `costExp >= 1` the price never falls as the count grows |
| CostCurve.CostStrictlyIncreasing | src/modules/buildings.ts:136-138 | with `costBase * (costExp - 1) >= 1` every further unit costs at least one more coin |
| Buildings.FindBuildingCases | src/App.tsx:124-125 | `find` by id yields nothing exactly when no building has that id, otherwise a member of the list with that id |
| Buildings.BuildingDataInvariants | src/modules/buildings.ts:17-134 | nine entries, unique ids, every count 0, positive prices and incomes, `unlockAt` and `costBase` strictly increasing along the table |
| Buildings.CostsNonNegative | src/modules/buildings.ts:136-143 | coin and spark prices of a well-formed building are non-negative integers |
| Buildings.CostStrictlyIncreasing | src/modules/buildings.ts:17-134 | for every well-formed building (all shipped ones) the next unit costs strictly more |
| Buildings.SparkCostMonotone | src/modules/buildings.ts:140-143 | the spark price never falls as the count grows |
| Buildings.FirstUnitPrices | src/modules/buildings.ts:17-134 | the first unit of each building costs its `costBase` (the first lumen-forge 12); only spark-station, drone-swarm, luminary and gravity-temple cost sparks (18, 45, 120, 260 at count 0) |
| Buildings.SparkFreeBuildings | src/modules/buildings.ts:140-143 | the first five buildings cost 0 sparks at every count, since they have no spark parameters |
| Upgrades.FindUpgradeCases | src/App.tsx:142-143 | `upgradeData.find` by id yields nothing exactly when no upgrade has that id, otherwise a table member |
| Upgrades.FindUpgradeAt | src/App.tsx:142 | with unique ids, looking up an entry's id finds that entry |
| Upgrades.UpgradeIdsUnique | src/modules/upgrades.ts:17-140 | twelve upgrades with pairwise distinct ids |
| Upgrades.UpgradeTargetsExist | src/modules/upgrades.ts:17-140 | every `targetBuildingId` names a building of the table, and every entry with `requiresBuildings` has a target |
| Upgrades.UpgradePricesAndBonuses | src/modules/upgrades.ts:17-140 | `unlockAt < cost` for every entry; cost, spark cost and every bonus present are positive |
| Upgrades.UntargetedUpgrades | src/modules/upgrades.ts:17-140 | the untargeted upgrades are exactly pulse-mantra, spark-resonance, drone-autonomy, pulse-choir and lumen-symphony |
| Upgrades.ClickBonusesAreUntargeted | src/modules/upgrades.ts:49-128 | every upgrade with a click bonus or auto-clicks is untargeted |
| Achievements.AchievementListInvariants | src/modules/achievements.ts:9-52 | achievement ids are distinct, every target is positive, every metric is one of the five known names |
| Game.IncrementCount | src/App.tsx:133-137 | the `map` adds one unit to each entry with the id and leaves every other entry as it was |
| Game.MatchesTableIds | src/App.tsx:62-70 | a building list shaped like the table has unique ids, in table positions |
| Game.TotalBuildingsIncrement | src/App.tsx:106 | adding one unit to the building with a unique id raises the total count by one |
| Game.IncrementAbsentId | src/App.tsx:133-137 | incrementing an id no building has changes nothing |
| Game.BuyBuildingEffect | src/App.tsx:123-139 | a refused purchase (unknown id, too few coins or sparks) returns the state unchanged; an accepted one deducts exactly the coin and spark prices (both stay non-negative), adds one unit to that building and changes nothing else |
| Game.BuyBuildingChangesIffAccepted | src/App.tsx:123-139 | `buyBuilding` changes the state exactly when its guards pass |
| Game.BuyBuildingAddsOneUnit | src/App.tsx:123-139 | in a valid state an accepted purchase raises the total number of buildings by exactly one |
| Game.BuyUpgradeRejected | src/App.tsx:140-148 | when any guard fails (owned, unknown, too few coins or sparks, below `unlockAt`, requirement unmet) the state is unchanged |
| Game.BuyUpgradeAccepted | src/App.tsx:149-154 | an accepted upgrade deducts exactly its cost and spark cost (both stay non-negative), appends its id once and changes nothing else |
| Game.BuyUpgradeIdempotent | src/App.tsx:141 | buying the same upgrade twice in a row has the effect of buying it once |
| Game.BuyUpgradeKeepsNoDuplicates | src/App.tsx:140-155 | the owned-upgrade list never gains a duplicate |
| Game.UnlockGuardRedundant | src/App.tsx:145-147 | for the shipped table the `unlockAt` guard never decides: the purchase is accepted exactly when the other guards pass |
| Game.TotalBuildingsGrow | src/App.tsx:106 | when no count falls, the total count does not fall |
| Game.OwnedCountGrows | src/App.tsx:101-102 | when no count falls, no building's owned count falls (0 for an absent id) |
| Game.RequirementMonotone | src/App.tsx:96-111 | once met, an upgrade requirement stays met as buildings are bought |
| Game.RequirementUnknownId | src/App.tsx:97-98 | the requirement of an id that is not in the table is never met |
| Game.RequirementOfTableUpgrade | src/App.tsx:100-110 | for a shipped upgrade the requirement holds exactly when the target's count reaches `requiresBuildings` and the total count reaches `requiresTotalBuildings`, each check only when set |
| Game.ResetAndPrestige | src/App.tsx:158-165 | `reset` yields the default state with prestige 0; `prestige(gain)` yields the default state (no coins, sparks, units, upgrades or clicks) except prestige = old + gain |
| Game.ZeroTotal | src/App.tsx:62-70 | a list whose every count is 0 has a total of 0 |
| Game.CounterActions | src/App.tsx:113-171 | `addCoins`, `addSparks`, `addClicks`, `registerClick` and `updateSaveTimestamp` change only their own field by exactly their amount, and any other action type changes nothing |
| Game.DefaultStateValid | src/App.tsx:62-70 | the default state satisfies the state invariant |
| Game.ReducePreservesValid | src/App.tsx:113-171 | every admissible action keeps the state invariant (no negative amount, no duplicate upgrade, the table's buildings) |
| Game.RunPreservesValid | src/App.tsx:113-171 | so does every sequence of admissible actions |
| Game.PrestigeNeverDecreases | src/App.tsx:160-165 | prestige points never decrease over a run of admissible actions without `reset` or `loadState` |
| Game.FirstForgeScenario | src/App.tsx:123-139 | with no coins the first lumen-forge is refused; with exactly 12 it is bought, leaving 0 coins and one forge |
| Persistence.RestoreBuildingsAt | src/App.tsx:77-83 | entry `i` of the restored list is table entry `i` with the count of the first saved entry with its id, else the table's count |
| Persistence.HydrateBuildings | src/App.tsx:72-94 | rehydrated buildings are always the table's entries in table order; each count comes from the save, and is 0 for a building the save does not mention |
| Persistence.RestoreNothing | src/App.tsx:75-83 | restoring from an empty saved list keeps every table entry with its own count |
| Persistence.HydrateNothing | src/App.tsx:73 | an absent save yields the default state, which is valid |
| Persistence.HydrateDefaults | src/App.tsx:85-93 | each missing field takes its default: 0 for the amounts, `[]` for upgrades, the table for buildings, `now` for the save time |
| Persistence.UnknownSavedBuildingIgnored | src/App.tsx:78 | inserting a saved entry with another id anywhere does not change a building's restored count |
| Persistence.HydrateIgnoresUnknownIds | src/App.tsx:77-83 | a saved building whose id is not in the table does not change the rehydrated state |
| Persistence.SaveThenHydrate | src/App.tsx:72-94 | rehydrating the record a save writes gives back the state, stamped with the save time |
| Persistence.HydrateValid | src/App.tsx:72-94 | a save with non-negative amounts and no repeated upgrade rehydrates into a valid state |
| Metrics.OwnedAfterAction | src/App.tsx:113-171 | an accepted upgrade purchase adds exactly its id to the owned set and a refused one nothing; reset and prestige empty it; a load takes the payload's; every other action leaves it unchanged |
| Metrics.PrestigeMultiplier | src/App.tsx:209 | the prestige multiplier is at least 1, and exactly 1 without prestige |
| Metrics.PrestigeGain | src/App.tsx:313 | the gain is the largest `n` with `n * n * 25000 <= coins` |
| Metrics.PrestigeGainPositive | src/App.tsx:313 | the gain is positive exactly when the coins reach 25000 |
| Metrics.PrestigeGainMonotone | src/App.tsx:313 | more coins never give a smaller gain |
| Metrics.BonusSumNonNegative | src/App.tsx:214-254 | a bonus sum over upgrades with non-negative bonuses is non-negative |
| Metrics.BonusSumNothingOwned | src/App.tsx:214-254 | with no upgrade owned every bonus sum is 0 |
| Metrics.BonusSumAbsentId | src/App.tsx:214-254 | an upgrade id that is not in the list does not affect a sum |
| Metrics.BonusSumAddOwned | src/App.tsx:214-254 | owning one more upgrade adds exactly its bonus to every sum it is in scope for (bonuses are added, never compounded) |
| Metrics.BoughtUpgradeAddsItsBonus | src/App.tsx:214-254 | an accepted upgrade purchase adds exactly its own bonus to the global, click and auto-click sums |
| Metrics.ShippedBonusesNonNegative | src/App.tsx:232-240 | with the shipped table every bonus sum is non-negative and a click is worth at least 1 |
| Metrics.IncomeMapLookup | src/App.tsx:258-300 | with distinct ids, the map holds each building's own income under its id: base income times (1 + its bonuses + global bonuses) times the prestige and boost factors; spark income likewise without the boost |
| Metrics.PerSecFromMap | src/App.tsx:302-311 | looking every building up in a map that holds its own income gives the plain sums of per-building totals |
| Metrics.PerSecAreSums | src/App.tsx:258-311 | `coinsPerSec` and `sparksPerSec` are the sums of the per-building total incomes |
| Metrics.BoostScalesCoinsOnly | src/App.tsx:282-288 | the boost multiplies coin income by exactly its factor and leaves spark income unchanged |
| Metrics.BareIncome | src/App.tsx:282-284 | without upgrades, prestige or boost the income is the sum of `count * baseIncome` |
| Metrics.BareBuildingIncome | src/App.tsx:282-284 | without upgrades, prestige or boost one building earns `count * baseIncome` |
| Metrics.BuildingIncomeNonNegative | src/App.tsx:282-288 | a well-formed building earns non-negative coin, spark and auto-click amounts |
| Metrics.TotalsNonNegative | src/App.tsx:242-288 | for well-formed buildings, coin, spark and auto-click totals are non-negative |
| Metrics.MatchesTableWellFormed | src/modules/buildings.ts:17-134 | every building of a list shaped like the table is well formed |
| Metrics.IncomesNonNegative | src/App.tsx:242-311 | in a valid state income, spark income and auto-clicks are non-negative and the effective click value is at least 1 |
| Boost.Multiplier | src/App.tsx:210-211 | the boost factor is 1.35 while active and 1 otherwise, so above 1 exactly while active |
| Boost.ActivationWindow | src/App.tsx:388-395 | a press the guard accepts at `now` boosts income for exactly 20000 ms from the `Date.now()` stamp |
| Boost.CooldownBlocksReactivation | src/App.tsx:388-395 | after an activation stamped `timestamp`, every later press whose guard clock is before `timestamp + 65000` is ignored, and one from then on opens a fresh window stamped with its own `Date.now()` |
| Boost.HandleBoostChangesIffAccepted | src/App.tsx:388-395 | `handleBoost` changes the boost state exactly when neither the active window nor the cooldown is running |
| Boost.BoostScenario | src/App.tsx:388-395 | from idle: activation at 0, a refused press at 5000, a fresh activation at 66000 |
| Boost.LaggingGuardScenario | src/App.tsx:388-395 | a guard clock that lags `Date.now()` refuses a press at 65200 ms after the stamp when its `now` is still 64300, and accepts one whose `now` has reached 65300, stamping it with 65400 |
| Progress.PercentBounds | src/App.tsx:744-746 | the progress bar lies in [0, 100] for non-negative progress and is full exactly when the achievement is unlocked |
| Progress.TableMetricsHandled | src/App.tsx:443-462 | every shipped achievement reads a metric with its own case (never the default 0); buildings progress is the total count, upgrades progress the list length; progress is non-negative in a valid state |
| Progress.UnlockedBuildings | src/App.tsx:402-404 | the unlocked list holds only buildings of the list whose threshold is reached or which are owned |
| Progress.UnlockedContainsAvailable | src/App.tsx:402-404 | every building whose threshold is reached or which is owned is in the unlocked list |
| Progress.LockedIsUnavailable | src/App.tsx:406-408 | the locked list is exactly the buildings that are not available, in order |
| Progress.SplitPartitions | src/App.tsx:402-408 | the locked list is the unavailable buildings, and the unlocked and locked lists together hold every building exactly as often as the list does |
| Progress.SplitSizes | src/App.tsx:402-408 | as a multiset the two lists together are the buildings, they have as many entries, and the locked ones are unavailable |
| Progress.UnavailableByUnlock | src/App.tsx:406-408 | the locked buildings of a list with rising thresholds have rising thresholds |
| Progress.LockedInUnlockOrder | src/App.tsx:406-412 | in a state whose buildings follow the table, the locked list is already sorted by `unlockAt`, so the display sort changes nothing and the next building is its head |
| Progress.UnlockMonotone | src/App.tsx:403 | more coins never hide a building that was shown |
| Progress.FirstLeastIndex | src/App.tsx:410-412 | the index of the first building of least `unlockAt` |
| Progress.NextBuilding | src/App.tsx:410-412 | the next building is absent exactly when nothing is locked, and otherwise a locked building of least threshold |
| AppSession.RunAppend | src/App.tsx:345-353 | dispatching two lists of actions one after the other is dispatching their concatenation |
| AppSession.GuardedStep | src/App.tsx:351-352 | a dispatch guarded by a positive amount applies its action only when the amount is positive, keeping a valid state valid |
| AppSession.ClickEffect | src/App.tsx:369-370 | a click adds the effective click value (at least 1) to the coins and one click to the counter, changes nothing else and keeps the state valid |
| AppSession.TickEffect | src/App.tsx:345-353 | a tick adds a tenth of the income plus a tenth of the auto-click value to the coins, a tenth of the spark income and of the auto-clicks to sparks and clicks, changes nothing else, never lowers the coins and keeps the state valid |
| AppSession.Session.constructor | src/App.tsx:184-188 | a session starts in the default state with the idle boost |
| AppSession.Session.Dispatch | src/App.tsx:184 | a dispatch replaces the state by the reducer's result and keeps the invariant for admissible actions |
| AppSession.Session.HandleClick | src/App.tsx:358-371 | a click dispatches its value and a registered click, earning at least one coin |
| AppSession.Session.Tick | src/App.tsx:345-353 | the tick dispatches exactly the tick actions, leaving the boost alone and never lowering the coins |
| AppSession.Session.HandleBoost | src/App.tsx:388-395 | a press updates the boost state by `handleBoost`, guarded by the `now` state and stamped with `Date.now()`, and leaves the game state alone |
| AppSession.Session.HandlePrestige | src/App.tsx:397-400 | prestige is dispatched with the computed gain only when it is positive, which is exactly when the coins reach 25000 |
| AppSession.Session.Load | src/App.tsx:315-325 | a parsed save replaces the state by its rehydration; no save or an unparsable one leaves it alone; a sane save yields a valid state |
| AppSession.Session.Save | src/App.tsx:332-343 | the record written is the state stamped with the save time, the state records the stamp, and rehydrating the record gives back the new state |
| PiniaBuildings.ExcavatorPrices | src/modules/buildings.js:3-9 | the table is one excavator with count 0; it costs 10, 11 and 13 for its first three units, and every unit costs more than the last |
| PiniaStore.IncomeAfterPurchase | src/stores/game.js:10-22 | one more unit of a building raises `coinsPerSec` by exactly its base income |
| PiniaStore.IncomeNonNegative | src/stores/game.js:10-12 | with non-negative base incomes `coinsPerSec` is non-negative |
| PiniaStore.GameStore.constructor | src/stores/game.js:7-8 | the store starts with 0 coins and a copy of the table |
| PiniaStore.GameStore.Excavator | src/stores/game.js:14 | `excavator` is present exactly when some building has that id, and is then such a building |
| PiniaStore.GameStore.BuyBuilding | src/stores/game.js:16-26 | an unknown id or too few coins returns false and changes nothing; otherwise the price is deducted, the first building with that id (and only it) gains one unit, income rises by its base income, the result is true and coins stay non-negative |
| PiniaStore.GameStore.AddCoins | src/stores/game.js:28-30 | coins rise by exactly the amount and the buildings are untouched |
| PiniaStore.FirstExcavator | src/stores/game.js:7-26 | from a fresh store the first excavator costs 10 and leaves an income of 0.2 per second |

## Left out

- Rendering: the JSX of src/App.tsx, the components and src/modules/format.ts are presentation and are not modelled.
- Timers and I/O: `setInterval`, the 600 ms save debounce, `localStorage`, `JSON.parse`/`JSON.stringify` and `console.warn` are not modelled. The session's `Tick`, `Save` and `Load` are the bodies those timers and effects run. `Load` receives the outcome of reading and parsing: no save, unparsable, or a parsed record.
- `Number(...)` coercion of arbitrary JSON values in `hydrateState` is not modelled: saved fields are typed optional values. A save whose `buildings` or `upgrades` is not an array is an absent field.
- Floating point: all arithmetic is exact. IEEE rounding of `Math.pow`, `Math.sqrt` and the tick's tenths, NaN and Infinity are not modelled.
- Randomness and DOM: click particles, the 80 ms click cooldown, the ambient particles and the DOM checks at the start of `handleClick` are not modelled. `HandleClick` is the click past those checks.
- Display text: names, descriptions and titles of buildings, upgrades and achievements are not modelled. The faq and story modules are not part of this model.
- Metrics.PrestigeGain: requires non-negative coins. For negative coins the source takes the square root of a negative number and gets NaN. States reachable with admissible actions never have negative coins.
- AppSession.Session.HandlePrestige: requires non-negative coins, for the same reason.
- Progress.ProgressPercent: requires a positive target. The source divides by the target, and every shipped target is positive.
- Progress.LockedBuildings: `!buildingsUnlocked.includes(building)` compares by object identity. It is modelled by value equality, which selects the same buildings because entries with distinct ids are never equal.
- Building counts are `nat`: a saved negative or fractional count is not representable.
- The cost functions cannot mutate their argument, since Dafny functions have no side effects.
