# Incremental game engine — Dafny model

This project models the game engine of the incremental ("idle") game "Adrenaline
Rush", which lives inside the `Game` component of `incremental/game.js`. The player
earns energy by clicking. A click may be a critical hit worth three times the
normal gain. Auto clickers are meant to add energy on a 100 ms timer. Energy buys
four upgrades, whose price grows as `floor(baseCost × 1.15^level)`.

The model is functional. The state record is an immutable datatype, and each of the
engine's transitions is a pure function over it:

- `catalog.dfy` (`Catalog`): the upgrade catalog, `Math.pow(1.15, ·)` and the cost
  curve, with its monotonicity.
- `state.dfy` (`State`): the state record, the initial state, the string-keyed field
  access `state[id] || 0`, the computed-key write `{...s, [id]: v}` and
  `calculateUpgradeCost`.
- `production.dfy` (`Production`): `handleClick` with its critical roll, and the
  passive tick.
- `economy.dfy` (`Economy`): `purchaseUpgrade`, plus a corrected variant (see
  Findings).
- `session.dfy` (`Session`): sequences of clicks, purchases and ticks from the
  initial state, and what every sequence preserves.

Modelling choices:

- Every JavaScript number is an exact `real`. IEEE-754 rounding is not modelled.
- The random draw of `Math.random()` is an explicit parameter `roll` with
  `0 ≤ roll < 1`.
- `Date.now()` is the parameter `now` of `Initial`.
- `Math.pow(1.15, level)` is computed exactly when `level` is an integer. The
  multiplier upgrade is priced at the current multiplier, which becomes non-integral
  (1.5, 2.25, …) after the first purchase. For such levels the value of `Math.pow`
  comes from a host function `hostPow`, which is a parameter. Its type `HostPow`
  records only what holds of `1.15^x` for every real x: it is positive, and at
  least 1 when x is not negative.
- The JavaScript object keeps quirks that the model reproduces literally:
  - Buying the auto clicker writes the field `autoClicker` (singular), which is
    absent from the initial record. The tick reads `autoClickers` (plural), which
    nothing ever writes. The model has both fields.
  - The multiplier and critical-strike upgrades are priced by the current multiplier
    and critical-chance values, not by a purchase count. So the first multiplier
    upgrade costs 57 and the first critical strike costs 201.
  - The purchase update `{...prev, energy, [id]: level + 1, multiplier,
    criticalChance}` writes the computed key first. The two later keys then override
    it. `Purchase` is written in that order, and its contract states the net effect:
    the multiplier becomes ×1.5, and the critical chance becomes +2.

What `incremental/game.js` does not do:
- The game has no prestige reset and no achievement evaluation. `prestige` and
  `achievements` are only initialised.
- The game has no secondary resources.
- The game does not clamp the critical chance to 100.
- A purchase returns nothing. An unknown upgrade id cannot occur in the model,
  because the ids are an enumeration.

## Model

| member | source | states |
|---|---|---|
| Catalog.Lookup | incremental/game.js:42-71 | each upgrade id has exactly one catalog entry, and every base cost is at least 10 |
| Catalog.PowNat | incremental/game.js:124 | a power of a base of at least 1 is at least 1 (and positive for a positive base) |
| Catalog.GrowthFactor | incremental/game.js:124 | `1.15^level` is always positive, and at least 1 for every non-negative level |
| Catalog.Price | incremental/game.js:124 | the price at any level value is never negative, and never below the base cost at a non-negative level |
| Catalog.CostAt | incremental/game.js:124 | the price at a natural level is the floor of `baseCost × 1.15^n` and never below the base cost |
| Catalog.PriceAtNaturalLevel | incremental/game.js:122-125 | at a natural level the price is exact and independent of the host's `Math.pow` |
| Catalog.CostStrictlyIncreasing | incremental/game.js:124 | one more level costs strictly more whenever the base cost is at least 7 |
| Catalog.CostMonotone | incremental/game.js:124 | the cost curve is strictly increasing between any two natural levels |
| Catalog.CatalogCostsIncrease | incremental/game.js:42-71 | every catalog upgrade has a strictly increasing cost curve |
| Catalog.SmallBaseCostStalls | incremental/game.js:124 | the increase needs the base-cost bound: a base cost of 1 costs 1 at levels 0 and 1 |
| Catalog.WorkedPrices | incremental/game.js:44-67 | auto clicker 10 then 11; multiplier at level 1 is 57; critical strike at level 5 is 201; energy core at level 0 is 500 |
| State.Initial | incremental/game.js:5-26 | the game starts with no energy, multiplier 1, critical chance 5, no auto clickers and no `autoClicker` field |
| State.Level | incremental/game.js:123 | the level is the field named by the id, read as 0 when falsy: the auto clicker level is 0 exactly when the `autoClicker` field is absent or holds 0 |
| State.WriteField | incremental/game.js:134 | the computed-key write sets the field named by the id, and every other field of the record keeps its value |
| State.UpgradeCost | incremental/game.js:122-125 | the price of an upgrade is never negative, and never below its base cost while the level field is not negative |
| State.CostAtNaturalLevel | incremental/game.js:122-125 | when the level field holds a natural n, the upgrade costs `floor(baseCost × 1.15^n)`, at least its base cost |
| State.AbsentLevelCountsAsZero | incremental/game.js:123 | an absent `autoClicker` field counts as level 0, so the auto clicker costs 10 |
| State.InitialPrices | incremental/game.js:122-125 | the opening prices are 10, 57, 201 and 500 |
| Production.ClickGain | incremental/game.js:96-97 | the base click gain is non-negative when multiplier, prestige, relic bonus and combo multiplier are, and positive when they are positive (prestige ≥ 0) |
| Production.Click | incremental/game.js:94-109 | a click is critical exactly when the roll is below criticalChance/100; energy grows by the base gain, or three times it when critical; the click count grows by 1; nothing else changes |
| Production.CriticalExtremes | incremental/game.js:95 | a chance of 0 or less never hits critically; a chance of 100 or more (never clamped) always does |
| Production.ClickEnergyBounds | incremental/game.js:96-107 | with non-negative factors a click gains between one and three base gains |
| Production.ClicksFrame | incremental/game.js:104-108 | k clicks add exactly k to the click count and change nothing but energy and clicks |
| Production.ClickKeepsGain | incremental/game.js:104-108 | a click changes none of the factors of the click gain, nor the critical chance, so the next click has the same base gain |
| Production.ClicksEnergyLower | incremental/game.js:96-107 | with non-negative factors k clicks gain at least k base gains |
| Production.ClicksEnergyUpper | incremental/game.js:96-107 | with non-negative factors k clicks gain at most 3k base gains |
| Production.ClicksWithoutCritical | incremental/game.js:95-107 | k clicks whose rolls all miss the critical chance gain exactly k base gains |
| Production.TickGain | incremental/game.js:77-80 | the tick gain is exactly 0 without auto clickers, and never negative when all its factors are non-negative |
| Production.TickGainIsScaledClickGain | incremental/game.js:77-80 | the tick pays 0.1 × autoClickers × (1 + 0.2 × energyCore) times the base click gain |
| Production.Tick | incremental/game.js:75-85 | with no auto clickers a tick changes nothing; otherwise it changes only energy, by the tick gain |
| Production.TickNeverLosesEnergy | incremental/game.js:76-84 | with non-negative factors a tick never lowers energy |
| Production.TicksAccumulate | incremental/game.js:74-87 | n ticks add exactly n tick gains, and nothing at all without auto clickers |
| Economy.Purchase | incremental/game.js:127-139 | an unaffordable purchase changes nothing; no purchase raises energy; an affordable one lowers energy by exactly the price (energy stays ≥ 0) and changes exactly one field: autoClicker +1, energyCore +1, multiplier ×1.5 or criticalChance +2 |
| Economy.PurchaseKeepsProductionInputs | incremental/game.js:131-137 | no purchase changes autoClickers, prestige, totalClicks, relicBonus or comboMultiplier |
| Economy.AutoClickerPurchaseLeavesTick | incremental/game.js:134 | buying the auto clicker leaves the tick gain and the energy a tick produces unchanged |
| Economy.PurchaseCorrected | incremental/game.js:127-139 | the corrected purchase prices the auto clicker by, and adds one to, `autoClickers`; every other upgrade behaves exactly as in `Purchase` |
| Economy.CorrectedAutoClickerFeedsTick | incremental/game.js:75-80 | with the correction, a successful auto clicker purchase strictly raises the tick gain, so the next tick adds energy |
| Session.InitialValid | incremental/game.js:5-26 | the initial state satisfies the sign conditions (energy ≥ 0, multiplier ≥ 1, …) |
| Session.StepPreserves | incremental/game.js:73-139 | every click, purchase or tick keeps the state valid, only raises the counters and bonuses, and keeps prestige, autoClickers, relic and combo bonuses; a purchase never raises energy, and a click or tick never lowers it |
| Session.RunPreserves | incremental/game.js:73-139 | every sequence of actions keeps the state valid and moving forward, and the click count grows by exactly the number of clicks |
| Session.AutoClickersNeverProduce | incremental/game.js:75 | in every session from the initial state `autoClickers` stays 0, so the tick never produces energy |
| Session.FirstAutoClicker | incremental/game.js:127-139 | from the start: buying the auto clicker fails; ten non-critical clicks give 10 energy; the purchase then leaves 0 energy and `autoClicker` 1 and makes the next one cost 11; the tick still produces nothing |
| Session.FirstAutoClickerCorrected | incremental/game.js:73-87 | with the corrected purchase, the same opening puts one auto clicker into `autoClickers`, and the next tick adds 0.1 energy |

## Left out

- Rendering, JSX layout and icons (`incremental/game.js:141-234`): presentation. The icon is dropped from catalog entries.
- Sound playback and its try/catch (`incremental/game.js:28-40`): browser I/O.
- The DOM pop-up of `showCriticalHit` and its timeout (`incremental/game.js:112-120`): a UI side effect. Only the flag `critical` of a click is modelled.
- Scheduling with `setInterval`/`clearInterval` and the effect's dependency list: timer plumbing. One tick is a pure function, and `Ticks` repeats it.
- Stale closures from React's batched updates: the model assumes the rendered state and `prev` are the same record. This affects the price and guard in `purchaseUpgrade` and the tick's `autoClickers > 0` guard.
- IEEE-754 double rounding: the model uses exact reals.
- `Math.pow(1.15, x)` for non-integral x: a host function passed in as `hostPow`, of which the model assumes only that it is positive, and at least 1 at non-negative x.
- Catalog.GrowthFactor: at a non-integral level it states only those two bounds, not the exact value `1.15^level`, because that value comes from the host's `Math.pow`.
- Prestige reset, achievement evaluation, secondary resources and the clamp of the critical chance to 100: `incremental/game.js` has no code for them.
- Fields that are only initialised and never changed by a transition (`multiplierLevel`, `powerLevel`, `elementalPower`, `rebirthLevel`, `comboTimer`, `maxCombo`, `questProgress`, `currentQuest`, `artifactPower`, `startTime`, `achievements`): carried in the record unchanged.

## Findings

| source | as written | input that shows it | evidently intended | confidence | as-written member | corrected member |
|---|---|---|---|---|---|---|
| incremental/game.js:134 | buying the auto clicker upgrade writes the field `autoClicker`, but the tick (lines 75-78) reads `autoClickers`, which nothing writes | from the initial state: ten clicks, then buy the auto clicker; `autoClickers` is still 0, so no tick ever produces energy | buying the auto clicker adds one to `autoClickers`, and its price follows that count | high; not executed | Session.AutoClickersNeverProduce | Economy.PurchaseCorrected |

`Economy.AutoClickerPurchaseLeavesTick` and `Session.FirstAutoClicker` also exhibit the as-written behaviour. `Economy.CorrectedAutoClickerFeedsTick` proves the intended property of the corrected purchase: each successful auto clicker purchase strictly raises the passive gain. `Session.FirstAutoClickerCorrected` replays the opening of `Session.FirstAutoClicker` with the corrected purchase, and the next tick produces energy. The general session model (`Session.Step`) follows the code as written and uses `Economy.Purchase`.
