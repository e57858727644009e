/**
 A game session: the serialized sequence of clicks, purchases and timer ticks
 applied to the state record, and what every such sequence preserves.
 */
module Session {
  import opened Catalog
  import opened State
  import opened Production
  import opened Economy

  /** One event delivered to the game: a click with its random draw, a
      purchase from the catalog, or one firing of the 100 ms timer. */
  datatype Action = ClickAction(roll: real) | BuyAction(id: UpgradeId) | TickAction

  /** The host's random source only draws from [0, 1). */
  predicate WellFormed(a: Action) {
    a.ClickAction? ==> 0.0 <= a.roll < 1.0
  }

  function Step(s: GameState, a: Action, hostPow: HostPow): GameState
    requires WellFormed(a)
  {
    match a
    case ClickAction(roll) => Click(s, roll).state
    case BuyAction(id) => Purchase(s, Lookup(id), hostPow)
    case TickAction => Tick(s)
  }

  function Run(s: GameState, actions: seq<Action>, hostPow: HostPow): GameState
    requires forall i :: 0 <= i < |actions| ==> WellFormed(actions[i])
    decreases |actions|
  {
    if |actions| == 0 then s
    else Run(Step(s, actions[0], hostPow), actions[1..], hostPow)
  }

  /** The number of clicks in a sequence of actions. */
  function ClickCount(actions: seq<Action>): nat {
    if |actions| == 0 then 0
    else (if actions[0].ClickAction? then 1 else 0) + ClickCount(actions[1..])
  }

  /** The sign conditions every state of a session satisfies. */
  predicate Valid(s: GameState) {
    && s.energy >= 0.0
    && s.multiplier >= 1.0
    && s.criticalChance >= 0.0
    && s.autoClickers >= 0.0
    && s.prestige >= 0.0
    && s.energyCore >= 0.0
    && s.totalClicks >= 0.0
    && s.relicBonus >= 0.0
    && s.comboMultiplier >= 0.0
  }

  /** How a later state relates to an earlier one in the same session: the
      counters and bonuses only grow, and the fields nothing writes keep
      their values. */
  predicate Progressed(s: GameState, t: GameState) {
    && t.multiplier >= s.multiplier
    && t.criticalChance >= s.criticalChance
    && t.energyCore >= s.energyCore
    && Level(t, AutoClicker) >= Level(s, AutoClicker)
    && t.totalClicks >= s.totalClicks
    && t.autoClickers == s.autoClickers
    && t.prestige == s.prestige
    && t.relicBonus == s.relicBonus
    && t.comboMultiplier == s.comboMultiplier
    && t.achievements == s.achievements
    && t.startTime == s.startTime
  }

  lemma InitialValid(now: int)
    ensures Valid(Initial(now))
  {
  }

  /** One action keeps the state valid and only moves it forward. */
  lemma StepPreserves(s: GameState, a: Action, hostPow: HostPow)
    requires WellFormed(a)
    requires Valid(s)
    ensures Valid(Step(s, a, hostPow))
    ensures Progressed(s, Step(s, a, hostPow))
    ensures a.BuyAction? ==> Step(s, a, hostPow).energy <= s.energy
    ensures !a.BuyAction? ==> Step(s, a, hostPow).energy >= s.energy
  {
    match a
    case ClickAction(roll) =>
      ClickEnergyBounds(s, roll);
    case BuyAction(id) =>
    case TickAction =>
      TickNeverLosesEnergy(s);
  }

  /** Every state reachable from a valid state is valid, moved forward, and has
      counted exactly the clicks of the run. */
  lemma {:induction false} RunPreserves(s: GameState, actions: seq<Action>, hostPow: HostPow)
    requires forall i :: 0 <= i < |actions| ==> WellFormed(actions[i])
    requires Valid(s)
    ensures Valid(Run(s, actions, hostPow))
    ensures Progressed(s, Run(s, actions, hostPow))
    ensures Run(s, actions, hostPow).totalClicks == s.totalClicks + ClickCount(actions) as real
    decreases |actions|
  {
    if |actions| > 0 {
      var t := Step(s, actions[0], hostPow);
      StepPreserves(s, actions[0], hostPow);
      RunPreserves(t, actions[1..], hostPow);
      assert t.totalClicks == s.totalClicks + (if actions[0].ClickAction? then 1.0 else 0.0);
    }
  }

  /** Nothing in a session ever writes `autoClickers`, so from the initial
      state the passive tick never produces energy, however many auto
      clickers have been bought. */
  lemma {:induction false} AutoClickersNeverProduce(now: int, actions: seq<Action>, hostPow: HostPow)
    requires forall i :: 0 <= i < |actions| ==> WellFormed(actions[i])
    ensures var s := Run(Initial(now), actions, hostPow);
      s.autoClickers == 0.0 && Tick(s) == s
  {
    InitialValid(now);
    RunPreserves(Initial(now), actions, hostPow);
  }

  /** Ten clicks from the start whose rolls all miss the 5% critical chance
      leave exactly 10 energy and 10 clicks, and nothing else changed. */
  lemma OpeningClicks(now: int)
    ensures Clicks(Initial(now), seq(10, _ => 0.5)) ==
            Initial(now).(energy := 10.0, totalClicks := 10.0)
  {
    var s0 := Initial(now);
    var rolls := seq(10, _ => 0.5);
    assert ClickGain(s0) == 1.0;
    ClicksWithoutCritical(s0, rolls);
    ClicksFrame(s0, rolls);
  }

  /** A concrete session: buying an auto clicker with no energy fails; ten
      non-critical clicks earn 10 energy; the purchase then succeeds, spends
      all of it and raises the next auto clicker price to 11; and the tick
      still produces nothing. */
  lemma FirstAutoClicker(now: int, hostPow: HostPow)
    ensures var s0 := Initial(now);
      && Purchase(s0, AutoClickerUpgrade, hostPow) == s0
      && var s1 := Clicks(s0, seq(10, _ => 0.5));
      && s1.energy == 10.0 && s1.totalClicks == 10.0
      && var s2 := Purchase(s1, AutoClickerUpgrade, hostPow);
      && s2.energy == 0.0 && s2.autoClicker == Some(1.0)
      && UpgradeCost(s2, AutoClickerUpgrade, hostPow) == 11
      && Tick(s2) == s2
  {
    var s0 := Initial(now);
    AbsentLevelCountsAsZero(s0, hostPow);
    OpeningClicks(now);
    var s1 := s0.(energy := 10.0, totalClicks := 10.0);
    AbsentLevelCountsAsZero(s1, hostPow);
    var s2 := Purchase(s1, AutoClickerUpgrade, hostPow);
    assert s2 == s1.(energy := 0.0, autoClicker := Some(1.0));
    CostAtNaturalLevel(s2, AutoClickerUpgrade, 1, hostPow);
    WorkedPrices();
  }

  /** The same opening with the corrected purchase: the auto clicker now lands
      in `autoClickers`, and the very next tick adds 0.1 energy. */
  lemma FirstAutoClickerCorrected(now: int, hostPow: HostPow)
    ensures var s1 := Clicks(Initial(now), seq(10, _ => 0.5));
      && var s2 := PurchaseCorrected(s1, AutoClickerUpgrade, hostPow);
      && s2.energy == 0.0 && s2.autoClickers == 1.0
      && Tick(s2).energy == 0.1
  {
    OpeningClicks(now);
    var s1 := Initial(now).(energy := 10.0, totalClicks := 10.0);
    PriceAtNaturalLevel(10, 0, hostPow);
    assert CorrectedCost(s1, AutoClickerUpgrade, hostPow) == 10;
  }
}
