/**
 The game state record. Every JavaScript number is an exact `real`. The
 field `autoClicker` (singular) is absent from the initial record and only
 comes into existence when the auto clicker upgrade is bought; it is distinct
 from `autoClickers` (plural), which production reads.
 */
module State {
  import opened Catalog

  datatype Option<T> = None | Some(value: T)

  datatype GameState = GameState(
    energy: real,
    multiplier: real,
    autoClickers: real,
    multiplierLevel: real,
    prestige: real,
    powerLevel: real,
    criticalChance: real,
    achievements: set<string>,
    totalClicks: real,
    energyCore: real,
    startTime: int,
    elementalPower: real,
    rebirthLevel: real,
    comboMultiplier: real,
    comboTimer: real,
    maxCombo: real,
    questProgress: real,
    currentQuest: string,
    artifactPower: real,
    relicBonus: real,
    autoClicker: Option<real>)

  /** The record the game starts with; `now` is the host clock's reading. */
  function Initial(now: int): (s: GameState)
    ensures s.energy == 0.0 && s.multiplier == 1.0 && s.criticalChance == 5.0
    ensures s.autoClickers == 0.0 && s.autoClicker == None
    ensures s.startTime == now
  {
    GameState(
      energy := 0.0, multiplier := 1.0, autoClickers := 0.0, multiplierLevel := 0.0,
      prestige := 0.0, powerLevel := 0.0, criticalChance := 5.0, achievements := {},
      totalClicks := 0.0, energyCore := 0.0, startTime := now, elementalPower := 0.0,
      rebirthLevel := 0.0, comboMultiplier := 1.0, comboTimer := 0.0, maxCombo := 1.0,
      questProgress := 0.0, currentQuest := "", artifactPower := 0.0, relicBonus := 1.0,
      autoClicker := None)
  }

  /** `state[id] || 0`: the value of the field named by an upgrade id. As
      with JavaScript's `||`, the auto clicker level reads 0 exactly when its
      field is absent or holds 0. */
  function Level(s: GameState, id: UpgradeId): (r: real)
    ensures id == AutoClicker ==> (r == 0.0 <==> s.autoClicker in {None, Some(0.0)})
  {
    match id
    case AutoClicker => if s.autoClicker.Some? then s.autoClicker.value else 0.0
    case Multiplier => s.multiplier
    case CriticalChance => s.criticalChance
    case EnergyCore => s.energyCore
  }

  /** `{...s, [id]: v}`: writes the field named by an upgrade id. */
  function WriteField(s: GameState, id: UpgradeId, v: real): (r: GameState)
    ensures Level(r, id) == v
    ensures forall other :: other != id ==> Level(r, other) == Level(s, other)
    ensures r.(autoClicker := s.autoClicker, multiplier := s.multiplier,
               criticalChance := s.criticalChance, energyCore := s.energyCore) == s
  {
    match id
    case AutoClicker => s.(autoClicker := Some(v))
    case Multiplier => s.(multiplier := v)
    case CriticalChance => s.(criticalChance := v)
    case EnergyCore => s.(energyCore := v)
  }

  /** `calculateUpgradeCost`: the upgrade's price at the level currently held
      in the field named by its id. It is never negative, and never below the
      base cost while that level is not negative. */
  function UpgradeCost(s: GameState, u: Upgrade, hostPow: HostPow): (c: int)
    ensures c >= 0
    ensures Level(s, u.id) >= 0.0 ==> c >= u.baseCost
  {
    Price(u.baseCost, Level(s, u.id), hostPow)
  }

  /** Whenever the level field holds a natural number n (or is absent, n = 0),
      the price is exactly `floor(baseCost * 1.15^n)`. */
  lemma CostAtNaturalLevel(s: GameState, u: Upgrade, n: nat, hostPow: HostPow)
    requires Level(s, u.id) == n as real
    ensures UpgradeCost(s, u, hostPow) == CostAt(u.baseCost, n)
    ensures UpgradeCost(s, u, hostPow) >= u.baseCost
  {
    PriceAtNaturalLevel(u.baseCost, n, hostPow);
  }

  /** An absent `autoClicker` field prices the auto clicker at its base cost 10. */
  lemma AbsentLevelCountsAsZero(s: GameState, hostPow: HostPow)
    requires s.autoClicker == None
    ensures UpgradeCost(s, AutoClickerUpgrade, hostPow) == 10
  {
    CostAtNaturalLevel(s, AutoClickerUpgrade, 0, hostPow);
  }

  /** The prices shown at the start of a game. The multiplier and critical
      strike upgrades are priced at the current multiplier (1) and critical
      chance (5), not at a purchase count. */
  lemma InitialPrices(now: int, hostPow: HostPow)
    ensures UpgradeCost(Initial(now), AutoClickerUpgrade, hostPow) == 10
    ensures UpgradeCost(Initial(now), MultiplierUpgrade, hostPow) == 57
    ensures UpgradeCost(Initial(now), CriticalChanceUpgrade, hostPow) == 201
    ensures UpgradeCost(Initial(now), EnergyCoreUpgrade, hostPow) == 500
  {
    var s := Initial(now);
    WorkedPrices();
    CostAtNaturalLevel(s, AutoClickerUpgrade, 0, hostPow);
    CostAtNaturalLevel(s, MultiplierUpgrade, 1, hostPow);
    CostAtNaturalLevel(s, CriticalChanceUpgrade, 5, hostPow);
    CostAtNaturalLevel(s, EnergyCoreUpgrade, 0, hostPow);
  }
}
