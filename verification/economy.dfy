/**
 Buying upgrades (`purchaseUpgrade`). The update is a JavaScript object
 literal `{...prev, energy, [id]: level + 1, multiplier, criticalChance}`: the
 computed key is written first and the two later keys override it, so the
 multiplier and critical-strike upgrades end up scaling their field rather
 than incrementing it.
 */
module Economy {
  import opened Catalog
  import opened State
  import opened Production

  /** Whether the current energy covers the upgrade's price. */
  predicate Affordable(s: GameState, u: Upgrade, hostPow: HostPow) {
    s.energy >= UpgradeCost(s, u, hostPow) as real
  }

  /** `purchaseUpgrade`, all or nothing. Without enough energy nothing
      changes. Otherwise energy drops by exactly the price (so it stays
      non-negative) and one field moves: the auto clicker and energy core
      upgrades add one to the field named by their id, the multiplier upgrade
      multiplies the multiplier by 1.5 and the critical-strike upgrade adds 2
      to the critical chance. */
  function Purchase(s: GameState, u: Upgrade, hostPow: HostPow): (r: GameState)
    ensures !Affordable(s, u, hostPow) ==> r == s
    ensures r.energy <= s.energy
    ensures Affordable(s, u, hostPow) ==>
      r.energy == s.energy - UpgradeCost(s, u, hostPow) as real && r.energy >= 0.0
    ensures Affordable(s, u, hostPow) && u.id == AutoClicker ==>
      r == s.(energy := r.energy, autoClicker := Some(Level(s, AutoClicker) + 1.0))
    ensures Affordable(s, u, hostPow) && u.id == EnergyCore ==>
      r == s.(energy := r.energy, energyCore := s.energyCore + 1.0)
    ensures Affordable(s, u, hostPow) && u.id == Multiplier ==>
      r == s.(energy := r.energy, multiplier := s.multiplier * 1.5)
    ensures Affordable(s, u, hostPow) && u.id == CriticalChance ==>
      r == s.(energy := r.energy, criticalChance := s.criticalChance + 2.0)
  {
    var cost := UpgradeCost(s, u, hostPow);
    if s.energy >= cost as real then
      var spread := s.(energy := s.energy - cost as real);
      var keyed := WriteField(spread, u.id, Level(s, u.id) + 1.0);
      keyed.(multiplier := if u.id == Multiplier then s.multiplier * 1.5 else s.multiplier,
             criticalChance := if u.id == CriticalChance then s.criticalChance + 2.0 else s.criticalChance)
    else s
  }

  /** No purchase touches the fields that production reads besides the
      multiplier: auto clickers, prestige, relic bonus and combo multiplier,
      nor the click counter. */
  lemma PurchaseKeepsProductionInputs(s: GameState, u: Upgrade, hostPow: HostPow)
    ensures var r := Purchase(s, u, hostPow);
      && r.autoClickers == s.autoClickers && r.prestige == s.prestige
      && r.totalClicks == s.totalClicks && r.relicBonus == s.relicBonus
      && r.comboMultiplier == s.comboMultiplier
  {
  }

  /** Buying the auto clicker upgrade never changes the passive tick: it
      writes the field `autoClicker`, while the tick reads `autoClickers`. */
  lemma AutoClickerPurchaseLeavesTick(s: GameState, hostPow: HostPow)
    ensures TickGain(Purchase(s, AutoClickerUpgrade, hostPow)) == TickGain(s)
    ensures var r := Purchase(s, AutoClickerUpgrade, hostPow);
      Tick(r).energy - r.energy == Tick(s).energy - s.energy
  {
  }

  /** The purchase as evidently intended for the auto clicker: its level is the
      `autoClickers` field that the tick reads, and buying it adds one there. */
  function CorrectedLevel(s: GameState, id: UpgradeId): real {
    if id == AutoClicker then s.autoClickers else Level(s, id)
  }

  function CorrectedCost(s: GameState, u: Upgrade, hostPow: HostPow): int {
    Price(u.baseCost, CorrectedLevel(s, u.id), hostPow)
  }

  /** The corrected purchase: identical to `Purchase` except that the auto
      clicker upgrade is priced by, and increments, `autoClickers`. */
  function PurchaseCorrected(s: GameState, u: Upgrade, hostPow: HostPow): (r: GameState)
    ensures s.energy < CorrectedCost(s, u, hostPow) as real ==> r == s
    ensures r.energy <= s.energy
    ensures s.energy >= CorrectedCost(s, u, hostPow) as real ==>
      r.energy == s.energy - CorrectedCost(s, u, hostPow) as real && r.energy >= 0.0
    ensures s.energy >= CorrectedCost(s, u, hostPow) as real && u.id == AutoClicker ==>
      r == s.(energy := r.energy, autoClickers := s.autoClickers + 1.0)
    ensures u.id != AutoClicker ==> r == Purchase(s, u, hostPow)
  {
    if u.id == AutoClicker then
      var cost := CorrectedCost(s, u, hostPow);
      if s.energy >= cost as real then
        s.(energy := s.energy - cost as real, autoClickers := s.autoClickers + 1.0)
      else s
    else Purchase(s, u, hostPow)
  }

  /** With the correction, every successful auto clicker purchase raises the
      passive gain by one auto clicker's worth, so the next tick produces
      energy. */
  lemma CorrectedAutoClickerFeedsTick(s: GameState, hostPow: HostPow)
    requires s.energy >= CorrectedCost(s, AutoClickerUpgrade, hostPow) as real
    requires s.autoClickers >= 0.0 && s.energyCore >= 0.0 && ClickFactorsPositive(s)
    ensures var r := PurchaseCorrected(s, AutoClickerUpgrade, hostPow);
      TickGain(r) > TickGain(s) && Tick(r).energy > r.energy
  {
    var r := PurchaseCorrected(s, AutoClickerUpgrade, hostPow);
    var g := ClickGain(s);
    var c := 1.0 + s.energyCore * 0.2;
    assert ClickGain(r) == g;
    TickGainIsScaledClickGain(s);
    TickGainIsScaledClickGain(r);
    assert TickGain(r) == 0.1 * (s.autoClickers + 1.0) * c * g;
    assert TickGain(r) - TickGain(s) == 0.1 * c * g;
    MulPositive(0.1 * c, g);
  }
}
