/**
 The static upgrade catalog of the incremental game and its exponential cost
 curve: the price of an upgrade is `floor(baseCost * 1.15^level)`.
 */
module Catalog {

  /** The four upgrade ids. In the game an id doubles as the name of the
      state field that holds the upgrade's level. */
  datatype UpgradeId = AutoClicker | Multiplier | CriticalChance | EnergyCore

  /** One catalog entry (the icon is presentation and is not modelled). */
  datatype Upgrade = Upgrade(id: UpgradeId, name: string, baseCost: nat, description: string)

  const AutoClickerUpgrade := Upgrade(AutoClicker, "Auto Clicker", 10, "Generates energy automatically")
  const MultiplierUpgrade := Upgrade(Multiplier, "Energy Multiplier", 50, "Increases energy generation")
  const CriticalChanceUpgrade := Upgrade(CriticalChance, "Critical Strike", 100, "Increases critical hit chance")
  const EnergyCoreUpgrade := Upgrade(EnergyCore, "Energy Core", 500, "Boosts auto clicker efficiency")

  /** The catalog, in display order. */
  const Upgrades: seq<Upgrade> := [AutoClickerUpgrade, MultiplierUpgrade, CriticalChanceUpgrade, EnergyCoreUpgrade]

  /** The growth factor of the cost curve. */
  const Growth: real := 1.15

  /** Every id has exactly one entry, and every base cost is at least 10. */
  function Lookup(id: UpgradeId): (u: Upgrade)
    ensures u in Upgrades && u.id == id
    ensures forall i :: 0 <= i < |Upgrades| && Upgrades[i].id == id ==> Upgrades[i] == u
    ensures u.baseCost >= 10
  {
    match id
    case AutoClicker => AutoClickerUpgrade
    case Multiplier => MultiplierUpgrade
    case CriticalChance => CriticalChanceUpgrade
    case EnergyCore => EnergyCoreUpgrade
  }

  /** `x^n` for a natural exponent. */
  function PowNat(x: real, n: nat): (r: real)
    ensures x >= 1.0 ==> r >= 1.0
    ensures x > 0.0 ==> r > 0.0
  {
    if n == 0 then 1.0 else x * PowNat(x, n - 1)
  }

  predicate IsInteger(x: real) {
    x == x.Floor as real
  }

  /** Scaling a non-negative amount by a positive factor keeps it
      non-negative, and by a factor of at least 1 does not shrink it. */
  lemma ScaleBounds(b: real, g: real)
    requires b >= 0.0 && g > 0.0
    ensures b * g >= 0.0
    ensures g >= 1.0 ==> b * g >= b
  {
    if g >= 1.0 {
      assert b * g - b == b * (g - 1.0);
    }
  }

  /** The host's `Math.pow(1.15, x)`, used for levels that are not integers.
      All the model relies on is what holds of 1.15^x for every real x: it is
      positive, and at least 1 when x is not negative. */
  type HostPow = f: real -> real | forall x :: f(x) > 0.0 && (x >= 0.0 ==> f(x) >= 1.0)
    witness (x: real) => 1.0

  /** `Math.pow(1.15, level)`, exact for integral levels and taken from the
      host for any other level: always positive, and at least 1 for every
      non-negative level. */
  function GrowthFactor(level: real, hostPow: HostPow): (g: real)
    ensures g > 0.0
    ensures level >= 0.0 ==> g >= 1.0
  {
    if IsInteger(level) then
      if level >= 0.0 then PowNat(Growth, level.Floor)
      else 1.0 / PowNat(Growth, -level.Floor)
    else hostPow(level)
  }

  /** `calculateUpgradeCost` for a given level value: never negative, and
      never below the base cost at a non-negative level. */
  function Price(baseCost: nat, level: real, hostPow: HostPow): (c: int)
    ensures c >= 0
    ensures level >= 0.0 ==> c >= baseCost
  {
    var g := GrowthFactor(level, hostPow);
    ScaleBounds(baseCost as real, g);
    (baseCost as real * g).Floor
  }

  /** The cost at a natural level n: the largest integer not above
      `baseCost * 1.15^n`, never below the base cost. */
  function CostAt(baseCost: nat, n: nat): (c: int)
    ensures c as real <= baseCost as real * PowNat(Growth, n) < c as real + 1.0
    ensures baseCost <= c
  {
    var p := PowNat(Growth, n);
    ScaleBounds(baseCost as real, p);
    (baseCost as real * p).Floor
  }

  /** At a natural level the price does not depend on the host's `Math.pow`. */
  lemma PriceAtNaturalLevel(baseCost: nat, n: nat, hostPow: HostPow)
    ensures Price(baseCost, n as real, hostPow) == CostAt(baseCost, n)
  {
    assert (n as real).Floor == n;
  }

  /** Adding at least one before flooring raises the floor. */
  lemma FloorStep(x: real, d: real)
    requires d >= 1.0
    ensures x.Floor < (x + d).Floor
  {
  }

  /** One more level costs strictly more whenever 15% of the base cost is at
      least 1, which holds for every catalog entry. */
  lemma {:induction false} CostStrictlyIncreasing(baseCost: nat, n: nat)
    requires baseCost >= 7
    ensures CostAt(baseCost, n) < CostAt(baseCost, n + 1)
  {
    var p := PowNat(Growth, n);
    assert PowNat(Growth, n + 1) == Growth * p;
    var b := baseCost as real;
    assert b * (Growth * p) == b * p + 0.15 * b * p;
    assert 0.15 * b * p >= 0.15 * b * 1.0 by {
      assert 0.15 * b >= 0.0;
      assert p >= 1.0;
    }
    FloorStep(b * p, 0.15 * b * p);
  }

  /** The cost curve is strictly increasing over any span of levels. */
  lemma {:induction false} CostMonotone(baseCost: nat, n: nat, m: nat)
    requires baseCost >= 7
    requires n < m
    ensures CostAt(baseCost, n) < CostAt(baseCost, m)
    decreases m - n
  {
    CostStrictlyIncreasing(baseCost, n);
    if n + 1 < m {
      CostMonotone(baseCost, n + 1, m);
    }
  }

  /** Every catalog entry has a strictly increasing cost curve. */
  lemma CatalogCostsIncrease(id: UpgradeId, n: nat, m: nat)
    requires n < m
    ensures CostAt(Lookup(id).baseCost, n) < CostAt(Lookup(id).baseCost, m)
  {
    CostMonotone(Lookup(id).baseCost, n, m);
  }

  /** The curve is not strictly increasing for every base cost: with a base
      cost of 1 the first two levels both cost 1. */
  lemma SmallBaseCostStalls()
    ensures CostAt(1, 0) == CostAt(1, 1) == 1
  {
  }

  /** Worked prices: the auto clicker costs 10 then 11, a multiplier at level 1
      costs 57, a critical strike at level 5 costs 201. */
  lemma WorkedPrices()
    ensures CostAt(10, 0) == 10 && CostAt(10, 1) == 11
    ensures CostAt(50, 1) == 57
    ensures CostAt(100, 5) == 201
    ensures CostAt(500, 0) == 500
  {
    assert PowNat(Growth, 5) == 2.0113571875;
  }
}
