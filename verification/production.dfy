/**
 Energy production: the manual click (`handleClick`) with its critical-hit
 roll, and the passive tick that the game runs every 100 ms.
 */
module Production {
  import opened State

  /** The critical-hit factor of a click. */
  const CriticalFactor: real := 3.0

  /** Products of non-negative (positive) factors are non-negative (positive). */
  lemma MulNonNegative(x: real, y: real)
    requires x >= 0.0 && y >= 0.0
    ensures x * y >= 0.0
  {
  }

  lemma MulPositive(x: real, y: real)
    requires x > 0.0 && y > 0.0
    ensures x * y > 0.0
  {
  }

  /** The factors of the click gain are all non-negative. */
  predicate ClickFactorsNonNegative(s: GameState) {
    s.multiplier >= 0.0 && s.prestige >= 0.0 && s.relicBonus >= 0.0 && s.comboMultiplier >= 0.0
  }

  /** The factors of the click gain are all positive (prestige may be 0). */
  predicate ClickFactorsPositive(s: GameState) {
    s.multiplier > 0.0 && s.prestige >= 0.0 && s.relicBonus > 0.0 && s.comboMultiplier > 0.0
  }

  /** The factors of the tick gain are all non-negative. */
  predicate TickFactorsNonNegative(s: GameState) {
    ClickFactorsNonNegative(s) && s.autoClickers >= 0.0 && s.energyCore >= 0.0
  }

  /** The non-critical gain of one click: non-negative when every factor
      is, and positive when every factor is positive. */
  function ClickGain(s: GameState): (g: real)
    ensures ClickFactorsNonNegative(s) ==> g >= 0.0
    ensures ClickFactorsPositive(s) ==> g > 0.0
  {
    var a := s.multiplier * (1.0 + s.prestige * 0.1);
    var b := a * s.relicBonus;
    assert ClickFactorsNonNegative(s) ==> b * s.comboMultiplier >= 0.0 by {
      if ClickFactorsNonNegative(s) {
        MulNonNegative(s.multiplier, 1.0 + s.prestige * 0.1);
        MulNonNegative(a, s.relicBonus);
        MulNonNegative(b, s.comboMultiplier);
      }
    }
    assert ClickFactorsPositive(s) ==> b * s.comboMultiplier > 0.0 by {
      if ClickFactorsPositive(s) {
        MulPositive(s.multiplier, 1.0 + s.prestige * 0.1);
        MulPositive(a, s.relicBonus);
        MulPositive(b, s.comboMultiplier);
      }
    }
    s.multiplier * (1.0 + s.prestige * 0.1) * s.relicBonus * s.comboMultiplier
  }

  datatype ClickOutcome = ClickOutcome(state: GameState, critical: bool)

  /** `handleClick` with the random draw `roll` in [0, 1) made explicit.
      The hit is critical exactly when the roll falls below criticalChance
      percent; energy grows by the base gain, tripled on a critical hit, and
      the click counter grows by one. Nothing else changes. */
  function Click(s: GameState, roll: real): (o: ClickOutcome)
    requires 0.0 <= roll < 1.0
    ensures o.critical <==> roll < s.criticalChance / 100.0
    ensures !o.critical ==> o.state.energy == s.energy + ClickGain(s)
    ensures o.critical ==> o.state.energy == s.energy + CriticalFactor * ClickGain(s)
    ensures o.state.totalClicks == s.totalClicks + 1.0
    ensures o.state.(energy := s.energy, totalClicks := s.totalClicks) == s
  {
    var isCritical := roll * 100.0 < s.criticalChance;
    var gain := if isCritical then ClickGain(s) * CriticalFactor else ClickGain(s);
    ClickOutcome(s.(energy := s.energy + gain, totalClicks := s.totalClicks + 1.0), isCritical)
  }

  /** No critical chance means no critical hit; a chance of 100 or more (the
      game does not clamp it) means every click is critical. */
  lemma CriticalExtremes(s: GameState, roll: real)
    requires 0.0 <= roll < 1.0
    ensures s.criticalChance <= 0.0 ==> !Click(s, roll).critical
    ensures s.criticalChance >= 100.0 ==> Click(s, roll).critical
  {
  }

  /** With non-negative factors a click never loses energy and gains at most
      three times the base gain. */
  lemma ClickEnergyBounds(s: GameState, roll: real)
    requires 0.0 <= roll < 1.0
    requires ClickFactorsNonNegative(s)
    ensures s.energy + ClickGain(s) <= Click(s, roll).state.energy <= s.energy + 3.0 * ClickGain(s)
  {
  }

  /** A click changes none of the factors of the click gain. */
  lemma ClickKeepsGain(s: GameState, roll: real)
    requires 0.0 <= roll < 1.0
    ensures var t := Click(s, roll).state;
      && t.multiplier == s.multiplier && t.prestige == s.prestige
      && t.relicBonus == s.relicBonus && t.comboMultiplier == s.comboMultiplier
      && t.criticalChance == s.criticalChance
      && ClickGain(t) == ClickGain(s)
  {
  }

  /** Applies one click per roll, in order. */
  function Clicks(s: GameState, rolls: seq<real>): GameState
    requires forall i :: 0 <= i < |rolls| ==> 0.0 <= rolls[i] < 1.0
    decreases |rolls|
  {
    if |rolls| == 0 then s
    else Clicks(Click(s, rolls[0]).state, rolls[1..])
  }

  /** A run of clicks counts every click and changes nothing but energy and
      the click counter. */
  lemma {:induction false} ClicksFrame(s: GameState, rolls: seq<real>)
    requires forall i :: 0 <= i < |rolls| ==> 0.0 <= rolls[i] < 1.0
    ensures Clicks(s, rolls).totalClicks == s.totalClicks + |rolls| as real
    ensures Clicks(s, rolls).(energy := s.energy, totalClicks := s.totalClicks) == s
    decreases |rolls|
  {
    if |rolls| > 0 {
      ClicksFrame(Click(s, rolls[0]).state, rolls[1..]);
    }
  }

  /** With non-negative factors a run of k clicks gains at least k base gains
      `g`. */
  lemma {:induction false} ClicksEnergyLower(s: GameState, rolls: seq<real>, g: real)
    requires forall i :: 0 <= i < |rolls| ==> 0.0 <= rolls[i] < 1.0
    requires ClickFactorsNonNegative(s)
    requires g == ClickGain(s)
    ensures s.energy + |rolls| as real * g <= Clicks(s, rolls).energy
    decreases |rolls|
  {
    if |rolls| > 0 {
      var t := Click(s, rolls[0]).state;
      var k := (|rolls| - 1) as real;
      ClickEnergyBounds(s, rolls[0]);
      ClickKeepsGain(s, rolls[0]);
      ClicksEnergyLower(t, rolls[1..], g);
      assert |rolls| as real * g == k * g + g;
    }
  }

  /** With non-negative factors a run of k clicks gains at most 3k base gains
      `g`: every click is at worst critical. */
  lemma {:induction false} ClicksEnergyUpper(s: GameState, rolls: seq<real>, g: real)
    requires forall i :: 0 <= i < |rolls| ==> 0.0 <= rolls[i] < 1.0
    requires ClickFactorsNonNegative(s)
    requires g == ClickGain(s)
    ensures Clicks(s, rolls).energy <= s.energy + 3.0 * |rolls| as real * g
    decreases |rolls|
  {
    if |rolls| > 0 {
      var t := Click(s, rolls[0]).state;
      var k := (|rolls| - 1) as real;
      ClickEnergyBounds(s, rolls[0]);
      ClickKeepsGain(s, rolls[0]);
      ClicksEnergyUpper(t, rolls[1..], g);
      assert 3.0 * |rolls| as real * g == 3.0 * k * g + 3.0 * g;
    }
  }

  /** Clicks whose rolls all miss the critical chance gain exactly one base
      gain each. */
  lemma {:induction false} ClicksWithoutCritical(s: GameState, rolls: seq<real>)
    requires forall i :: 0 <= i < |rolls| ==> s.criticalChance / 100.0 <= rolls[i] < 1.0
    requires 0.0 <= s.criticalChance
    ensures Clicks(s, rolls).energy == s.energy + |rolls| as real * ClickGain(s)
    ensures Clicks(s, rolls).totalClicks == s.totalClicks + |rolls| as real
    decreases |rolls|
  {
    if |rolls| > 0 {
      var t := Click(s, rolls[0]).state;
      assert ClickGain(t) == ClickGain(s) && t.criticalChance == s.criticalChance;
      ClicksWithoutCritical(t, rolls[1..]);
    }
  }

  /** The passive gain of one tick: exactly zero without auto clickers, and
      never negative when every factor is non-negative. */
  function TickGain(s: GameState): (g: real)
    ensures s.autoClickers == 0.0 ==> g == 0.0
    ensures TickFactorsNonNegative(s) ==> g >= 0.0
  {
    var k := 0.1 * s.autoClickers * (1.0 + s.energyCore * 0.2);
    var c := ClickGain(s);
    var g := 0.1 * s.autoClickers * s.multiplier * (1.0 + s.prestige * 0.1)
      * (1.0 + s.energyCore * 0.2) * s.relicBonus * s.comboMultiplier;
    assert g == k * c;
    assert TickFactorsNonNegative(s) ==> k * c >= 0.0 by {
      if TickFactorsNonNegative(s) {
        MulNonNegative(0.1 * s.autoClickers, 1.0 + s.energyCore * 0.2);
        MulNonNegative(k, c);
      }
    }
    g
  }

  /** The tick pays a tenth of a click's base gain per auto clicker, boosted by
      20% per energy core. */
  lemma TickGainIsScaledClickGain(s: GameState)
    ensures TickGain(s) == 0.1 * s.autoClickers * (1.0 + s.energyCore * 0.2) * ClickGain(s)
  {
    var m := s.multiplier * (1.0 + s.prestige * 0.1);
    var c := 1.0 + s.energyCore * 0.2;
    var k := 0.1 * s.autoClickers;
    assert TickGain(s) == k * m * c * s.relicBonus * s.comboMultiplier;
    assert ClickGain(s) == m * s.relicBonus * s.comboMultiplier;
  }

  /** One passive tick: with no auto clickers the state is unchanged; otherwise
      only energy changes, by the tick gain. */
  function Tick(s: GameState): (r: GameState)
    ensures s.autoClickers <= 0.0 ==> r == s
    ensures r.(energy := s.energy) == s
    ensures s.autoClickers > 0.0 ==> r.energy - s.energy == TickGain(s)
  {
    if s.autoClickers > 0.0 then s.(energy := s.energy + TickGain(s)) else s
  }

  /** With non-negative factors a tick never loses energy. */
  lemma TickNeverLosesEnergy(s: GameState)
    requires TickFactorsNonNegative(s)
    ensures Tick(s).energy >= s.energy
  {
  }

  /** `n` consecutive ticks. */
  function Ticks(s: GameState, n: nat): GameState
    decreases n
  {
    if n == 0 then s else Ticks(Tick(s), n - 1)
  }

  /** The tick gain does not depend on energy, so n ticks add exactly n tick
      gains, and nothing at all without auto clickers. */
  lemma {:induction false} TicksAccumulate(s: GameState, n: nat)
    ensures s.autoClickers > 0.0 ==> Ticks(s, n) == s.(energy := s.energy + n as real * TickGain(s))
    ensures s.autoClickers <= 0.0 ==> Ticks(s, n) == s
    decreases n
  {
    if n > 0 {
      var t := Tick(s);
      assert TickGain(t) == TickGain(s) && t.autoClickers == s.autoClickers;
      TicksAccumulate(t, n - 1);
    }
  }
}
