/** Arrivals. The four defence multipliers 1, 5/4, 2 and 5/2 are kept in quarters, so combat is
    integer arithmetic. */
module Combat {
  import opened World

  /** Defence multiplier in quarters: a fortress counts 5/4, a royal shield doubles. */
  function DefenseQuarters(kind: Kind, shielded: bool): (q: int)
    ensures q == 4 || q == 5 || q == 8 || q == 10
  {
    (if kind == Fortress then 5 else 4) * (if shielded then 2 else 1)
  }

  function CeilDiv(x: int, d: int): int
    requires d > 0
  {
    -((-x) / d)
  }

  function DefenseStrength(units: int, quarters: int): int {
    CeilDiv(units * quarters, 4)
  }

  function RemainingDefenders(effective: int, quarters: int): int
    requires quarters > 0
  {
    CeilDiv(effective * 4, quarters)
  }

  datatype Outcome = Outcome(owner: Team, units: int, captured: bool)

  function ResolveArrival(t: Territory, incoming: int, attacker: Team, shielded: bool): Outcome {
    if incoming <= 0 then Outcome(t.owner, t.units, false)
    else if attacker == t.owner then Outcome(t.owner, t.units + incoming, false)
    else
      var quarters := DefenseQuarters(t.kind, shielded);
      var strength := DefenseStrength(t.units, quarters);
      if incoming > strength then Outcome(attacker, incoming - strength, true)
      else Outcome(t.owner, RemainingDefenders(strength - incoming, quarters), false)
  }

  lemma CeilDivBounds(x: int, d: int)
    requires d > 0
    ensures d * CeilDiv(x, d) - d < x <= d * CeilDiv(x, d)
  {
  }

  /** Fewer effective units never leave more defenders, and the defenders left are always worth at
      least the effective units they came from. */
  lemma RemainingWorth(x: int, y: int, quarters: int)
    requires x <= y && (quarters == 4 || quarters == 5 || quarters == 8 || quarters == 10)
    ensures RemainingDefenders(x, quarters) <= RemainingDefenders(y, quarters)
    ensures DefenseStrength(RemainingDefenders(x, quarters), quarters) >= x
  {
    var r := RemainingDefenders(x, quarters);
    CeilDivBounds(x * 4, quarters);
    CeilDivBounds(y * 4, quarters);
    CeilDivBounds(r * quarters, 4);
  }

  /** An attack on a held tower costs units on both sides: the defender never gains, the captor
      never keeps more than it brought, and the loser never keeps a negative garrison. */
  lemma HostileArrivalCosts(t: Territory, incoming: int, attacker: Team, shielded: bool)
    requires t.units >= 0 && incoming > 0 && attacker != t.owner
    ensures
      var o := ResolveArrival(t, incoming, attacker, shielded);
      && (o.captured ==> o.owner == attacker && 1 <= o.units <= incoming - t.units)
      && (!o.captured ==> o.owner == t.owner && 0 <= o.units <= t.units)
      && (!o.captured && t.units > 0 && DefenseQuarters(t.kind, shielded) == 4 ==> o.units == t.units - incoming)
  {
    var q := DefenseQuarters(t.kind, shielded);
    var s := DefenseStrength(t.units, q);
    CeilDivBounds(t.units * q, 4);
    CeilDivBounds((s - incoming) * 4, q);
  }

  // ----- Waves against one combined army

  function After(t: Territory, o: Outcome): Territory {
    t.(owner := o.owner, units := o.units)
  }

  function Attack(t: Territory, incoming: int, attacker: Team, shielded: bool): Territory {
    After(t, ResolveArrival(t, incoming, attacker, shielded))
  }

  /** The tower after waves of one team have arrived one after the other. */
  function Waves(t: Territory, waves: seq<nat>, attacker: Team, shielded: bool): Territory
    decreases |waves|
  {
    if waves == [] then t else Waves(Attack(t, waves[0], attacker, shielded), waves[1..], attacker, shielded)
  }

  function Sum(waves: seq<nat>): nat {
    if waves == [] then 0 else waves[0] + Sum(waves[1..])
  }

  lemma {:induction false} ReinforcingWaves(t: Territory, waves: seq<nat>, attacker: Team, shielded: bool)
    requires t.owner == attacker
    ensures Waves(t, waves, attacker, shielded) == t.(units := t.units + Sum(waves))
    decreases |waves|
  {
    if waves != [] {
      ReinforcingWaves(Attack(t, waves[0], attacker, shielded), waves[1..], attacker, shielded);
    }
  }

  /** One wave that fails leaves a tower at least as strong as the strength it did not break. */
  lemma FailedWave(t: Territory, wave: nat, attacker: Team, shielded: bool)
    requires t.owner != attacker
    ensures
      var q := DefenseQuarters(t.kind, shielded);
      var u := Attack(t, wave, attacker, shielded);
      u.owner != attacker ==> DefenseStrength(u.units, q) >= DefenseStrength(t.units, q) - wave
  {
    var q := DefenseQuarters(t.kind, shielded);
    var s := DefenseStrength(t.units, q);
    RemainingWorth(s - wave, s - wave, q);
  }

  /** Splitting an attack into waves never pays: if the waves capture, the combined army captures
      with at least as many units left; if neither captures, it leaves no more defenders. */
  lemma {:induction false} WavesNeverBeatOneArmy(t: Territory, waves: seq<nat>, attacker: Team, shielded: bool)
    requires t.owner != attacker && t.units >= 0
    ensures
      var split := Waves(t, waves, attacker, shielded);
      var whole := Attack(t, Sum(waves), attacker, shielded);
      && (split.owner == attacker ==> whole.owner == attacker && whole.units >= split.units)
      && (split.owner != attacker && whole.owner != attacker ==> whole.units <= split.units)
    decreases |waves|
  {
    hide DefenseQuarters, DefenseStrength, RemainingDefenders;
    if waves != [] {
      var wave, rest := waves[0], waves[1..];
      var u := Attack(t, wave, attacker, shielded);
      if u.owner == attacker {
        ReinforcingWaves(u, rest, attacker, shielded);
      } else {
        WaveThenRest(t, wave, Sum(rest), attacker, shielded);
        WavesNeverBeatOneArmy(u, rest, attacker, shielded);
      }
    }
  }

  /** The two-wave case. */
  lemma WaveThenRest(t: Territory, wave: nat, rest: nat, attacker: Team, shielded: bool)
    requires t.owner != attacker && t.units >= 0 && Attack(t, wave, attacker, shielded).owner != attacker
    ensures
      var u := Attack(t, wave, attacker, shielded);
      var split := Attack(u, rest, attacker, shielded);
      var whole := Attack(t, wave + rest, attacker, shielded);
      && u.units >= 0
      && (split.owner == attacker ==> whole.owner == attacker && whole.units >= split.units)
      && (split.owner != attacker && whole.owner != attacker ==> whole.units <= split.units)
  {
    hide DefenseQuarters, DefenseStrength, RemainingDefenders;
    var q := DefenseQuarters(t.kind, shielded);
    var s := DefenseStrength(t.units, q);
    var u := Attack(t, wave, attacker, shielded);
    FailedWave(t, wave, attacker, shielded);
    var left := DefenseStrength(u.units, q);
    if wave > 0 {
      HostileArrivalCosts(t, wave, attacker, shielded);
    }
    if rest <= left && wave + rest <= s {
      RemainingWorth(s - wave - rest, left - rest, q);
    }
  }

  // ----- In whole multipliers

  /** What one unit of the tower's defence counts: 5/4 in a fortress, twice as much under a shield. */
  function DefenceOf(kind: Kind, shielded: bool): (r: real)
    ensures r > 0.0
  {
    (if kind == Fortress then 1.25 else 1.0) * (if shielded then 2.0 else 1.0)
  }

  lemma CeilDivIsCeil(x: int, d: int)
    requires d > 0
    ensures CeilDiv(x, d) == Ceil(x as real / d as real)
  {
    var k := (-x) / d;
    DivisionBounds(-x, d);
    QuotientBounds(x, d, k);
    FloorIs(-(x as real / d as real), k);
  }

  lemma DivisionBounds(x: int, d: int)
    requires d > 0
    ensures (x / d) * d <= x < (x / d + 1) * d
  {
  }

  lemma FloorIs(y: real, k: int)
    requires k as real <= y < k as real + 1.0
    ensures y.Floor == k
  {
  }

  lemma QuotientBounds(x: int, d: int, k: int)
    requires d > 0 && k * d <= -x < (k + 1) * d
    ensures k as real <= -(x as real / d as real) < k as real + 1.0
  {
    var e, y := d as real, -(x as real / d as real);
    assert (k * d) as real == k as real * e && ((k + 1) * d) as real == (k as real + 1.0) * e;
    assert y * e == -(x as real);
    Cancelled(k as real, y, e);
    Cancelled(y, k as real + 1.0, e);
  }

  lemma Cancelled(a: real, b: real, e: real)
    requires e > 0.0
    ensures a * e <= b * e ==> a <= b
    ensures a * e < b * e ==> a < b
  {
    if a > b {
      assert (a - b) * e > 0.0;
    }
  }

  /** An attack breaks a tower exactly when it exceeds the defenders times their defence, rounded up, and
      keeps what exceeds it; one that fails leaves the defence that is left, in defenders, rounded up. */
  lemma ArrivalExact(t: Territory, incoming: int, attacker: Team, shielded: bool)
    requires incoming > 0 && attacker != t.owner
    ensures
      var o, defence := ResolveArrival(t, incoming, attacker, shielded), DefenceOf(t.kind, shielded);
      var strength := Ceil(t.units as real * defence);
      o == if incoming > strength then Outcome(attacker, incoming - strength, true)
           else Outcome(t.owner, Ceil((strength - incoming) as real / defence), false)
  {
    hide Ceil, CeilDiv;
    var q, defence := DefenseQuarters(t.kind, shielded), DefenceOf(t.kind, shielded);
    assert q as real == 4.0 * defence;
    CeilDivIsCeil(t.units * q, 4);
    assert (t.units * q) as real / 4.0 == t.units as real * defence;
    var left := DefenseStrength(t.units, q) - incoming;
    CeilDivIsCeil(left * 4, q);
    QuartersCancel(left, q, defence);
  }

  lemma QuartersCancel(left: int, q: int, defence: real)
    requires q > 0 && defence > 0.0 && q as real == 4.0 * defence
    ensures (left * 4) as real / q as real == left as real / defence
  {
    var x := left as real / defence;
    assert x * defence == left as real;
    assert x * (q as real) == 4.0 * (x * defence);
  }
}
