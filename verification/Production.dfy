/** Production: bounds of the accumulators and of the recovery, and how far the epsilon snapping
    can drift from the exact rate. */
module Production {
  import opened Text
  import opened World
  import opened Routes
  import opened BattleRules

  // ----- One tower

  lemma SnapBounds(raw: real)
    requires 0.0 <= raw
    ensures 0.0 <= Snap(raw) && Abs(Snap(raw) - raw) < EPSILON
  {
  }

  lemma ProduceTowerAccounts(t: Territory, accumulated: real, increment: real)
    requires 0.0 <= accumulated < 1.0 && 0.0 <= increment
    ensures
      var (units, left) := ProduceTower(t, accumulated, increment);
      && 0.0 <= left < 1.0
      && (Produces(t) && units < t.maxUnits ==>
            Abs((units - t.units) as real + (left - accumulated) - increment) < EPSILON)
  {
    SnapBounds(accumulated + increment);
  }

  // ----- Recovery after a capture

  /** Production recovers from one half at the capture to the full rate three seconds later. */
  lemma RecoveryRange(elapsed: real, readyAt: int)
    ensures
      var m := CaptureMultiplier(elapsed, readyAt);
      && 0.5 <= m <= 1.0
      && (m == 1.0 <==> readyAt <= Milliseconds(elapsed))
      && (m == 0.5 <==> readyAt >= Milliseconds(elapsed) + CAPTURE_RECOVERY_MS)
  {
    var remaining := MaxReal(0.0, (readyAt - Milliseconds(elapsed)) as real);
    assert CAPTURE_RECOVERY_MS as real == 3000.0;
    assert remaining / 3000.0 >= 1.0 <==> remaining >= 3000.0;
  }

  // ----- The whole step

  ghost predicate UnitInterval(acc: Accumulators) {
    forall id :: id in acc ==> 0.0 <= acc[id] < 1.0
  }

  lemma IncrementNonNegative(g: GameState, t: Territory, id: Id, delta: real)
    requires t.productionRate > 0.0 && 0.0 <= delta
    ensures Increment(t, RecoveryMultiplier(g, id), delta) >= 0.0
  {
    RecoveryRange(g.elapsed, ReadyAt(g, id));
    var m := RecoveryMultiplier(g, id);
    var p := t.productionRate * ProductionMultiplier(t.kind);
    assert p > 0.0 && m > 0.0;
    assert p * m > 0.0;
    assert p * m * delta >= 0.0;
  }

  lemma {:induction false} ProduceKeepsInterval(g: GameState, acc: Accumulators, delta: real, order: seq<Id>)
    requires UnitInterval(acc) && 0.0 <= delta
    ensures UnitInterval(Produce(g, acc, delta, order).acc)
  {
    if order != [] {
      var front, id := order[..|order| - 1], order[|order| - 1];
      ProduceKeepsInterval(g, acc, delta, front);
      var p := Produce(g, acc, delta, front);
      var t := At(p.g.territories, id);
      if Produces(t) {
        IncrementNonNegative(p.g, t, id, delta);
        ProduceTowerAccounts(t, Accumulated(acc, id), Increment(t, RecoveryMultiplier(p.g, id), delta));
      }
    }
  }

  lemma {:induction false} MarchKeepsInterval(p: Phase, armies: seq<Army>, delta: real)
    requires UnitInterval(p.acc)
    ensures UnitInterval(HandleArmies(p, armies, delta).acc)
  {
    if armies != [] {
      MarchKeepsInterval(p, armies[..|armies| - 1], delta);
      HandleArmyAccumulators(HandleArmies(p, armies[..|armies| - 1], delta), armies[|armies| - 1], delta);
    }
  }

  lemma HandleArmyAccumulators(p: Phase, a: Army, delta: real)
    requires UnitInterval(p.acc)
    ensures UnitInterval(HandleArmy(p, a, delta).acc)
  {
    hide MoveArmy, ArrivalOutcome, CountCapture, Milliseconds, ReadyAt, Fought;
  }

  /** Every step keeps every accumulator in [0, 1). */
  lemma StepKeepsInterval(g: GameState, acc: Accumulators, delta: real)
    requires UnitInterval(acc) && 0.0 <= delta
    ensures UnitInterval(Step(g, acc, delta).acc)
  {
    if g.status == Playing {
      MarchKeepsInterval(Phase(Tick(g, delta).(armies := []), acc), g.armies, delta);
      var m := Marched(g, acc, delta);
      ProduceKeepsInterval(m.g, m.acc, delta, g.board.order);
    }
  }

  /** Production writes garrisons and nothing else of the state. */
  lemma {:induction false} ProduceWritesTowers(g: GameState, acc: Accumulators, delta: real, order: seq<Id>)
    ensures
      var h := Produce(g, acc, delta, order).g;
      h.(territories := g.territories) == g && h.territories.Keys == g.territories.Keys
  {
    hide ProduceAt;
    if order != [] {
      ProduceWritesTowers(g, acc, delta, order[..|order| - 1]);
      ProduceOneWritesTowers(Produce(g, acc, delta, order[..|order| - 1]), acc, delta, order[|order| - 1]);
    }
  }

  lemma ProduceOneWritesTowers(p: Phase, acc: Accumulators, delta: real, id: Id)
    ensures
      var h := ProduceOne(p, acc, delta, id).g;
      h.(territories := p.g.territories) == p.g && h.territories.Keys == p.g.territories.Keys
    ensures
      var q := ProduceOne(p, acc, delta, id);
      && At(q.g.territories, id).units == ProduceAt(p.g, acc, delta, id).0
        && q.acc == p.acc[id := ProduceAt(p.g, acc, delta, id).1]
      && forall x :: x != id ==> At(q.g.territories, x) == At(p.g.territories, x)
  {
    hide RecoveryMultiplier, Increment, Snap;
  }

  /** What a step produces at one tower is that tower's own production: no other tower matters. */
  lemma {:induction false} ProduceIsLocal(g: GameState, acc: Accumulators, delta: real, order: seq<Id>, id: Id)
    requires Simple(order)
    ensures
      var p := Produce(g, acc, delta, order);
      if id in order then
        id in p.acc && (At(p.g.territories, id).units, p.acc[id]) == ProduceAt(g, acc, delta, id)
      else At(p.g.territories, id) == At(g.territories, id) && id !in p.acc
  {
    hide ProduceTower, RecoveryMultiplier, Increment, ProduceOne;
    if order != [] {
      var front, last := order[..|order| - 1], order[|order| - 1];
      assert order == front + [last];
      assert last !in front;
      ProduceIsLocal(g, acc, delta, front, id);
      var p := Produce(g, acc, delta, front);
      ProduceOneWritesTowers(p, acc, delta, last);
      if id == last {
        ProduceWritesTowers(g, acc, delta, front);
        SameRecovery(g, p.g, id);
      }
    }
  }

  lemma SameRecovery(g: GameState, h: GameState, id: Id)
    requires h.(territories := g.territories) == g
    ensures RecoveryMultiplier(g, id) == RecoveryMultiplier(h, id)
  {
  }

  // ----- Recovery deadlines over a run

  /** The clock sits on the nanosecond grid the rules round to, and no tower is ready later than a
      full recovery from now. */
  ghost predicate RecoveryBounded(g: GameState) {
    && g.elapsed == OnGrid(g.elapsed)
    && forall id :: id in g.readyAt ==> g.readyAt[id] <= Milliseconds(g.elapsed) + CAPTURE_RECOVERY_MS
  }

  lemma RoundMonotone(x: real, y: real)
    requires x <= y
    ensures Round(x) <= Round(y)
  {
  }

  function OnGrid(x: real): real {
    Round(x * 1000000000.0) as real / 1000000000.0
  }

  lemma GridIsIdempotent(x: real)
    ensures OnGrid(OnGrid(x)) == OnGrid(x)
  {
    var k := Round(x * 1000000000.0);
    assert OnGrid(x) * 1000000000.0 == k as real;
    assert Round(k as real) == k;
  }

  lemma GridIsMonotone(x: real, y: real)
    requires x <= y
    ensures OnGrid(x) <= OnGrid(y) && Milliseconds(x) <= Milliseconds(y)
  {
    RoundMonotone(x * 1000000000.0, y * 1000000000.0);
    RoundMonotone(x * 1000.0, y * 1000.0);
  }

  lemma ClockAdvances(g: GameState, delta: real)
    requires HasCaptureRecovery(g.rules) && RecoveryBounded(g) && 0.0 <= delta
    ensures g.elapsed <= Tick(g, delta).elapsed && RecoveryBounded(Tick(g, delta))
  {
    hide Round, Milliseconds;
    GridIsMonotone(g.elapsed, g.elapsed + delta);
    GridIsIdempotent(g.elapsed + delta);
    GridIsMonotone(g.elapsed, Tick(g, delta).elapsed);
  }

  lemma {:induction false} MarchKeepsRecovery(p: Phase, armies: seq<Army>, delta: real)
    requires RecoveryBounded(p.g)
    ensures RecoveryBounded(HandleArmies(p, armies, delta).g)
  {
    if armies != [] {
      MarchKeepsRecovery(p, armies[..|armies| - 1], delta);
      HandleArmyRecovery(HandleArmies(p, armies[..|armies| - 1], delta), armies[|armies| - 1], delta);
    }
  }

  lemma HandleArmyRecovery(p: Phase, a: Army, delta: real)
    requires RecoveryBounded(p.g)
    ensures RecoveryBounded(HandleArmy(p, a, delta).g)
  {
    hide MoveArmy, ArrivalOutcome, CountCapture, Milliseconds;
  }

  /** No step ever leaves a tower with more than a full recovery to wait. */
  lemma StepKeepsRecovery(g: GameState, acc: Accumulators, delta: real)
    requires HasCaptureRecovery(g.rules) && RecoveryBounded(g) && 0.0 <= delta
    ensures RecoveryBounded(Step(g, acc, delta).g)
  {
    if g.status == Playing {
      ClockAdvances(g, delta);
      MarchKeepsRecovery(Phase(Tick(g, delta).(armies := []), acc), g.armies, delta);
      var m := Marched(g, acc, delta);
      ProduceWritesTowers(m.g, m.acc, delta, g.board.order);
    }
  }
}
