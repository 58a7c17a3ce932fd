/** One step of a battle, said army by army and tower by tower. */
module StepLaws {
  import opened World
  import opened Text
  import opened Routes
  import opened March
  import opened Combat
  import opened BattleRules
  import opened BattleInvariants
  import opened Production
  import opened ProductionRuns
  import opened Roles
  import opened Verdicts

  // ----- One army of the step

  /** How long the army still needs, and where it will stop. */
  function Needs(g: GameState, a: Army): real {
    if UsesTacticalRules(g.rules) then ArrivalSeconds(g.board, a, g.territories) else (1.0 - a.progress) / a.speed
  }

  function Bound(g: GameState, a: Army): Id {
    if UsesTacticalRules(g.rules) then ArmyDestination(a, g.territories) else a.target
  }

  /** The army goes on, and needs so much less to the same tower. */
  ghost predicate GoesOn(p: Phase, q: Phase, a: Army, delta: real) {
    exists m :: q == p.(g := p.g.(armies := p.g.armies + [m])) && Farther(p.g, a, m, delta)
  }

  ghost predicate Farther(g: GameState, a: Army, m: Army, delta: real) {
    && m.(target := a.target, progress := a.progress, speed := a.speed, leg := a.leg) == a
    && Bound(g, m) == Bound(g, a) && Needs(g, m) == Needs(g, a) - delta
  }

  /** The army fights or reinforces the tower; a capture is counted for its side. */
  ghost predicate Lands(p: Phase, q: Phase, a: Army, id: Id) {
    id in p.g.territories
    && var t, shielded := p.g.territories[id], id in p.g.shieldedUntil
         && Milliseconds(p.g.elapsed) < p.g.shieldedUntil[id];
       var o := ResolveArrival(t, a.units, a.owner, shielded);
       && q.g == p.g.(territories := p.g.territories[id := t.(owner := o.owner, units := o.units)],
                      stats := q.g.stats, readyAt := q.g.readyAt)
       && if o.captured then CaptureCounted(p.g.stats, q.g.stats, a.owner) && Recovers(p, q, id)
          else q.g.stats == p.g.stats && q.g.readyAt == p.g.readyAt && q.acc == p.acc
  }

  ghost predicate CaptureCounted(before: Stats, after: Stats, owner: Team) {
    if owner == Player then after == before.(playerCaptures := before.playerCaptures + 1)
    else after == before.(enemyCaptures := before.enemyCaptures + 1)
  }

  /** From v2 on a captured tower starts from nothing, and recovers for three seconds unless it does so
      already. */
  ghost predicate Recovers(p: Phase, q: Phase, id: Id) {
    if p.g.rules < 2 || p.g.rules > 4 then q.g.readyAt == p.g.readyAt && q.acc == p.acc
    else
      && q.acc == p.acc[id := 0.0]
      && q.g.readyAt == if ReadyAt(p.g, id) > Milliseconds(p.g.elapsed) then p.g.readyAt
         else p.g.readyAt[id := Milliseconds(p.g.elapsed) + 3000]
  }

  ghost predicate Handled(p: Phase, q: Phase, a: Army, delta: real) {
    if delta < Needs(p.g, a) then GoesOn(p, q, a, delta) else Lands(p, q, a, Bound(p.g, a))
  }

  lemma {:induction false} AdvanceFrame(b: Board, a: Army, territories: map<Id, Territory>, delta: real)
    ensures
      var m := Advance(b, a, territories, delta).0;
      m.(target := a.target, progress := a.progress, speed := a.speed, leg := a.leg) == a
    decreases |a.route| - a.leg
  {
    if Progress(a, delta) >= 1.0 && !StopsHere(a, territories) {
      AdvanceFrame(b, NextLeg(b, a, territories), territories, TimeLeft(a, delta));
    }
  }

  /** The mover ends its march exactly when the time it needs has passed. */
  lemma MoveIs(g: GameState, a: Army, delta: real)
    requires GoodArmy(g.board, g.rules, g.territories.Keys, a)
    ensures
      var (m, arrived) := MoveArmy(g, a, delta);
      && (arrived <==> delta >= Needs(g, a))
      && (arrived ==> m.target == Bound(g, a) && m.units == a.units && m.owner == a.owner && m.target in g.territories)
      && (!arrived ==> Farther(g, a, m, delta))
  {
    hide Advance, ArrivalSeconds, ArmyDestination;
    MoveKeepsGood(g, a, delta);
    if UsesTacticalRules(g.rules) {
      AdvanceFrame(g.board, a, g.territories, delta);
      AdvanceMatchesPrediction(g.board, a, g.territories, delta);
    } else {
      MoveTime(a, delta);
      MovedTimeLeft(a, delta);
    }
  }

  lemma LandsAs(p: Phase, a: Army, m: Army)
    requires a.owner != Neutral && m.units == a.units && m.owner == a.owner && m.target in p.g.territories
    ensures Lands(p, Arrive(p, m), a, m.target)
  {
    hide ResolveArrival, Milliseconds;
    CapturesForItself(p.g.territories[m.target], a.units, a.owner, Shielded(p.g, m.target));
  }

  lemma CapturesForItself(t: Territory, units: int, owner: Team, shielded: bool)
    ensures
      var o := ResolveArrival(t, units, owner, shielded);
      o.captured ==> o.owner == owner
  {
  }

  lemma HandledAs(p: Phase, a: Army, delta: real)
    requires GoodArmy(p.g.board, p.g.rules, p.g.territories.Keys, a)
    ensures Handled(p, HandleArmy(p, a, delta), a, delta)
  {
    hide MoveArmy, Needs, Bound, Arrive, Lands;
    MoveIs(p.g, a, delta);
    var (m, arrived) := MoveArmy(p.g, a, delta);
    if arrived {
      LandsAs(p, a, m);
    } else {
      assert Farther(p.g, a, m, delta);
    }
  }

  // ----- All armies of the step

  /** The clock runs on by `delta`, from v2 on to the nearest nanosecond, and no army has been handled. */
  ghost predicate Started(g: GameState, acc: Accumulators, delta: real, p: Phase) {
    && p == Phase(g.(elapsed := p.g.elapsed, stats := g.stats.(duration := p.g.elapsed), armies := []), acc)
    && if g.rules < 2 || g.rules > 4 then p.g.elapsed == g.elapsed + delta
       else
         && -0.0000000005 <= p.g.elapsed - (g.elapsed + delta) <= 0.0000000005
         && var nanoseconds := p.g.elapsed * 1000000000.0; nanoseconds == nanoseconds.Floor as real
  }

  ghost predicate Marches(g: GameState, acc: Accumulators, delta: real, states: seq<Phase>) {
    && |states| == |g.armies| + 1 && Started(g, acc, delta, states[0])
    && forall i :: 0 <= i < |g.armies| ==> Handled(states[i], states[i + 1], g.armies[i], delta)
  }

  lemma StartsSo(g: GameState, acc: Accumulators, delta: real)
    ensures Started(g, acc, delta, Phase(Tick(g, delta).(armies := []), acc))
  {
    var x := (g.elapsed + delta) * 1000000000.0;
    var n := Round(x);
    assert -0.5 <= n as real - x <= 0.5;
    assert n as real / 1000000000.0 * 1000000000.0 == n as real;
    assert Tick(g, delta).elapsed == if HasCaptureRecovery(g.rules) then n as real / 1000000000.0
      else g.elapsed + delta;
  }

  lemma MarchIs(g: GameState, acc: Accumulators, delta: real)
    requires GoodArmies(g)
    ensures exists states :: Marches(g, acc, delta, states) && states[|g.armies|] == Marched(g, acc, delta)
  {
    hide HandleArmies, HandleArmy, Handled, Tick, GoodArmy, Started;
    var start := Phase(Tick(g, delta).(armies := []), acc);
    StartsSo(g, acc, delta);
    TickFrame(g, delta);
    var states := seq(|g.armies| + 1, i requires 0 <= i <= |g.armies| => HandleArmies(start, g.armies[..i], delta));
    forall i | 0 <= i < |g.armies| ensures Handled(states[i], states[i + 1], g.armies[i], delta) {
      HandleArmiesFrame(start, g.armies[..i], delta);
      assert g.armies[i] in g.armies;
      HandledAs(states[i], g.armies[i], delta);
      OneMore(start, g.armies, delta, i);
    }
    NoArmies(start, delta);
    assert g.armies[..0] == [] && g.armies[..|g.armies|] == g.armies;
    assert Marches(g, acc, delta, states);
  }

  lemma TickFrame(g: GameState, delta: real)
    ensures
      var h := Tick(g, delta);
      h.board == g.board && h.rules == g.rules && h.territories == g.territories
  {
  }

  lemma OneMore(p: Phase, armies: seq<Army>, delta: real, i: nat)
    requires i < |armies|
    ensures HandleArmies(p, armies[..i + 1], delta) == HandleArmy(HandleArmies(p, armies[..i], delta), armies[i], delta)
  {
    hide HandleArmy;
    assert armies[..i + 1][..i] == armies[..i];
  }

  lemma NoArmies(p: Phase, delta: real)
    ensures HandleArmies(p, [], delta) == p
  {
  }

  // ----- Production

  /** What is due at the tower with what it had accumulated: its rate, a quarter more for a barracks, at
      the part of it that it has recovered. */
  function DueAt(m: Phase, delta: real, id: Id): real {
    var t := At(m.g.territories, id);
    Accumulated(m.acc, id) + t.productionRate * (if t.kind == Barracks then 1.25 else 1.0) * Recovered(m.g, id) * delta
  }

  /** Whole units up to capacity, the rest stays accumulated; what is as good as whole is taken for it. */
  ghost predicate Yields(due: real, before: Territory, after: Territory, left: real) {
    if before.owner == Neutral || before.productionRate <= 0.0 || before.units >= before.maxUnits
    then after == before && left == 0.0
    else exists x ::
      && AsGoodAs(x, due) && left == x - Max(0, x.Floor) as real
      && after == before.(units := Min(before.maxUnits, before.units + Max(0, x.Floor)))
  }

  predicate AsGoodAs(x: real, due: real) {
    if x == x.Floor as real then -EPSILON < x - due < EPSILON else x == due
  }

  ghost predicate Generated(m: Phase, q: Phase, delta: real) {
    && q.g == m.g.(territories := q.g.territories, status := q.g.status)
    && q.g.territories.Keys == m.g.territories.Keys && q.acc.Keys == m.g.territories.Keys
    && forall id :: id in m.g.territories ==>
         Yields(DueAt(m, delta, id), m.g.territories[id], q.g.territories[id], q.acc[id])
  }

  lemma YieldsSo(t: Territory, accumulated: real, increment: real)
    ensures
      var (units, left) := ProduceTower(t, accumulated, increment);
      Yields(accumulated + increment, t, t.(units := units), left)
  {
    if Produces(t) {
      assert AsGoodAs(Snap(accumulated + increment), accumulated + increment);
    }
  }

  lemma GeneratedAt(m: Phase, delta: real, id: Id)
    requires GoodBoard(m.g) && id in m.g.territories
    ensures
      var q := Produce(m.g, m.acc, delta, m.g.board.order);
      && id in q.g.territories && id in q.acc
      && Yields(DueAt(m, delta, id), m.g.territories[id], q.g.territories[id], q.acc[id])
  {
    hide Produce, ProduceTower, Yields, Recovered, RecoveryMultiplier;
    var q := Produce(m.g, m.acc, delta, m.g.board.order);
    ProduceIsLocal(m.g, m.acc, delta, m.g.board.order, id);
    ProduceWritesTowers(m.g, m.acc, delta, m.g.board.order);
    ProducesUnits(m.g, m.acc, delta, m.g.board.order, id);
    var t := m.g.territories[id];
    var increment := Increment(t, RecoveryMultiplier(m.g, id), delta);
    YieldsSo(t, Accumulated(m.acc, id), increment);
    RecoveredIs(m.g, id);
    assert ProductionMultiplier(t.kind) == if t.kind == Barracks then 1.25 else 1.0;
    assert DueAt(m, delta, id) == Accumulated(m.acc, id) + increment;
  }

  lemma {:induction false} ProducesUnits(g: GameState, acc: Accumulators, delta: real, order: seq<Id>, id: Id)
    ensures
      var h := Produce(g, acc, delta, order).g;
      At(h.territories, id) == At(g.territories, id).(units := At(h.territories, id).units)
  {
    hide ProduceAt;
    if order != [] {
      ProducesUnits(g, acc, delta, order[..|order| - 1], id);
    }
  }

  lemma {:induction false} LeftKeys(g: GameState, acc: Accumulators, delta: real, order: seq<Id>)
    ensures forall id :: id in Produce(g, acc, delta, order).acc <==> id in order
  {
    hide ProduceAt;
    if order != [] {
      var front := order[..|order| - 1];
      assert order == front + [order[|order| - 1]];
      LeftKeys(g, acc, delta, front);
    }
  }

  lemma GeneratesSo(m: Phase, delta: real, status: Status)
    requires GoodBoard(m.g)
    ensures
      var q := Produce(m.g, m.acc, delta, m.g.board.order);
      Generated(m, q.(g := q.g.(status := status)), delta)
  {
    hide Produce, Yields, DueAt;
    ProduceWritesTowers(m.g, m.acc, delta, m.g.board.order);
    LeftKeys(m.g, m.acc, delta, m.g.board.order);
    forall id | id in m.g.territories
      ensures
        var q := Produce(m.g, m.acc, delta, m.g.board.order);
        && id in q.g.territories && id in q.acc
        && Yields(DueAt(m, delta, id), m.g.territories[id], q.g.territories[id], q.acc[id])
    {
      GeneratedAt(m, delta, id);
    }
  }

  // ----- The whole step

  /** The armies in the order of the list, then production, then the ruling. */
  ghost predicate Stepped(g: GameState, acc: Accumulators, delta: real, q: Phase) {
    && (exists states :: Marches(g, acc, delta, states) && Generated(states[|g.armies|], q, delta))
    && q.g.status == Ruling(q.g)
  }

  lemma StepIs(g: GameState, acc: Accumulators, delta: real)
    requires GoodBoard(g) && GoodArmies(g) && g.status == Playing
    ensures Stepped(g, acc, delta, Step(g, acc, delta))
  {
    hide GoodArmies, Started, Handled, Generated, Ruling, Marched, Produce, Verdict;
    MarchIs(g, acc, delta);
    StepRules(g, acc, delta);
    var m := Marched(g, acc, delta);
    MarchedBoard(g, acc, delta);
    var states :| Marches(g, acc, delta, states) && states[|g.armies|] == m;
    GeneratesSo(m, delta, Verdict(Produced(g, acc, delta).g));
  }

  lemma MarchedBoard(g: GameState, acc: Accumulators, delta: real)
    requires GoodBoard(g)
    ensures GoodBoard(Marched(g, acc, delta).g) && Marched(g, acc, delta).g.board == g.board
  {
    hide HandleArmies;
    TickFrame(g, delta);
    HandleArmiesFrame(Phase(Tick(g, delta).(armies := []), acc), g.armies, delta);
  }
}
