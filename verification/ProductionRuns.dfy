/** Production over whole battles: what a tower grants follows its exact rate within one epsilon a
    step, and the bounds of accumulators and recoveries hold throughout. */
module ProductionRuns {
  import opened Text
  import opened World
  import opened Routes
  import opened DispatchRoute
  import opened Combat
  import opened BattleRules
  import opened BattleInvariants
  import opened Roles
  import opened Production

  // ----- A tower that is left alone

  /** No army of the step reaches the tower. */
  ghost predicate Spared(p: Phase, armies: seq<Army>, delta: real, id: Id) {
    forall i :: 0 <= i < |armies| ==>
      var (moved, arrived) := MoveArmy(HandleArmies(p, armies[..i], delta).g, armies[i], delta);
      !(arrived && moved.target == id)
  }

  function Start(p: Phase, delta: real): Phase {
    Phase(Tick(p.g, delta).(armies := []), p.acc)
  }

  /** The command takes nothing from the tower and adds nothing to it but production. */
  ghost predicate LeavesAlone(p: Phase, c: Command, id: Id) {
    match c
    case Pass(delta) => 0.0 <= delta && (p.g.status == Playing ==> Spared(Start(p, delta), p.g.armies, delta, id))
    case _ => c.source != id
  }

  ghost predicate LeftAlone(p: Phase, commands: seq<Command>, id: Id) {
    forall i :: 0 <= i < |commands| ==> LeavesAlone(Run(p, commands[..i]), commands[i], id)
  }

  /** The part of its rate at which the tower works: all of it, or under rules with capture recovery half
      of it at three seconds or more before the recovery's end and linearly more since. */
  function Recovered(g: GameState, id: Id): real {
    var left := ReadyAt(g, id) - Milliseconds(g.elapsed);
    if g.rules < 2 || g.rules > 4 || left <= 0 then 1.0
    else if left >= 3000 then 0.5
    else 1.0 - left as real / 6000.0
  }

  /** What the tower's rate yields in one command, unrounded; a barracks works a quarter faster. */
  function Yield(p: Phase, c: Command, id: Id): real {
    var t := At(p.g.territories, id);
    if c.Pass? && p.g.status == Playing then
      t.productionRate * (if t.kind == Barracks then 1.25 else 1.0) * Recovered(Tick(p.g, c.delta), id) * c.delta
    else 0.0
  }

  lemma RecoveredIs(g: GameState, id: Id)
    ensures Recovered(g, id) == RecoveryMultiplier(g, id)
  {
    hide Milliseconds, ReadyAt;
    var left := ReadyAt(g, id) - Milliseconds(g.elapsed);
    var x := left as real / 3000.0;
    assert left as real / 6000.0 == 0.5 * x;
    assert CAPTURE_RECOVERY_MS as real == 3000.0;
  }

  lemma YieldIs(p: Phase, delta: real, id: Id)
    requires p.g.status == Playing
    ensures Yield(p, Pass(delta), id) ==
      Increment(At(p.g.territories, id), RecoveryMultiplier(Tick(p.g, delta), id), delta)
  {
    hide Tick, Recovered, RecoveryMultiplier;
    RecoveredIs(Tick(p.g, delta), id);
    var kind := At(p.g.territories, id).kind;
    assert ProductionMultiplier(kind) == if kind == Barracks then 1.25 else 1.0;
  }

  /** A capture that meets no recovery under way halves the tower's rate at once and empties its
      accumulator; the full rate is back exactly three seconds later. */
  lemma CaptureRecovers(p: Phase, a: Army, h: GameState)
    requires HasCaptureRecovery(p.g.rules) && a.target in p.g.territories && ArrivalOutcome(p.g, a).captured
    requires ReadyAt(p.g, a.target) <= Milliseconds(p.g.elapsed)
    requires h.rules == p.g.rules && ReadyAt(h, a.target) == ReadyAt(Arrive(p, a).g, a.target)
    ensures Accumulated(Arrive(p, a).acc, a.target) == 0.0
    ensures
      var since := Milliseconds(h.elapsed) - Milliseconds(p.g.elapsed);
      && (Recovered(h, a.target) == 1.0 <==> since >= 3000) && (Recovered(h, a.target) == 0.5 <==> since <= 0)
  {
    hide Milliseconds, ArrivalOutcome, CountCapture, After;
    var since := Milliseconds(h.elapsed) - Milliseconds(p.g.elapsed);
    assert ReadyAt(h, a.target) == Milliseconds(p.g.elapsed) + 3000;
    assert 0 < since < 3000 ==> 0.5 < 1.0 - (3000 - since) as real / 6000.0 < 1.0;
  }

  function AllYield(p: Phase, commands: seq<Command>, id: Id): real {
    if commands == [] then 0.0
    else
      var front := commands[..|commands| - 1];
      AllYield(p, front, id) + Yield(Run(p, front), commands[|commands| - 1], id)
  }

  function Steps(commands: seq<Command>): nat {
    if commands == [] then 0 else Steps(commands[..|commands| - 1]) + (if commands[|commands| - 1].Pass? then 1 else 0)
  }

  /** Tower, accumulator and recovery of `id` are the same in both. */
  ghost predicate SameAt(p: Phase, q: Phase, id: Id) {
    && At(q.g.territories, id) == At(p.g.territories, id) && Accumulated(q.acc, id) == Accumulated(p.acc, id)
    && ReadyAt(q.g, id) == ReadyAt(p.g, id) && q.g.rules == p.g.rules && q.g.elapsed == p.g.elapsed
      && q.g.board == p.g.board
  }

  lemma ArriveElsewhere(p: Phase, a: Army, id: Id)
    requires a.target != id
    ensures SameAt(p, Arrive(p, a), id)
  {
    hide ArrivalOutcome, CountCapture, After, Milliseconds;
  }

  lemma {:induction false} SparedStays(p: Phase, armies: seq<Army>, delta: real, id: Id)
    requires Spared(p, armies, delta, id)
    ensures SameAt(p, HandleArmies(p, armies, delta), id)
  {
    hide MoveArmy, Arrive;
    if armies != [] {
      var front, a := armies[..|armies| - 1], armies[|armies| - 1];
      forall i | 0 <= i < |front| ensures front[..i] == armies[..i] && front[i] == armies[i] {
      }
      assert Spared(p, front, delta, id);
      SparedStays(p, front, delta, id);
      var q := HandleArmies(p, front, delta);
      assert armies[..|front|] == front;
      if MoveArmy(q.g, a, delta).1 {
        ArriveElsewhere(q, MoveArmy(q.g, a, delta).0, id);
      }
    }
  }

  /** What one step does to a tower no army reaches. */
  lemma SparedStep(p: Phase, delta: real, id: Id)
    requires Simple(p.g.board.order) && id in p.g.board.order && p.g.status == Playing
      && Spared(Start(p, delta), p.g.armies, delta, id)
    ensures
      var q := Step(p.g, p.acc, delta);
      var (units, left) := ProduceTower(At(p.g.territories, id), Accumulated(p.acc, id), Yield(p, Pass(delta), id));
      At(q.g.territories, id) == At(p.g.territories, id).(units := units) && Accumulated(q.acc, id) == left
  {
    hide HandleArmies, Spared, ProduceTower, Increment, RecoveryMultiplier, Tick, Verdict, Yield;
    YieldIs(p, delta, id);
    SparedStays(Start(p, delta), p.g.armies, delta, id);
    StartSame(p, delta, id);
    var m := Marched(p.g, p.acc, delta);
    SameRate(Tick(p.g, delta), m.g, id);
    ProduceIsLocal(m.g, m.acc, delta, p.g.board.order, id);
    ProducedTower(m.g, m.acc, delta, p.g.board.order, id);
  }

  lemma StartSame(p: Phase, delta: real, id: Id)
    ensures
      var s := Start(p, delta);
      At(s.g.territories, id) == At(p.g.territories, id) && s.acc == p.acc && s.g == Tick(p.g, delta).(armies := [])
  {
    hide Round;
  }

  lemma SameRate(g: GameState, h: GameState, id: Id)
    requires ReadyAt(h, id) == ReadyAt(g, id) && h.rules == g.rules && h.elapsed == g.elapsed
    ensures RecoveryMultiplier(h, id) == RecoveryMultiplier(g, id)
  {
  }

  /** Production changes the garrison of a tower only. */
  lemma {:induction false} ProducedTower(g: GameState, acc: Accumulators, delta: real, order: seq<Id>, id: Id)
    ensures
      var t := At(Produce(g, acc, delta, order).g.territories, id);
      t == At(g.territories, id).(units := t.units)
  {
    hide ProduceAt;
    if order != [] {
      ProducedTower(g, acc, delta, order[..|order| - 1], id);
    }
  }

  /** A tower whose state between two moments changed by production alone, off its exact yield by no
      more than `slack`. */
  predicate GrewBy(t: Territory, a: real, u: Territory, b: real, exact: real, slack: real) {
    && u.(units := t.units) == t && t.units <= u.units <= Max(t.units, t.maxUnits) && 0.0 <= b < 1.0
    && (Produces(t) && u.units < t.maxUnits ==> Abs((u.units - t.units) as real + (b - a) - exact) <= slack)
  }

  lemma GrewOn(t: Territory, a: real, u: Territory, b: real, exact: real, slack: real, more: real)
    requires GrewBy(t, a, u, b, exact, slack) && 0.0 <= more
    ensures
      var (units, left) := ProduceTower(u, b, more);
      GrewBy(t, a, u.(units := units), left, exact + more, slack + EPSILON)
  {
    hide Snap;
    ProduceTowerAccounts(u, b, more);
    ProduceTowerBounds(u, b, more);
  }

  lemma YieldNonNegative(p: Phase, delta: real, id: Id)
    requires At(p.g.territories, id).productionRate >= 0.0 && 0.0 <= delta
    ensures 0.0 <= Yield(p, Pass(delta), id)
  {
    hide Tick, Recovered;
    var t := At(p.g.territories, id);
    if p.g.status == Playing {
      YieldIs(p, delta, id);
      if t.productionRate > 0.0 {
        IncrementNonNegative(Tick(p.g, delta), t, id, delta);
      }
    }
  }

  /** What an order leaves alone: clock, recoveries, and every tower but its source. */
  ghost predicate OrderFrame(g: GameState, h: GameState, source: Id) {
    && h.board == g.board && h.rules == g.rules && h.elapsed == g.elapsed && h.readyAt == g.readyAt
    && forall id :: id != source ==> At(h.territories, id) == At(g.territories, id)
  }

  lemma DispatchFrame(g: GameState, source: Id, target: Id, team: Team, multiplier: real)
    ensures
      var r := Dispatch(g, source, target, team, multiplier);
      r.Ok? ==> OrderFrame(g, r.value, source)
  {
    hide FindRoute, NewArmy, DispatchUnits, CountSent;
    RouteLength(g, source, target, team);
  }

  lemma AbilityFrame(g: GameState, team: Team, commander: Commander, source: Id, target: Id, multiplier: real)
    ensures
      var r := ApplyAbility(g, team, commander, source, target, multiplier);
      r.Some? ==> OrderFrame(g, r.value, source)
  {
    hide Dispatch, AbilityReady, CountSent, Milliseconds;
    DispatchFrame(g, source, target, team, multiplier * CHARGE_SPEED_MULTIPLIER);
  }

  lemma OrderLocal(p: Phase, c: Command)
    requires !c.Pass?
    ensures Exec(p, c).acc == p.acc && OrderFrame(p.g, Exec(p, c).g, c.source)
  {
    hide Dispatch, ApplyAbility;
    match c
    case SendArmy(source, target, team, multiplier) => DispatchFrame(p.g, source, target, team, multiplier);
    case UseAbility(team, commander, source, target, multiplier) =>
      AbilityFrame(p.g, team, commander, source, target, multiplier);
  }

  lemma StepBoard(p: Phase, delta: real)
    ensures Step(p.g, p.acc, delta).g.board == p.g.board && Step(p.g, p.acc, delta).g.rules == p.g.rules
  {
    hide HandleArmies, Produce, Verdict, Round;
    HandleArmiesFrame(Start(p, delta), p.g.armies, delta);
    var m := Marched(p.g, p.acc, delta);
    ProduceFrame(m.g, m.acc, delta, p.g.board.order);
  }

  /** Over any run of steps, sends and abilities in which no army reaches a tower and no order is given
      from it, its garrison only grows, up to its capacity; its accumulator stays in [0, 1); and below
      capacity the units granted and the change of the accumulator differ from its exact production by
      at most 1e-9 a step. */
  lemma {:induction false} RunDrift(p: Phase, commands: seq<Command>, id: Id)
    requires Simple(p.g.board.order) && id in p.g.board.order && At(p.g.territories, id).productionRate >= 0.0
    requires 0.0 <= Accumulated(p.acc, id) < 1.0 && LeftAlone(p, commands, id)
    ensures
      var q := Run(p, commands);
      && q.g.board == p.g.board
      && GrewBy(At(p.g.territories, id), Accumulated(p.acc, id), At(q.g.territories, id), Accumulated(q.acc, id),
                AllYield(p, commands, id), Steps(commands) as real * EPSILON)
  {
    hide Exec, Yield, LeavesAlone, GrewBy, Spared;
    if commands == [] {
      NothingGrew(At(p.g.territories, id), Accumulated(p.acc, id));
    } else {
      var front, c := commands[..|commands| - 1], commands[|commands| - 1];
      forall i | 0 <= i < |front| ensures front[..i] == commands[..i] && front[i] == commands[i] {
      }
      assert LeftAlone(p, front, id);
      RunDrift(p, front, id);
      assert LeavesAlone(Run(p, front), c, id);
      DriftOn(At(p.g.territories, id), Accumulated(p.acc, id), Run(p, front), c, id, AllYield(p, front, id),
        Steps(front) as real * EPSILON);
    }
  }

  lemma NothingGrew(t: Territory, a: real)
    requires 0.0 <= a < 1.0
    ensures GrewBy(t, a, t, a, 0.0, 0.0)
  {
  }

  lemma DriftOn(t: Territory, a: real, p: Phase, c: Command, id: Id, exact: real, slack: real)
    requires Simple(p.g.board.order) && id in p.g.board.order && t.productionRate >= 0.0 && LeavesAlone(p, c, id)
    requires GrewBy(t, a, At(p.g.territories, id), Accumulated(p.acc, id), exact, slack)
    ensures
      var q := Exec(p, c);
      && q.g.board == p.g.board
      && GrewBy(t, a, At(q.g.territories, id), Accumulated(q.acc, id), exact + Yield(p, c, id), slack +
        if c.Pass? then EPSILON else 0.0)
  {
    hide Step, Spared, ProduceTower, Increment, RecoveryMultiplier, Tick, Produces, Dispatch, ApplyAbility;
    if c.Pass? {
      StepBoard(p, c.delta);
      if p.g.status == Playing {
        SparedStep(p, c.delta, id);
        YieldNonNegative(p, c.delta, id);
        GrewOn(t, a, At(p.g.territories, id), Accumulated(p.acc, id), exact, slack, Yield(p, c, id));
      } else {
        StepOver(p, c.delta);
        LooserSlack(t, a, At(p.g.territories, id), Accumulated(p.acc, id), exact, slack);
      }
    } else {
      OrderLocal(p, c);
    }
  }

  lemma LooserSlack(t: Territory, a: real, u: Territory, b: real, exact: real, slack: real)
    requires GrewBy(t, a, u, b, exact, slack)
    ensures GrewBy(t, a, u, b, exact, slack + EPSILON)
  {
  }

  lemma StepOver(p: Phase, delta: real)
    requires p.g.status != Playing
    ensures Step(p.g, p.acc, delta) == p
  {
  }

  // ----- Bounds over whole runs

  /** Over every run every accumulator stays in [0, 1), and under rules with capture recovery no tower
      ever has more than three seconds of recovery ahead. */
  lemma {:induction false} RunKeepsBounds(p: Phase, commands: seq<Command>)
    requires UnitInterval(p.acc) && forall i :: 0 <= i < |commands| && commands[i].Pass? ==> 0.0 <= commands[i].delta
    ensures
      var q := Run(p, commands);
      && UnitInterval(q.acc) && q.g.rules == p.g.rules
      && (HasCaptureRecovery(p.g.rules) && RecoveryBounded(p.g) ==> RecoveryBounded(q.g))
  {
    hide Exec, UnitInterval, RecoveryBounded;
    if commands != [] {
      var front, c := commands[..|commands| - 1], commands[|commands| - 1];
      RunKeepsBounds(p, front);
      ExecKeepsBounds(Run(p, front), c);
    }
  }

  lemma ExecKeepsBounds(p: Phase, c: Command)
    requires UnitInterval(p.acc) && (c.Pass? ==> 0.0 <= c.delta)
    ensures
      var q := Exec(p, c);
      && UnitInterval(q.acc) && q.g.rules == p.g.rules
      && (HasCaptureRecovery(p.g.rules) && RecoveryBounded(p.g) ==> RecoveryBounded(q.g))
  {
    hide Step, UnitInterval, Round, Dispatch, ApplyAbility;
    if c.Pass? {
      StepBoard(p, c.delta);
      StepKeepsInterval(p.g, p.acc, c.delta);
      if HasCaptureRecovery(p.g.rules) && RecoveryBounded(p.g) {
        StepKeepsRecovery(p.g, p.acc, c.delta);
      }
    } else {
      OrderLocal(p, c);
    }
  }
}
