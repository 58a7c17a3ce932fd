/** What every dispatch, ability and step keeps, and where every unit goes. */
module BattleInvariants {
  import opened Text
  import opened World
  import opened Routes
  import opened DispatchRoute
  import opened March
  import opened Combat
  import opened BattleRules

  // ----- The invariant

  /** The fixed tower order lists every tower exactly once. */
  ghost predicate GoodBoard(g: GameState) {
    Simple(g.board.order) && forall id :: id in g.board.order <==> id in g.territories
  }

  ghost predicate GoodArmy(board: Board, rules: int, towers: set<Id>, a: Army) {
    && a.owner != Neutral && a.units >= 1 && a.progress < 1.0 && a.target in towers
    && (UsesTacticalRules(rules) ==> GoodJourney(board, towers, a))
  }

  /** The army is on a leg of a simple road route between existing towers. */
  ghost predicate GoodJourney(board: Board, towers: set<Id>, a: Army) {
    && a.leg < |a.route| - 1 && a.target == a.route[a.leg + 1]
    && Simple(a.route) && RoadPath(board, a.route) && forall i :: 0 <= i < |a.route| ==> a.route[i] in towers
  }

  ghost predicate GoodArmies(g: GameState) {
    forall a :: a in g.armies ==> GoodArmy(g.board, g.rules, g.territories.Keys, a)
  }

  ghost predicate GoodUnits(territories: map<Id, Territory>) {
    forall id :: id in territories ==> territories[id].units >= 0
  }

  ghost predicate Good(g: GameState) {
    GoodBoard(g) && GoodUnits(g.territories) && GoodArmies(g)
  }

  /** The two states have the same towers, board and rules, and no owned tower has become neutral. */
  ghost predicate SameWorld(g: GameState, h: GameState) {
    && h.board == g.board && h.rules == g.rules && h.limit == g.limit
    && h.territories.Keys == g.territories.Keys
    && forall id :: id in g.territories && g.territories[id].owner != Neutral ==> h.territories[id].owner != Neutral
  }

  // ----- Counting units

  function Garrisons(territories: map<Id, Territory>, order: seq<Id>): int {
    if order == [] then 0
    else Garrisons(territories, order[..|order| - 1]) + At(territories, order[|order| - 1]).units
  }

  function Marching(armies: seq<Army>): int {
    if armies == [] then 0 else Marching(armies[..|armies| - 1]) + armies[|armies| - 1].units
  }

  function TotalUnits(g: GameState): int {
    Garrisons(g.territories, g.board.order) + Marching(g.armies)
  }

  lemma {:induction false} GarrisonsUpdate(territories: map<Id, Territory>, order: seq<Id>, id: Id, t: Territory)
    requires Simple(order)
    ensures Garrisons(territories[id := t], order) ==
            Garrisons(territories, order) + (if id in order then t.units - At(territories, id).units else 0)
  {
    if order != [] {
      var front := order[..|order| - 1];
      assert order == front + [order[|order| - 1]];
      GarrisonsUpdate(territories, front, id, t);
    }
  }

  lemma MarchingAppend(armies: seq<Army>, a: Army)
    ensures Marching(armies + [a]) == Marching(armies) + a.units
  {
    assert (armies + [a])[..|armies|] == armies;
  }

  // ----- Armies of one step

  /** Units killed on both sides when `incoming` hostile units arrive with this outcome. */
  function Killed(t: Territory, incoming: int, o: Outcome): int {
    if o.captured then t.units + (incoming - o.units) else incoming + (t.units - o.units)
  }

  /** Casualties of one army's arrival; reinforcements lose nobody. */
  function Casualties(p: Phase, army: Army, delta: real): int {
    var (moved, arrived) := MoveArmy(p.g, army, delta);
    if !arrived then 0
    else if moved.target !in p.g.territories then moved.units
    else if moved.owner == p.g.territories[moved.target].owner then 0
    else Killed(p.g.territories[moved.target], moved.units, ArrivalOutcome(p.g, moved))
  }

  function AllCasualties(p: Phase, armies: seq<Army>, delta: real): int {
    if armies == [] then 0
    else
      var front := armies[..|armies| - 1];
      AllCasualties(p, front, delta) + Casualties(HandleArmies(p, front, delta), armies[|armies| - 1], delta)
  }

  lemma {:induction false} AdvanceKeeps(b: Board, a: Army, territories: map<Id, Territory>, delta: real)
    requires GoodJourney(b, territories.Keys, a)
    ensures
      var (moved, arrived) := Advance(b, a, territories, delta);
      && GoodJourney(b, territories.Keys, moved) && moved.route == a.route
      && moved.units == a.units && moved.owner == a.owner && (!arrived ==> moved.progress < 1.0)
    decreases |a.route| - a.leg
  {
    if Progress(a, delta) >= 1.0 && !StopsHere(a, territories) {
      AdvanceKeeps(b, NextLeg(b, a, territories), territories, TimeLeft(a, delta));
    }
  }

  lemma MoveKeepsGood(g: GameState, a: Army, delta: real)
    requires GoodArmy(g.board, g.rules, g.territories.Keys, a)
    ensures
      var (moved, arrived) := MoveArmy(g, a, delta);
      && moved.units == a.units && moved.owner == a.owner && moved.target in g.territories
      && (!arrived ==> GoodArmy(g.board, g.rules, g.territories.Keys, moved))
  {
    if UsesTacticalRules(g.rules) {
      AdvanceKeeps(g.board, a, g.territories, delta);
      var moved := Advance(g.board, a, g.territories, delta).0;
      assert moved.target == moved.route[moved.leg + 1];
    }
  }

  lemma TowerUpdate(g: GameState, id: Id, t: Territory)
    requires Good(g) && id in g.territories && t.units >= 0
    requires g.territories[id].owner != Neutral ==> t.owner != Neutral
    ensures
      var h := g.(territories := g.territories[id := t]);
      Good(h) && SameWorld(g, h) && TotalUnits(h) == TotalUnits(g) + t.units - g.territories[id].units
  {
    GarrisonsUpdate(g.territories, g.board.order, id, t);
    assert g.territories[id := t].Keys == g.territories.Keys;
  }

  lemma ArmyAdded(g: GameState, a: Army)
    requires Good(g) && GoodArmy(g.board, g.rules, g.territories.Keys, a)
    ensures
      var h := g.(armies := g.armies + [a]);
      Good(h) && SameWorld(g, h) && TotalUnits(h) == TotalUnits(g) + a.units
  {
    MarchingAppend(g.armies, a);
  }

  /** Bookkeeping that touches neither towers nor armies. */
  ghost predicate SameUnits(g: GameState, h: GameState) {
    h.board == g.board && h.rules == g.rules && h.limit == g.limit && h.territories == g.territories
      && h.armies == g.armies
  }

  lemma ArriveTouchesOneTower(p: Phase, a: Army)
    requires a.target in p.g.territories
    ensures SameUnits(Fought(p.g, a.target, ArrivalOutcome(p.g, a)), Arrive(p, a).g)
  {
    hide ResolveArrival, CountCapture;
  }

  lemma ArriveKeeps(p: Phase, a: Army)
    requires Good(p.g) && a.owner != Neutral && a.units >= 1 && a.target in p.g.territories
    ensures
      var q, t := Arrive(p, a), p.g.territories[a.target];
      var lost := if a.owner == t.owner then 0 else Killed(t, a.units, ArrivalOutcome(p.g, a));
      && Good(q.g) && SameWorld(p.g, q.g) && 0 <= lost
      && TotalUnits(q.g) == TotalUnits(p.g) + a.units - lost
  {
    var id, t := a.target, p.g.territories[a.target];
    var o := ArrivalOutcome(p.g, a);
    if a.owner != t.owner {
      HostileArrivalCosts(t, a.units, a.owner, Shielded(p.g, id));
    }
    TowerUpdate(p.g, id, After(t, o));
    ArriveTouchesOneTower(p, a);
  }

  lemma HandleArmyKeeps(p: Phase, a: Army, delta: real)
    requires Good(p.g) && GoodArmy(p.g.board, p.g.rules, p.g.territories.Keys, a)
    ensures
      var q := HandleArmy(p, a, delta);
      && Good(q.g) && SameWorld(p.g, q.g)
      && 0 <= Casualties(p, a, delta)
      && TotalUnits(q.g) == TotalUnits(p.g) + a.units - Casualties(p, a, delta)
  {
    MoveKeepsGood(p.g, a, delta);
    var (moved, arrived) := MoveArmy(p.g, a, delta);
    if arrived {
      ArriveKeeps(p, moved);
    } else {
      ArmyAdded(p.g, moved);
    }
  }

  lemma {:induction false} HandleArmiesKeep(p: Phase, armies: seq<Army>, delta: real)
    requires Good(p.g) && forall a :: a in armies ==> GoodArmy(p.g.board, p.g.rules, p.g.territories.Keys, a)
    ensures
      var q := HandleArmies(p, armies, delta);
      && Good(q.g) && SameWorld(p.g, q.g)
      && 0 <= AllCasualties(p, armies, delta)
      && TotalUnits(q.g) == TotalUnits(p.g) + Marching(armies) - AllCasualties(p, armies, delta)
  {
    if armies != [] {
      var front := armies[..|armies| - 1];
      assert armies == front + [armies[|armies| - 1]];
      HandleArmiesKeep(p, front, delta);
      HandleArmyKeeps(HandleArmies(p, front, delta), armies[|armies| - 1], delta);
    }
  }

  // ----- Production of one step

  function Grown(p: Phase, acc: Accumulators, delta: real, id: Id): int {
    ProduceAt(p.g, acc, delta, id).0 - At(p.g.territories, id).units
  }

  function AllGrown(g: GameState, acc: Accumulators, delta: real, order: seq<Id>): int {
    if order == [] then 0
    else
      var front := order[..|order| - 1];
      AllGrown(g, acc, delta, front) + Grown(Produce(g, acc, delta, front), acc, delta, order[|order| - 1])
  }

  /** Production never takes units away and never lifts a garrison above its capacity. */
  lemma ProduceTowerBounds(t: Territory, accumulated: real, increment: real)
    ensures
      var (units, left) := ProduceTower(t, accumulated, increment);
      t.units <= units <= Max(t.units, t.maxUnits) && (!Produces(t) ==> units == t.units)
  {
  }

  lemma ProduceOneKeeps(p: Phase, acc: Accumulators, delta: real, id: Id)
    requires Good(p.g)
    ensures
      var q := ProduceOne(p, acc, delta, id);
      && Good(q.g) && SameWorld(p.g, q.g) && q.g.armies == p.g.armies
      && 0 <= Grown(p, acc, delta, id)
      && TotalUnits(q.g) == TotalUnits(p.g) + Grown(p, acc, delta, id)
  {
    var t := At(p.g.territories, id);
    ProduceTowerBounds(t, Accumulated(acc, id), Increment(t, RecoveryMultiplier(p.g, id), delta));
    if id in p.g.territories {
      TowerUpdate(p.g, id, t.(units := ProduceAt(p.g, acc, delta, id).0));
    }
  }

  lemma {:induction false} ProduceKeeps(g: GameState, acc: Accumulators, delta: real, order: seq<Id>)
    requires Good(g)
    ensures
      var q := Produce(g, acc, delta, order);
      && Good(q.g) && SameWorld(g, q.g) && q.g.armies == g.armies
      && 0 <= AllGrown(g, acc, delta, order)
      && TotalUnits(q.g) == TotalUnits(g) + AllGrown(g, acc, delta, order)
  {
    if order != [] {
      var front := order[..|order| - 1];
      ProduceKeeps(g, acc, delta, front);
      ProduceOneKeeps(Produce(g, acc, delta, front), acc, delta, order[|order| - 1]);
    }
  }

  // ----- The step

  function StepCasualties(g: GameState, acc: Accumulators, delta: real): int {
    if g.status != Playing then 0
    else AllCasualties(Phase(Tick(g, delta).(armies := []), acc), g.armies, delta)
  }

  function StepGrowth(g: GameState, acc: Accumulators, delta: real): int {
    if g.status != Playing then 0
    else
      var m := Marched(g, acc, delta);
      AllGrown(m.g, m.acc, delta, g.board.order)
  }

  /** A step keeps the invariant, and moves units only by production and by casualties. */
  lemma StepKeeps(g: GameState, acc: Accumulators, delta: real)
    requires Good(g)
    ensures
      var h := Step(g, acc, delta).g;
      && Good(h) && SameWorld(g, h)
      && 0 <= StepCasualties(g, acc, delta) && 0 <= StepGrowth(g, acc, delta)
      && TotalUnits(h) == TotalUnits(g) + StepGrowth(g, acc, delta) - StepCasualties(g, acc, delta)
  {
    if g.status == Playing {
      var start := Phase(Tick(g, delta).(armies := []), acc);
      assert Good(start.g);
      HandleArmiesKeep(start, g.armies, delta);
      var m := Marched(g, acc, delta);
      ProduceKeeps(m.g, m.acc, delta, g.board.order);
    }
  }

  // ----- Dispatches and abilities

  /** A new army starts on a legal road journey. */
  lemma NewArmyGood(g: GameState, source: Id, target: Id, owner: Team, multiplier: real, units: int)
    requires FindRoute(g, source, target, owner).Some? && owner != Neutral && units >= 1
    ensures |FindRoute(g, source, target, owner).value| >= 2
    ensures GoodArmy(g.board, g.rules, g.territories.Keys,
      NewArmy(g, source, target, owner, multiplier, units, FindRoute(g, source, target, owner).value))
  {
    RouteLength(g, source, target, owner);
    if UsesTacticalRules(g.rules) {
      FindRouteCorrect(g, source, target, owner);
      var p := FindRoute(g, source, target, owner).value;
      assert forall i :: 0 <= i < |p| ==> p[i] in g.territories;
    }
  }

  lemma NewArmyUnits(g: GameState, source: Id, target: Id, owner: Team, multiplier: real, units: int, route: seq<Id>)
    requires |route| >= 2
    ensures NewArmy(g, source, target, owner, multiplier, units, route).units == units
  {
  }

  lemma DispatchUnitsBounds(units: int)
    ensures DispatchUnits(units) > 0 ==> DispatchUnits(units) < units
  {
  }

  /** A dispatch keeps the invariant and the number of units, and leaves one in the source. */
  lemma DispatchKeeps(g: GameState, source: Id, target: Id, owner: Team, multiplier: real)
    requires Good(g) && owner != Neutral && Dispatch(g, source, target, owner, multiplier).Ok?
    ensures
      var h := Dispatch(g, source, target, owner, multiplier).value;
      && Good(h) && SameWorld(g, h) && TotalUnits(h) == TotalUnits(g)
      && source in g.territories && 1 <= h.territories[source].units < g.territories[source].units
      && |h.armies| == |g.armies| + 1 && h.armies[|g.armies|].units ==
        g.territories[source].units - h.territories[source].units
  {
    hide FindRoute, NewArmy, GoodArmy, Garrisons, Marching, CountSent, DispatchUnits;
    DispatchUnitsBounds(g.territories[source].units);
    RouteLength(g, source, target, owner);
    var route := FindRoute(g, source, target, owner).value;
    var from := g.territories[source];
    var units := DispatchUnits(from.units);
    NewArmyGood(g, source, target, owner, multiplier, units);
    var left := from.(units := from.units - units);
    TowerUpdate(g, source, left);
    var army := NewArmy(g, source, target, owner, multiplier, units, route);
    ArmyAdded(g.(territories := g.territories[source := left]), army);
    NewArmyUnits(g, source, target, owner, multiplier, units, route);
  }

  /** Units an ability adds to the battle. */
  function AbilityGrant(g: GameState, team: Team, commander: Commander, source: Id, target: Id, multiplier: real): int {
    if ApplyAbility(g, team, commander, source, target, multiplier) == None then 0
    else EffectGrant(g, commander, source)
  }

  /** A supply drop brings five units; a charge doubles the half it sends. */
  function EffectGrant(g: GameState, commander: Commander, source: Id): int
    requires source in g.territories
  {
    match commander
    case Quartermaster => SUPPLY_UNITS
    case Vanguard => DispatchUnits(g.territories[source].units)
    case _ => 0
  }

  lemma BoostKeeps(g: GameState, team: Team)
    requires Good(g) && g.armies != []
    ensures
      var h := Boost(g, team);
      && Good(h) && SameWorld(g, h)
      && TotalUnits(h) == TotalUnits(g) + g.armies[|g.armies| - 1].units
  {
    var last := |g.armies| - 1;
    var army := g.armies[last];
    var boosted := army.(units := 2 * army.units);
    assert army in g.armies;
    assert g.armies[last := boosted] == g.armies[..last] + [boosted];
    assert g.armies == g.armies[..last] + [army];
    MarchingAppend(g.armies[..last], army);
    MarchingAppend(g.armies[..last], boosted);
  }

  ghost predicate Keeps(g: GameState, h: GameState, gain: int) {
    Good(h) && SameWorld(g, h) && TotalUnits(h) == TotalUnits(g) + gain
  }

  lemma ChargeKeeps(g: GameState, team: Team, source: Id, target: Id, multiplier: real)
    requires Good(g) && team != Neutral && Dispatch(g, source, target, team, multiplier).Ok?
    ensures source in g.territories
    ensures Keeps(g, Boost(Dispatch(g, source, target, team, multiplier).value, team),
      DispatchUnits(g.territories[source].units))
  {
    DispatchKeeps(g, source, target, team, multiplier);
    BoostKeeps(Dispatch(g, source, target, team, multiplier).value, team);
  }

  lemma SupplyKeeps(g: GameState, source: Id)
    requires Good(g) && source in g.territories
    ensures
      var t := g.territories[source];
      Keeps(g, g.(territories := g.territories[source := t.(units := t.units + SUPPLY_UNITS)]), SUPPLY_UNITS)
  {
    var t := g.territories[source];
    TowerUpdate(g, source, t.(units := t.units + SUPPLY_UNITS));
  }

  lemma SameUnitsKeep(g: GameState, h: GameState)
    requires Good(g) && SameUnits(g, h)
    ensures Keeps(g, h, 0)
  {
  }

  lemma EffectKeeps(g: GameState, team: Team, commander: Commander, source: Id, target: Id, multiplier: real)
    requires Good(g) && team != Neutral && source in g.territories
    requires AbilityEffect(g, team, commander, source, target, multiplier).Some?
    ensures Keeps(g, AbilityEffect(g, team, commander, source, target, multiplier).value,
      EffectGrant(g, commander, source))
  {
    hide Good, Keeps, Dispatch, Boost, DispatchUnits;
    if commander == Vanguard {
      ChargeKeeps(g, team, source, target, multiplier * CHARGE_SPEED_MULTIPLIER);
    } else if commander == Quartermaster {
      SupplyKeeps(g, source);
    } else {
      ShieldKeepsUnits(g, source);
      SameUnitsKeep(g, AbilityEffect(g, team, commander, source, target, multiplier).value);
    }
  }

  lemma ShieldKeepsUnits(g: GameState, source: Id)
    ensures SameUnits(g, g.(shieldedUntil := g.shieldedUntil[source := Milliseconds(g.elapsed) + SHIELD_DURATION_MS]))
  {
  }

  lemma AbilityKeeps(g: GameState, team: Team, commander: Commander, source: Id, target: Id, multiplier: real)
    requires Good(g) && team != Neutral && ApplyAbility(g, team, commander, source, target, multiplier).Some?
    ensures 0 <= AbilityGrant(g, team, commander, source, target, multiplier)
    ensures Keeps(g, ApplyAbility(g, team, commander, source, target, multiplier).value,
                  AbilityGrant(g, team, commander, source, target, multiplier))
  {
    EffectKeeps(g, team, commander, source, target, multiplier);
    var done := AbilityEffect(g, team, commander, source, target, multiplier).value;
    SameUnitsKeep(done, MarkUsed(done, team));
  }

  // ----- Whole runs

  datatype Command =
    | SendArmy(source: Id, target: Id, team: Team, multiplier: real)
    | UseAbility(team: Team, commander: Commander, source: Id, target: Id, multiplier: real)
    | Pass(delta: real)

  predicate ByATeam(c: Command) {
    c.Pass? || c.team != Neutral
  }

  /** Refused commands change nothing. */
  function Exec(p: Phase, c: Command): Phase {
    match c
    case SendArmy(source, target, team, multiplier) =>
      (match Dispatch(p.g, source, target, team, multiplier)
       case Ok(h) => p.(g := h)
       case Err(_) => p)
    case UseAbility(team, commander, source, target, multiplier) =>
      (match ApplyAbility(p.g, team, commander, source, target, multiplier)
       case Some(h) => p.(g := h)
       case None => p)
    case Pass(delta) => Step(p.g, p.acc, delta)
  }

  function Run(p: Phase, commands: seq<Command>): Phase {
    if commands == [] then p else Exec(Run(p, commands[..|commands| - 1]), commands[|commands| - 1])
  }

  function Gained(p: Phase, c: Command): int {
    match c
    case SendArmy(_, _, _, _) => 0
    case UseAbility(team, commander, source, target, multiplier) => AbilityGrant(p.g, team, commander, source, target,
      multiplier)
    case Pass(delta) => StepGrowth(p.g, p.acc, delta)
  }

  function Lost(p: Phase, c: Command): int {
    if c.Pass? then StepCasualties(p.g, p.acc, c.delta) else 0
  }

  function AllGained(p: Phase, commands: seq<Command>): int {
    if commands == [] then 0
    else
      var front := commands[..|commands| - 1];
      AllGained(p, front) + Gained(Run(p, front), commands[|commands| - 1])
  }

  function AllLost(p: Phase, commands: seq<Command>): int {
    if commands == [] then 0
    else
      var front := commands[..|commands| - 1];
      AllLost(p, front) + Lost(Run(p, front), commands[|commands| - 1])
  }

  lemma ExecKeeps(p: Phase, c: Command)
    requires Good(p.g) && ByATeam(c)
    ensures Good(Exec(p, c).g) && SameWorld(p.g, Exec(p, c).g)
    ensures 0 <= Gained(p, c) && 0 <= Lost(p, c)
    ensures TotalUnits(Exec(p, c).g) == TotalUnits(p.g) + Gained(p, c) - Lost(p, c)
  {
    match c
    case SendArmy(source, target, team, multiplier) =>
      if Dispatch(p.g, source, target, team, multiplier).Ok? {
        DispatchKeeps(p.g, source, target, team, multiplier);
      }
    case UseAbility(team, commander, source, target, multiplier) =>
      if ApplyAbility(p.g, team, commander, source, target, multiplier).Some? {
        AbilityKeeps(p.g, team, commander, source, target, multiplier);
      }
    case Pass(delta) => StepKeeps(p.g, p.acc, delta);
  }

  /** Over every run of dispatches, abilities and steps: garrisons stay non-negative, every army is
      alive and on a legal journey, owned towers stay owned, and units change only by production
      and ability grants on one side and casualties on the other. */
  lemma {:induction false} RunKeeps(p: Phase, commands: seq<Command>)
    requires Good(p.g) && forall c :: c in commands ==> ByATeam(c)
    ensures
      var q := Run(p, commands);
      && Good(q.g) && SameWorld(p.g, q.g)
      && 0 <= AllGained(p, commands) && 0 <= AllLost(p, commands)
      && TotalUnits(q.g) == TotalUnits(p.g) + AllGained(p, commands) - AllLost(p, commands)
  {
    if commands != [] {
      var front := commands[..|commands| - 1];
      assert commands == front + [commands[|commands| - 1]];
      RunKeeps(p, front);
      ExecKeeps(Run(p, front), commands[|commands| - 1]);
    }
  }

  /** Every army of a reachable battle under v3 and v4 rules is on a simple road route, so its
      predicted arrival is exact as long as no tower changes hands. */
  lemma PredictionsAreExact(g: GameState, a: Army, delta: real)
    requires Good(g) && UsesTacticalRules(g.rules) && a in g.armies
    ensures
      var (army, arrived) := Advance(g.board, a, g.territories, delta);
      (arrived <==> delta >= ArrivalSeconds(g.board, a, g.territories))
        && (arrived ==> army.target == ArmyDestination(a, g.territories))
  {
    hide Advance, ArrivalSeconds, ArmyDestination;
    assert GoodArmy(g.board, g.rules, g.territories.Keys, a);
    AdvanceMatchesPrediction(g.board, a, g.territories, delta);
  }
}
