/** The lane layer's loops and the engine object beside the battle, proved to compute LaneRules,
    LanePlan and LaneBattle. */
module LaneEngine {
  import opened Text
  import opened Sorting
  import opened World
  import opened DispatchRoute
  import opened BattleRules
  import opened Battle
  import opened TacticalRules
  import opened TacticalBot
  import opened ReplayRules
  import opened LaneRules
  import opened LanePlan
  import opened LaneChoice
  import opened LaneSteps
  import opened LaneBattle

  // ----- Orders

  method OpenOneLane(g: GameState, s: LaneState, owner: Team, source: Id, target: Id) returns (r: LaneState)
    ensures r == OpenLane(g, s, owner, source, target)
  {
    hide FindRoute;
    var count := 0;
    for i := 0 to |s.lanes|
      invariant !HasLane(s.lanes[..i], owner, source, target)
      invariant count == LanesFrom(s.lanes[..i], owner, source)
    {
      var l := s.lanes[i];
      assert s.lanes[..i + 1][..i] == s.lanes[..i];
      if l.owner == owner && l.source == source && l.target == target {
        return s;
      }
      if l.owner == owner && l.source == source {
        count := count + 1;
      }
    }
    assert s.lanes[..|s.lanes|] == s.lanes;
    if count >= MaxLanes(g, source) {
      return s;
    }
    var route := FindDispatchRoute(g, source, target, owner);
    if route == None {
      return s;
    }
    var lane := Lane(s.nextLaneId, owner, source, target, route.value, 0.0);
    return s.(lanes := s.lanes + [lane], nextLaneId := s.nextLaneId + 1);
  }

  lemma {:induction false} WithoutAll(lanes: seq<Lane>, owner: Team, source: Id, target: Id)
    ensures HasLane(lanes, owner, source, target) ==> |Without(lanes, owner, source, target)| < |lanes|
    ensures !HasLane(lanes, owner, source, target) ==> Without(lanes, owner, source, target) == lanes
  {
    hide Runs;
    if lanes != [] {
      var front, last := lanes[..|lanes| - 1], lanes[|lanes| - 1];
      WithoutAll(front, owner, source, target);
      HasLaneAppend(front, last, owner, source, target);
      assert lanes == front + [last];
    }
  }

  /** `removed` says whether there was such a lane. */
  method CutOneLane(s: LaneState, owner: Team, source: Id, target: Id) returns (r: LaneState, removed: bool)
    ensures r == CutLane(s, owner, source, target)
    ensures removed <==> HasLane(s.lanes, owner, source, target)
  {
    var kept: seq<Lane> := [];
    for i := 0 to |s.lanes|
      invariant kept == Without(s.lanes[..i], owner, source, target)
    {
      var l := s.lanes[i];
      assert s.lanes[..i + 1][..i] == s.lanes[..i];
      if !(l.owner == owner && l.source == source && l.target == target) {
        kept := kept + [l];
      }
    }
    assert s.lanes[..|s.lanes|] == s.lanes;
    WithoutAll(s.lanes, owner, source, target);
    if |kept| == |s.lanes| {
      return s, false;
    }
    return s.(lanes := kept), true;
  }

  // ----- One step

  method LandSoldiers(before: map<Id, Territory>, counted: Stats, soldiers: seq<Soldier>,
    delta: real) returns (l: Landing)
    ensures l == LandAll(Landing(before, counted, []), soldiers, delta)
  {
    var territories, stats := before, counted;
    var flying: seq<Soldier> := [];
    for i := 0 to |soldiers|
      invariant Landing(territories, stats, flying) == LandAll(Landing(before, counted, []), soldiers[..i], delta)
    {
      assert soldiers[..i + 1][..i] == soldiers[..i];
      var soldier := soldiers[i];
      var remaining := soldier.remaining - delta;
      if remaining > EPSILON {
        flying := flying + [soldier.(remaining := remaining)];
      } else if soldier.target in territories {
        var target := territories[soldier.target];
        if target.owner == soldier.owner {
          target := target.(units := Min(target.maxUnits, target.units + 1));
        } else if target.units > 0 {
          target := target.(units := target.units - 1);
        } else {
          target := target.(owner := soldier.owner, units := 1);
          if soldier.owner == Player {
            stats := stats.(playerCaptures := stats.playerCaptures + 1);
          } else {
            stats := stats.(enemyCaptures := stats.enemyCaptures + 1);
          }
        }
        territories := territories[soldier.target := target];
      }
    }
    assert soldiers[..|soldiers|] == soldiers;
    return Landing(territories, stats, flying);
  }

  lemma CountSentAdds(stats: Stats, owner: Team, m: int, n: int)
    ensures CountSent(CountSent(stats, owner, m), owner, n) == CountSent(stats, owner, m + n)
    ensures CountSent(stats, owner, 0) == stats
  {
  }

  lemma {:induction false} RepeatFirst(s: Soldier, n: nat)
    ensures Repeat(s, n + 1) == [s] + Repeat(s, n)
  {
    if n > 0 {
      RepeatFirst(s, n - 1);
      assert [s] + (Repeat(s, n - 1) + [s]) == ([s] + Repeat(s, n - 1)) + [s];
    }
  }

  /** One lane's emissions: the source and the statistics are written soldier by soldier. */
  method EmitFrom(b: Board, l: Lane, held: int, due: real, counted: Stats)
    returns (units: int, wait: real, stats: Stats, emitted: seq<Soldier>)
    ensures
      var burst := Emit(held, due);
      && units == burst.units && wait == burst.wait && stats == CountSent(counted, l.owner, burst.sent)
      && emitted == Repeat(NewSoldier(b, l), burst.sent)
  {
    hide NewSoldier, CountSent;
    ghost var sent: nat := 0;
    units, wait, stats, emitted := held, due, counted, [];
    CountSentAdds(counted, l.owner, 0, 0);
    while wait <= EPSILON
      invariant stats == CountSent(counted, l.owner, sent) && emitted == Repeat(NewSoldier(b, l), sent)
      invariant Emit(held, due) == Emit(units, wait).(sent := sent + Emit(units, wait).sent)
      decreases units
    {
      if units > 1 {
        units := units - 1;
        emitted := emitted + [NewSoldier(b, l)];
        CountSentAdds(counted, l.owner, sent, 1);
        stats := CountSent(stats, l.owner, 1);
        sent := sent + 1;
      }
      wait := wait + EMIT_SECONDS;
      if units <= 1 {
        wait := MaxReal(wait, EMIT_SECONDS);
        break;
      }
    }
  }

  method EmitSoldiers(b: Board, before: map<Id, Territory>, counted: Stats, lanes: seq<Lane>,
    delta: real) returns (e: Emission)
    ensures e == EmitAll(b, Emission(before, counted, [], []), lanes, delta)
  {
    hide Emit, CountSent, NewSoldier, Repeat;
    ghost var start := Emission(before, counted, [], []);
    var territories, stats := before, counted;
    var emitted: seq<Soldier> := [];
    var next: seq<Lane> := [];
    for i := 0 to |lanes|
      invariant Emission(territories, stats, emitted, next) == EmitAll(b, start, lanes[..i], delta)
    {
      assert lanes[..i + 1][..i] == lanes[..i];
      var lane := lanes[i];
      var source := At(territories, lane.source);
      if source.owner == lane.owner {
        var units, wait, counts, more := EmitFrom(b, lane, source.units, lane.nextEmitIn - delta, stats);
        territories := territories[lane.source := source.(units := units)];
        stats, emitted, next := counts, emitted + more, next + [lane.(nextEmitIn := wait)];
      }
    }
    assert lanes[..|lanes|] == lanes;
    return Emission(territories, stats, emitted, next);
  }

  // ----- The planner

  method FindCuts(g: GameState, team: Team, lanes: seq<Lane>) returns (cut: seq<Order>)
    ensures cut == Cuts(g, team, lanes)
    ensures CutsRight(g, team, lanes, cut)
  {
    CutsAre(g, team, lanes);
    hide CutsRight;
    hide Min, Regeneration;
    cut := [];
    for i := 0 to |lanes|
      invariant cut == Cuts(g, team, lanes[..i])
    {
      assert lanes[..i + 1][..i] == lanes[..i];
      var lane := lanes[i];
      assert cut + [] == cut;
      if lane.owner == team && lane.target in g.territories && lane.source in g.territories {
        var target := g.territories[lane.target];
        var finished := target.owner == team && target.units >= Min(target.maxUnits - 1, 14);
        var hopeless := target.owner != team && EMIT_RATE <= Regeneration(target) + 0.1;
        if finished || hopeless {
          cut := cut + [Order(lane.source, lane.target)];
        }
      }
    }
    assert lanes[..|lanes|] == lanes;
  }

  method FindActive(team: Team, cut: seq<Order>, lanes: seq<Lane>) returns (active: seq<Lane>)
    ensures active == Active(team, cut, lanes)
  {
    active := [];
    for i := 0 to |lanes|
      invariant active == Active(team, cut, lanes[..i])
    {
      assert lanes[..i + 1][..i] == lanes[..i];
      assert active + [] == active;
      if lanes[i].owner == team && Order(lanes[i].source, lanes[i].target) !in cut {
        active := active + [lanes[i]];
      }
    }
    assert lanes[..|lanes|] == lanes;
  }

  method FindRescuee(c: Scene, source: Id, ids: seq<Id>) returns (rescue: Option<Id>)
    ensures rescue == Rescuee(c, source, ids)
  {
    hide CanRescue, Weaker;
    rescue := None;
    for i := 0 to |ids|
      invariant rescue == Rescuee(c, source, ids[..i])
    {
      assert ids[..i + 1][..i] == ids[..i];
      if CanRescue(c, source, ids[i]) && (rescue == None || Weaker(c.g, ids[i], rescue.value)) {
        rescue := Some(ids[i]);
      }
    }
    assert ids[..|ids|] == ids;
  }

  method FindAttackee(c: Scene, source: Id, ids: seq<Id>) returns (attack: Option<Id>)
    ensures attack == Attackee(c, source, ids)
  {
    hide CanAttack, AttackScore;
    var options: seq<Scored> := [];
    for i := 0 to |ids|
      invariant options == Options(c, source, ids[..i])
    {
      assert ids[..i + 1][..i] == ids[..i];
      if CanAttack(c, source, ids[i]) {
        options := options + [Scored(ids[i], AttackScore(c, source, ids[i]))];
      }
    }
    assert ids[..|ids|] == ids;
    options := Sort(ScoredLe, options);
    return if options == [] then None else Some(options[0].target);
  }

  method PlanForTeam(g: GameState, s: LaneState, team: Team) returns (plan: LaneOrders)
    ensures plan == PlanLanes(g, s, team, SortedIds(g.territories.Keys))
    ensures PlanRight(g, s.lanes, team, plan)
  {
    hide Rescuee, Attackee, HasFreePath, Cuts, Active, SortedIds, PlanRight, CutsRight;
    PlanIs(g, s, team);
    var ids := TowerIds(g.territories);
    var cut := FindCuts(g, team, s.lanes);
    var active := FindActive(team, cut, s.lanes);
    var scene := Scene(g, team, s.lanes, active);
    var open: seq<Order> := [];
    for i := 0 to |ids|
      invariant open == Opens(scene, ids, ids[..i])
    {
      assert ids[..i + 1][..i] == ids[..i];
      if HasFreePath(scene, ids[i]) {
        var rescue := FindRescuee(scene, ids[i], ids);
        if rescue.Some? {
          open := open + [Order(ids[i], rescue.value)];
        } else {
          var attack := FindAttackee(scene, ids[i], ids);
          if attack.Some? {
            open := open + [Order(ids[i], attack.value)];
          }
        }
      }
    }
    assert ids[..|ids|] == ids;
    return LaneOrders(open, cut);
  }

  // ----- The engine

  class LaneEngine {
    const difficulty: Difficulty
    const battle: Battle
    var lanes: LaneState
    var nextBotSeconds: real

    constructor (difficulty: Difficulty, opening: GameState)
      ensures fresh(battle) && this.difficulty == difficulty
      ensures Now() == Engine(LanePhase(Phase(opening, map[]), NO_LANES), BotStartSeconds(difficulty))
    {
      this.difficulty := difficulty;
      battle := new Battle(opening);
      lanes := NO_LANES;
      nextBotSeconds := BotStartSeconds(difficulty);
    }

    ghost function Now(): Engine
      reads this, battle
    {
      Engine(LanePhase(Phase(battle.View(), battle.accumulators), lanes), nextBotSeconds)
    }

    /** The base simulation, then soldiers land and lanes emit. */
    method StepLaneSimulation(delta: real)
      modifies this`lanes, battle
      ensures Now() == old(Now()).(q := LaneStep(old(Now()).q, delta))
      ensures LaneStepped(BattleRules.Step(old(battle.View()), old(battle.accumulators), delta), old(lanes), delta,
        Now().q)
    {
      hide BattleRules.Step, LandAll, EmitAll, LaneVerdict, LaneStepped;
      LaneStepIs(Now().q, delta);
      battle.StepSimulation(delta);
      if battle.status != Playing {
        return;
      }
      var l := LandSoldiers(battle.territories, battle.stats, lanes.soldiers, delta);
      var e := EmitSoldiers(battle.board, l.territories, l.stats, lanes.lanes, delta);
      lanes := LaneState(e.lanes, l.flying + e.emitted, lanes.nextLaneId);
      battle.territories := e.territories;
      battle.stats := e.stats;
      battle.status := LaneVerdict(battle.territories, lanes.soldiers, battle.status);
    }

    method Step(delta: real)
      modifies this, battle
      ensures Now() == EngineStep(old(Now()), difficulty, delta)
    {
      hide LaneStep, PlanLanes, CutAll, OpenAll, SortedIds;
      StepLaneSimulation(delta);
      if battle.status == Playing && battle.elapsed >= nextBotSeconds - EPSILON {
        nextBotSeconds := nextBotSeconds + BotTickSeconds(difficulty);
        ApplyPlan();
      }
    }

    method ApplyPlan()
      modifies this`lanes
      ensures lanes == Planned(battle.View(), old(lanes), Enemy)
    {
      hide PlanLanes, SortedIds, PlanRight, OpenLane, CutLane;
      ghost var before := lanes;
      var plan := PlanForTeam(battle.View(), lanes, Enemy);
      for i := 0 to |plan.cut|
        invariant lanes == CutAll(before, Enemy, plan.cut[..i])
      {
        assert plan.cut[..i + 1][..i] == plan.cut[..i];
        var removed;
        lanes, removed := CutOneLane(lanes, Enemy, plan.cut[i].source, plan.cut[i].target);
      }
      assert plan.cut[..|plan.cut|] == plan.cut;
      ghost var cut := lanes;
      for i := 0 to |plan.open|
        invariant lanes == OpenAll(battle.View(), cut, Enemy, plan.open[..i])
      {
        assert plan.open[..i + 1][..i] == plan.open[..i];
        lanes := OpenOneLane(battle.View(), lanes, Enemy, plan.open[i].source, plan.open[i].target);
      }
      assert plan.open[..|plan.open|] == plan.open;
    }

    /** Says whether the lane runs afterwards, also when it already did. */
    method Open(source: Id, target: Id) returns (running: bool)
      modifies this`lanes
      ensures lanes == PlayerOpen(battle.View(), old(lanes), source, target)
      ensures running <==>
        At(battle.territories, source).owner == Player && source != target
        && HasLane(lanes.lanes, Player, source, target)
    {
      hide OpenLane, LanesFrom;
      if source !in battle.territories || battle.territories[source].owner != Player || source == target {
        return false;
      }
      lanes := OpenOneLane(battle.View(), lanes, Player, source, target);
      for i := 0 to |lanes.lanes|
        invariant !HasLane(lanes.lanes[..i], Player, source, target)
      {
        assert lanes.lanes[..i + 1][..i] == lanes.lanes[..i];
        if lanes.lanes[i].owner == Player && lanes.lanes[i].source == source && lanes.lanes[i].target == target {
          return true;
        }
      }
      assert lanes.lanes[..|lanes.lanes|] == lanes.lanes;
      return false;
    }

    method Cut(source: Id, target: Id) returns (removed: bool)
      modifies this`lanes
      ensures lanes == CutLane(old(lanes), Player, source, target)
      ensures removed <==> HasLane(old(lanes).lanes, Player, source, target)
    {
      lanes, removed := CutOneLane(lanes, Player, source, target);
    }
  }
}
