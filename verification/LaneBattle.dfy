/** Whole lane battles: steps, the bot's planning cadence, and the player's orders. */
module LaneBattle {
  import opened Text
  import opened World
  import opened DispatchRoute
  import opened BattleRules
  import opened BattleInvariants
  import opened TacticalRules
  import opened ReplayRules
  import opened LaneRules
  import opened LaneLaws
  import opened LanePlan
  import opened LaneChoice

  function BotStartSeconds(d: Difficulty): real {
    match d
    case Easy => 10.0
    case Normal => 8.0
    case Hard => 2.0
  }

  function BotTickSeconds(d: Difficulty): real {
    match d
    case Easy => 8.0
    case Normal => 6.0
    case Hard => 4.5
  }

  datatype Engine = Engine(q: LanePhase, nextBot: real)

  ghost function Planned(g: GameState, s: LaneState, team: Team): LaneState {
    var plan := PlanLanes(g, s, team, SortedIds(g.territories.Keys));
    OpenAll(g, CutAll(s, team, plan.cut), team, plan.open)
  }

  predicate BotDue(q: LanePhase, nextBot: real) {
    q.p.g.status == Playing && q.p.g.elapsed >= nextBot - EPSILON
  }

  ghost function EngineStep(e: Engine, d: Difficulty, delta: real): Engine {
    var q := LaneStep(e.q, delta);
    if BotDue(q, e.nextBot) then Engine(q.(lanes := Planned(q.p.g, q.lanes, Enemy)), e.nextBot + BotTickSeconds(d))
    else e.(q := q)
  }

  function PlayerOpen(g: GameState, s: LaneState, source: Id, target: Id): LaneState {
    if source !in g.territories || g.territories[source].owner != Player || source == target then s
    else OpenLane(g, s, Player, source, target)
  }

  // ----- What orders keep

  lemma OpenLaneKeeps(g: GameState, s: LaneState, owner: Team, source: Id, target: Id)
    requires GoodLaneState(g, s) && owner != Neutral
    ensures GoodLaneState(g, OpenLane(g, s, owner, source, target))
  {
    hide NewLane, GoodBattle, GoodSoldiers, GoodLanes, DistinctLanes, IdsBelow, SourcesOwned, WithinPaths, GoodLane,
      LanesFrom, HasLane, MaxLanes;
    assert GoodBattle(g) ==> UsesTacticalRules(g.rules) by { BattleRulesKnown(g); }
    if NewLane(g, s, owner, source, target).Some? {
      NewLaneGood(g, s, owner, source, target);
      AddedLane(g, s, NewLane(g, s, owner, source, target).value);
    }
  }

  lemma BattleRulesKnown(g: GameState)
    ensures GoodBattle(g) ==> UsesTacticalRules(g.rules)
  {
  }

  lemma AddedLane(g: GameState, s: LaneState, l: Lane)
    requires GoodLaneState(g, s)
    requires GoodLane(g.board, g.territories.Keys, l) && At(g.territories, l.source).owner == l.owner
      && l.id == s.nextLaneId
    requires LanesFrom(s.lanes, l.owner, l.source) < MaxLanes(g, l.source)
      && !HasLane(s.lanes, l.owner, l.source, l.target)
    ensures GoodLaneState(g, s.(lanes := s.lanes + [l], nextLaneId := s.nextLaneId + 1))
  {
    hide GoodLane, GoodBattle, GoodSoldiers, WithinPaths, LanesFrom, MaxLanes;
    var lanes := s.lanes + [l];
    AddedPath(g, s.lanes, l);
    assert forall i :: 0 <= i < |s.lanes| ==> lanes[i] == s.lanes[i];
  }

  lemma AddedPath(g: GameState, lanes: seq<Lane>, l: Lane)
    requires WithinPaths(g, lanes) && LanesFrom(lanes, l.owner, l.source) < MaxLanes(g, l.source)
    ensures WithinPaths(g, lanes + [l])
  {
    hide LanesFrom, MaxLanes;
    forall o, x ensures LanesFrom(lanes + [l], o, x) <= MaxLanes(g, x) {
      LanesFromAppend(lanes, l, o, x);
    }
  }

  lemma NewLaneGood(g: GameState, s: LaneState, owner: Team, source: Id, target: Id)
    requires UsesTacticalRules(g.rules) && owner != Neutral && NewLane(g, s, owner, source, target).Some?
    ensures
      var l := NewLane(g, s, owner, source, target).value;
      && GoodLane(g.board, g.territories.Keys, l) && At(g.territories, l.source).owner == l.owner
      && l.owner == owner && l.source == source && l.target == target && l.id == s.nextLaneId
      && LanesFrom(s.lanes, owner, source) < MaxLanes(g, source) && !HasLane(s.lanes, owner, source, target)
  {
    hide LanesFrom, HasLane, MaxLanes;
    FindRouteCorrect(g, source, target, owner);
    var p := FindRoute(g, source, target, owner).value;
    assert forall i :: 0 <= i < |p| ==> p[i] in g.territories;
  }

  lemma {:induction false} WithoutFewer(lanes: seq<Lane>, owner: Team, source: Id, target: Id)
    ensures forall o, x :: LanesFrom(Without(lanes, owner, source, target), o, x) <= LanesFrom(lanes, o, x)
  {
    hide LanesFrom, Runs;
    if lanes == [] {
      NoneFrom();
    } else {
      var front, last := lanes[..|lanes| - 1], lanes[|lanes| - 1];
      assert lanes == front + [last];
      WithoutFewer(front, owner, source, target);
      var r := Without(front, owner, source, target);
      forall o, x ensures LanesFrom(Without(lanes, owner, source, target), o, x) <= LanesFrom(lanes, o, x) {
        LanesFromAppend(front, last, o, x);
        LanesFromAppend(r, last, o, x);
        assert r + [] == r;
      }
    }
  }

  lemma {:induction false} WithoutSubset(lanes: seq<Lane>, owner: Team, source: Id, target: Id)
    ensures forall l :: l in Without(lanes, owner, source, target) ==> l in lanes
  {
    hide Runs;
    if lanes != [] {
      WithoutSubset(lanes[..|lanes| - 1], owner, source, target);
    }
  }

  lemma {:induction false} WithoutDistinct(lanes: seq<Lane>, owner: Team, source: Id, target: Id)
    requires DistinctLanes(lanes)
    ensures DistinctLanes(Without(lanes, owner, source, target))
  {
    hide Runs;
    if lanes != [] {
      var front, last := lanes[..|lanes| - 1], lanes[|lanes| - 1];
      assert lanes == front + [last];
      WithoutDistinct(front, owner, source, target);
      WithoutSubset(front, owner, source, target);
      var r := Without(front, owner, source, target);
      forall k | 0 <= k < |r| ensures r[k].id != last.id && !Runs(last, r[k].owner, r[k].source, r[k].target) {
        assert r[k] in front;
        var i :| 0 <= i < |front| && front[i] == r[k];
        assert lanes[i] == r[k] && lanes[|front|] == last;
      }
    }
  }

  /** Dropping lanes keeps everything the invariant asks of the others. */
  lemma WithoutKeeps(g: GameState, lanes: seq<Lane>, owner: Team, source: Id, target: Id, next: nat)
    requires GoodLanes(g.board, g.territories.Keys, lanes) && DistinctLanes(lanes) && IdsBelow(lanes, next)
      && SourcesOwned(g.territories, lanes)
    ensures
      var r := Without(lanes, owner, source, target);
      && GoodLanes(g.board, g.territories.Keys, r) && DistinctLanes(r) && IdsBelow(r, next)
        && SourcesOwned(g.territories, r)
  {
    hide GoodLane, DistinctLanes, Without;
    WithoutSubset(lanes, owner, source, target);
    WithoutDistinct(lanes, owner, source, target);
    var r := Without(lanes, owner, source, target);
    forall k | 0 <= k < |r| ensures exists i :: 0 <= i < |lanes| && lanes[i] == r[k] {
      assert r[k] in lanes;
    }
  }

  lemma NoneFrom()
    ensures forall o, x :: LanesFrom([], o, x) == 0
  {
  }

  lemma CutLaneKeeps(g: GameState, s: LaneState, owner: Team, source: Id, target: Id)
    requires GoodLaneState(g, s)
    ensures GoodLaneState(g, CutLane(s, owner, source, target))
  {
    hide Without, GoodLanes, DistinctLanes, SourcesOwned, GoodBattle, LanesFrom, MaxLanes;
    WithoutKeeps(g, s.lanes, owner, source, target, s.nextLaneId);
    WithoutFewer(s.lanes, owner, source, target);
  }

  lemma {:induction false} CutAllKeeps(g: GameState, s: LaneState, team: Team, orders: seq<Order>)
    requires GoodLaneState(g, s)
    ensures GoodLaneState(g, CutAll(s, team, orders)) && CutAll(s, team, orders).soldiers == s.soldiers
  {
    hide GoodLaneState;
    if orders != [] {
      var front, o := orders[..|orders| - 1], orders[|orders| - 1];
      CutAllKeeps(g, s, team, front);
      CutLaneKeeps(g, CutAll(s, team, front), team, o.source, o.target);
    }
  }

  lemma {:induction false} OpenAllKeeps(g: GameState, s: LaneState, team: Team, orders: seq<Order>)
    requires GoodLaneState(g, s) && team != Neutral
    ensures GoodLaneState(g, OpenAll(g, s, team, orders)) && OpenAll(g, s, team, orders).soldiers == s.soldiers
  {
    hide GoodLaneState;
    if orders != [] {
      var front, o := orders[..|orders| - 1], orders[|orders| - 1];
      OpenAllKeeps(g, s, team, front);
      OpenLaneKeeps(g, OpenAll(g, s, team, front), team, o.source, o.target);
    }
  }

  // ----- What a step keeps

  function LaneTotal(q: LanePhase): int {
    Garrisons(q.p.g.territories, q.p.g.board.order) + |q.lanes.soldiers|
  }

  predicate Decided(q: LanePhase, delta: real) {
    Step(q.p.g, q.p.acc, delta).g.status != Playing
  }

  function StartLanding(q: LanePhase, delta: real): Landing {
    var p := Step(q.p.g, q.p.acc, delta);
    Landing(p.g.territories, p.g.stats, [])
  }

  function StepOverflow(q: LanePhase, delta: real): nat {
    if Decided(q, delta) then 0 else AllOverflow(StartLanding(q, delta), q.lanes.soldiers, delta)
  }

  function StepDuels(q: LanePhase, delta: real): nat {
    if Decided(q, delta) then 0 else AllDuels(StartLanding(q, delta), q.lanes.soldiers, delta)
  }

  lemma SameTowersPaths(g: GameState, h: GameState, lanes: seq<Lane>, kept: seq<Lane>)
    requires SameTowers(g.territories, h.territories) && WithinPaths(g, lanes)
    requires forall o, x :: LanesFrom(kept, o, x) <= LanesFrom(lanes, o, x)
    ensures WithinPaths(h, kept)
  {
    hide LanesFrom;
    forall o, x ensures LanesFrom(kept, o, x) <= MaxLanes(h, x) {
      assert x in g.territories ==> SameTower(g.territories[x], h.territories[x]);
      assert MaxLanes(h, x) == MaxLanes(g, x);
    }
  }

  lemma KeptIds(lanes: seq<Lane>, kept: seq<Lane>, next: nat)
    requires IdsBelow(lanes, next) && forall k :: 0 <= k < |kept| ==> ComesFrom(lanes, kept[k])
    ensures IdsBelow(kept, next)
  {
  }

  lemma SoldiersAppend(towers: set<Id>, a: seq<Soldier>, b: seq<Soldier>)
    requires GoodSoldiers(towers, a) && GoodSoldiers(towers, b)
    ensures GoodSoldiers(towers, a + b)
  {
  }

  /** After the base step, soldiers landing and lanes emitting. */
  lemma LanesMove(p: Phase, s: LaneState, delta: real)
    requires GoodBoard(p.g) && WithinCapacity(p.g.territories) && 0.0 <= delta
    requires GoodLanes(p.g.board, p.g.territories.Keys, s.lanes) && DistinctLanes(s.lanes)
    requires GoodSoldiers(p.g.territories.Keys, s.soldiers)
    ensures
      var l, e := Arrivals(p, s, delta), Departures(p, s, delta);
      var start := Landing(p.g.territories, p.g.stats, []);
      && WithinCapacity(e.territories) && SameTowers(p.g.territories, e.territories)
      && GoodSoldiers(p.g.territories.Keys, l.flying + e.emitted)
      && KeptLanes(p.g.board, p.g.territories.Keys, e.territories, s.lanes, e.lanes)
      && Garrisons(e.territories, p.g.board.order) + |l.flying + e.emitted| ==
         Garrisons(p.g.territories, p.g.board.order) + |s.soldiers|
         - AllOverflow(start, s.soldiers, delta) - 2 * AllDuels(start, s.soldiers, delta)
  {
    hide LandAll, EmitAll, Garrisons, GoodLanes, DistinctLanes, KeptLanes, AllOverflow, AllDuels;
    var start := Landing(p.g.territories, p.g.stats, []);
    LandAllKeeps(start, s.soldiers, delta, p.g.board.order);
    var l := Arrivals(p, s, delta);
    var e := Emission(l.territories, l.stats, [], []);
    assert Emitting(p.g, e);
    EmitAllKeeps(p.g, e, s.lanes, delta);
    EmitAllLanes(p.g, e, s.lanes, delta);
    KeptOwners(p.g.board, p.g.territories.Keys, e.territories, Departures(p, s, delta).territories, s.lanes,
      Departures(p, s, delta).lanes);
    SoldiersAppend(p.g.territories.Keys, l.flying, Departures(p, s, delta).emitted);
  }

  lemma KeptOwners(board: Board, towers: set<Id>, a: map<Id, Territory>, b: map<Id, Territory>, lanes: seq<Lane>,
    kept: seq<Lane>)
    requires KeptLanes(board, towers, a, lanes, kept) && a.Keys == b.Keys
    requires forall id :: id in a ==> b[id].owner == a[id].owner
    ensures KeptLanes(board, towers, b, lanes, kept)
  {
    hide LanesFrom, GoodLanes, DistinctLanes, ComesFrom;
  }

  /** A lane step keeps the invariant, and units change only by production, by overflow at full
      friendly towers and by duels, which cost one unit on each side. */
  lemma LaneStepKeeps(q: LanePhase, delta: real)
    requires GoodLaneState(q.p.g, q.lanes) && 0.0 <= delta
    ensures
      var r := LaneStep(q, delta);
      && GoodLaneState(r.p.g, r.lanes) && SameTowers(q.p.g.territories, r.p.g.territories) && r.p.g.board == q.p.g.board
      && LaneTotal(r) == LaneTotal(q) + StepGrowth(q.p.g, q.p.acc, delta) - StepOverflow(q, delta) - 2 * StepDuels(q,
        delta)
      && 0 <= StepGrowth(q.p.g, q.p.acc, delta)
  {
    hide Step, Garrisons, Arrivals, Departures, LaneVerdict, StepGrowth, AllOverflow, AllDuels, LanesFrom, GoodLane,
      WithinPaths;
    BaseStep(q.p.g, q.p.acc, delta);
    var p := Step(q.p.g, q.p.acc, delta);
    if p.g.status != Playing {
      SourcesStay(q.p.g.territories, p.g.territories, q.lanes.lanes);
      NoMoreLanes(q.lanes.lanes);
      SameTowersPaths(q.p.g, p.g, q.lanes.lanes, q.lanes.lanes);
    } else {
      LanesMove(p, q.lanes, delta);
      var e := Departures(p, q.lanes, delta);
      SameTowersChain(q.p.g.territories, p.g.territories, e.territories);
      KeptIds(q.lanes.lanes, e.lanes, q.lanes.nextLaneId);
      SameTowersPaths(q.p.g, p.g.(territories := e.territories), q.lanes.lanes, e.lanes);
      PathsDependOnTowers(p.g.(territories := e.territories), LaneStep(q, delta).p.g, e.lanes);
    }
  }

  lemma PathsDependOnTowers(g: GameState, h: GameState, lanes: seq<Lane>)
    requires WithinPaths(g, lanes) && h.territories == g.territories
    ensures WithinPaths(h, lanes)
  {
    hide LanesFrom;
    forall o, x ensures LanesFrom(lanes, o, x) <= MaxLanes(h, x) {
      assert MaxLanes(h, x) == MaxLanes(g, x);
    }
  }

  lemma SourcesStay(a: map<Id, Territory>, b: map<Id, Territory>, lanes: seq<Lane>)
    requires SourcesOwned(a, lanes) && a.Keys == b.Keys && forall id :: id in a ==> b[id].owner == a[id].owner
    ensures SourcesOwned(b, lanes)
  {
  }

  lemma NoMoreLanes(lanes: seq<Lane>)
    ensures forall o, x :: LanesFrom(lanes, o, x) <= LanesFrom(lanes, o, x)
  {
  }

  // ----- Whole runs

  datatype LaneCommand = Advance(delta: real) | OpenOrder(source: Id, target: Id) | CutOrder(source: Id, target: Id)

  ghost function Exec(e: Engine, d: Difficulty, c: LaneCommand): Engine {
    match c
    case Advance(delta) => EngineStep(e, d, delta)
    case OpenOrder(source, target) => e.(q := e.q.(lanes := PlayerOpen(e.q.p.g, e.q.lanes, source, target)))
    case CutOrder(source, target) => e.(q := e.q.(lanes := CutLane(e.q.lanes, Player, source, target)))
  }

  ghost function Run(e: Engine, d: Difficulty, commands: seq<LaneCommand>): Engine {
    if commands == [] then e else Exec(Run(e, d, commands[..|commands| - 1]), d, commands[|commands| - 1])
  }

  lemma EngineStepKeeps(e: Engine, d: Difficulty, delta: real)
    requires GoodLaneState(e.q.p.g, e.q.lanes) && 0.0 <= delta
    ensures
      var r := EngineStep(e, d, delta);
      && GoodLaneState(r.q.p.g, r.q.lanes) && LaneTotal(r.q) == LaneTotal(LaneStep(e.q, delta))
  {
    hide GoodLaneState, LaneStep, PlanLanes, CutAll, OpenAll, SortedIds;
    LaneStepKeeps(e.q, delta);
    var q := LaneStep(e.q, delta);
    if BotDue(q, e.nextBot) {
      var plan := PlanLanes(q.p.g, q.lanes, Enemy, SortedIds(q.p.g.territories.Keys));
      CutAllKeeps(q.p.g, q.lanes, Enemy, plan.cut);
      OpenAllKeeps(q.p.g, CutAll(q.lanes, Enemy, plan.cut), Enemy, plan.open);
    }
  }

  lemma ExecKeeps(e: Engine, d: Difficulty, c: LaneCommand)
    requires GoodLaneState(e.q.p.g, e.q.lanes) && (c.Advance? ==> 0.0 <= c.delta)
    ensures GoodLaneState(Exec(e, d, c).q.p.g, Exec(e, d, c).q.lanes)
    ensures !c.Advance? ==> LaneTotal(Exec(e, d, c).q) == LaneTotal(e.q) && Exec(e, d, c).q.p == e.q.p
  {
    hide GoodLaneState, EngineStep, FindRoute;
    match c
    case Advance(delta) => EngineStepKeeps(e, d, delta);
    case OpenOrder(source, target) => OpenLaneKeeps(e.q.p.g, e.q.lanes, Player, source, target);
    case CutOrder(source, target) => CutLaneKeeps(e.q.p.g, e.q.lanes, Player, source, target);
  }

  /** Over every run of steps, opens and cuts: at most one lane per owner, source and target, at most
      `tier` lanes per source, distinct lane ids below the next one, every lane's owner holds its
      source, every lane follows a road path, every wait is in [0, 0.2 + 1e-9], and garrisons stay
      within capacity. */
  lemma {:induction false} RunKeeps(e: Engine, d: Difficulty, commands: seq<LaneCommand>)
    requires GoodLaneState(e.q.p.g, e.q.lanes)
    requires forall i :: 0 <= i < |commands| && commands[i].Advance? ==> 0.0 <= commands[i].delta
    ensures GoodLaneState(Run(e, d, commands).q.p.g, Run(e, d, commands).q.lanes)
  {
    hide GoodLaneState, Exec;
    if commands != [] {
      RunKeeps(e, d, commands[..|commands| - 1]);
      ExecKeeps(Run(e, d, commands[..|commands| - 1]), d, commands[|commands| - 1]);
    }
  }

  /** The planner's orders at a planning tick are all carried out. */
  lemma PlannedOrdersRun(g: GameState, s: LaneState, team: Team)
    requires GoodLaneState(g, s)
    ensures
      var plan := PlanLanes(g, s, team, SortedIds(g.territories.Keys));
      && OwnLanes(Planned(g, s, team).lanes, team) == OwnLanes(s.lanes, team) - |plan.cut| + |plan.open|
      && forall i, j :: 0 <= i < j < |plan.open| ==> plan.open[i].source != plan.open[j].source
  {
    hide PlanLanes, CutAll, OpenAll, SortedIds, OwnLanes;
    SortedIdsList(g.territories.Keys);
    PlanIsExecutable(g, s, team, SortedIds(g.territories.Keys));
  }

  // ----- The player's opens

  ghost function RunningFrom(lanes: seq<Lane>, owner: Team, source: Id): set<nat> {
    set i | 0 <= i < |lanes| && lanes[i].owner == owner && lanes[i].source == source
  }

  lemma RunningFromMore(front: seq<Lane>, last: Lane, owner: Team, source: Id)
    ensures |front| !in RunningFrom(front, owner, source)
    ensures RunningFrom(front + [last], owner, source) == RunningFrom(front, owner, source)
      + (if last.owner == owner && last.source == source then {|front|} else {})
  {
    var lanes := front + [last];
    assert lanes[|front|] == last && forall i :: 0 <= i < |front| ==> lanes[i] == front[i];
  }

  lemma {:induction false} RunningCount(lanes: seq<Lane>, owner: Team, source: Id)
    ensures LanesFrom(lanes, owner, source) == |RunningFrom(lanes, owner, source)|
  {
    if lanes == [] {
      assert RunningFrom(lanes, owner, source) == {};
    } else {
      hide RunningFrom;
      var front, last := lanes[..|lanes| - 1], lanes[|lanes| - 1];
      assert lanes == front + [last];
      RunningCount(front, owner, source);
      RunningFromMore(front, last, owner, source);
    }
  }

  /** The player may open from an own tower to another one it has no lane to, while the tower runs fewer
      lanes than its tier allows, one at least, and a route exists. */
  ghost predicate MayOpen(g: GameState, lanes: seq<Lane>, source: Id, target: Id) {
    && source in g.territories && g.territories[source].owner == Player && source != target
    && !HasRunning(Player, lanes, source, target)
    && |RunningFrom(lanes, Player, source)| < (if g.territories[source].tier > 0 then g.territories[source].tier else 1)
    && FindRoute(g, source, target, Player).Some?
  }

  /** An open adds exactly one lane, with the next id and ready to emit, or changes nothing. */
  lemma OpenIff(g: GameState, s: LaneState, source: Id, target: Id)
    ensures PlayerOpen(g, s, source, target) ==
      if MayOpen(g, s.lanes, source, target) then
        s.(lanes := s.lanes + [Lane(s.nextLaneId, Player, source, target, FindRoute(g, source, target, Player).value,
          0.0)],
           nextLaneId := s.nextLaneId + 1)
      else s
  {
    hide FindRoute, LanesFrom, RunningFrom;
    RunningCount(s.lanes, Player, source);
    assert HasRunning(Player, s.lanes, source, target) <==> HasLane(s.lanes, Player, source, target);
  }
}
