/** Lane battles: a lane streams single soldiers from its source until it is cut. The rules of one
    lane order and one step, as functions of the state before them. */
module LaneRules {
  import opened Text
  import opened World
  import opened DispatchRoute
  import opened BattleRules

  const EMIT_SECONDS := 0.2
  const SOLDIER_SPEED := 140.0

  datatype Lane = Lane(id: nat, owner: Team, source: Id, target: Id, route: seq<Id>, nextEmitIn: real)

  datatype Soldier = Soldier(owner: Team, target: Id, route: seq<Id>, total: real, remaining: real)

  datatype LaneState = LaneState(lanes: seq<Lane>, soldiers: seq<Soldier>, nextLaneId: nat)

  const NO_LANES := LaneState([], [], 0)

  function MaxLanes(g: GameState, id: Id): int {
    if id in g.territories && g.territories[id].tier > 0 then g.territories[id].tier else 1
  }

  // ----- Orders

  predicate Runs(l: Lane, owner: Team, source: Id, target: Id) {
    l.owner == owner && l.source == source && l.target == target
  }

  predicate HasLane(lanes: seq<Lane>, owner: Team, source: Id, target: Id) {
    exists i :: 0 <= i < |lanes| && Runs(lanes[i], owner, source, target)
  }

  function LanesFrom(lanes: seq<Lane>, owner: Team, source: Id): nat {
    if lanes == [] then 0
    else
      var last := lanes[|lanes| - 1];
      LanesFrom(lanes[..|lanes| - 1], owner, source) + (if last.owner == owner && last.source == source then 1 else 0)
  }

  /** The lane an order adds; None when it is a duplicate, has no free path or no legal route. */
  function NewLane(g: GameState, s: LaneState, owner: Team, source: Id, target: Id): Option<Lane> {
    if HasLane(s.lanes, owner, source, target) then None
    else if LanesFrom(s.lanes, owner, source) >= MaxLanes(g, source) then None
    else match FindRoute(g, source, target, owner)
      case None => None
      case Some(route) => Some(Lane(s.nextLaneId, owner, source, target, route, 0.0))
  }

  function OpenLane(g: GameState, s: LaneState, owner: Team, source: Id, target: Id): LaneState {
    match NewLane(g, s, owner, source, target)
    case None => s
    case Some(lane) => s.(lanes := s.lanes + [lane], nextLaneId := s.nextLaneId + 1)
  }

  function Without(lanes: seq<Lane>, owner: Team, source: Id, target: Id): (r: seq<Lane>)
    ensures |r| <= |lanes|
  {
    if lanes == [] then []
    else
      var last := lanes[|lanes| - 1];
      Without(lanes[..|lanes| - 1], owner, source, target) + (if Runs(last, owner, source, target) then [] else [last])
  }

  function CutLane(s: LaneState, owner: Team, source: Id, target: Id): LaneState {
    s.(lanes := Without(s.lanes, owner, source, target))
  }

  // ----- Soldiers in flight

  /** The towers, the statistics and the soldiers still flying after some soldiers were handled. */
  datatype Landing = Landing(territories: map<Id, Territory>, stats: Stats, flying: seq<Soldier>)

  predicate StillFlying(s: Soldier, delta: real) {
    s.remaining - delta > EPSILON
  }

  /** A soldier reinforces its own tower up to capacity, removes one defender of another, or takes
      an empty one. */
  function Landed(t: Territory, owner: Team): Territory {
    if t.owner == owner then t.(units := Min(t.maxUnits, t.units + 1))
    else if t.units > 0 then t.(units := t.units - 1)
    else t.(owner := owner, units := 1)
  }

  predicate Captures(t: Territory, owner: Team) {
    t.owner != owner && t.units <= 0
  }

  function CountLaneCapture(stats: Stats, owner: Team): Stats {
    if owner == Player then stats.(playerCaptures := stats.playerCaptures + 1)
    else stats.(enemyCaptures := stats.enemyCaptures + 1)
  }

  function Land(l: Landing, s: Soldier, delta: real): Landing {
    if StillFlying(s, delta) then l.(flying := l.flying + [s.(remaining := s.remaining - delta)])
    else if s.target !in l.territories then l
    else
      var t := l.territories[s.target];
      l.(territories := l.territories[s.target := Landed(t, s.owner)],
         stats := if Captures(t, s.owner) then CountLaneCapture(l.stats, s.owner) else l.stats)
  }

  function LandAll(l: Landing, soldiers: seq<Soldier>, delta: real): Landing {
    if soldiers == [] then l
    else Land(LandAll(l, soldiers[..|soldiers| - 1], delta), soldiers[|soldiers| - 1], delta)
  }

  // ----- Emission

  function RouteLengthFrom(b: Board, route: seq<Id>, i: nat): real
    decreases |route| - i
  {
    if i + 1 >= |route| then 0.0 else b.distance(route[i], route[i + 1]) + RouteLengthFrom(b, route, i + 1)
  }

  function RouteSeconds(b: Board, route: seq<Id>): real {
    RouteLengthFrom(b, route, 0) / SOLDIER_SPEED
  }

  datatype Burst = Burst(units: int, wait: real, sent: nat)

  /** One soldier leaves for every emission due, as long as the source keeps one unit. */
  function Emit(units: int, wait: real): Burst
    decreases units
  {
    if wait > EPSILON then Burst(units, wait, 0)
    else if units <= 1 then Burst(units, MaxReal(wait + EMIT_SECONDS, EMIT_SECONDS), 0)
    else if units - 1 <= 1 then Burst(units - 1, MaxReal(wait + EMIT_SECONDS, EMIT_SECONDS), 1)
    else
      var b := Emit(units - 1, wait + EMIT_SECONDS);
      b.(sent := b.sent + 1)
  }

  datatype Emission = Emission(territories: map<Id, Territory>, stats: Stats, emitted: seq<Soldier>, lanes: seq<Lane>)

  function NewSoldier(b: Board, l: Lane): Soldier {
    var total := RouteSeconds(b, l.route);
    Soldier(l.owner, l.target, l.route, total, total)
  }

  function Repeat(s: Soldier, n: nat): seq<Soldier> {
    if n == 0 then [] else Repeat(s, n - 1) + [s]
  }

  /** A lane whose source has been lost is dropped. */
  function EmitLane(b: Board, e: Emission, l: Lane, delta: real): Emission {
    var t := At(e.territories, l.source);
    if t.owner != l.owner then e
    else
      var burst := Emit(t.units, l.nextEmitIn - delta);
      Emission(e.territories[l.source := t.(units := burst.units)],
               CountSent(e.stats, l.owner, burst.sent),
               e.emitted + Repeat(NewSoldier(b, l), burst.sent),
               e.lanes + [l.(nextEmitIn := burst.wait)])
  }

  function EmitAll(b: Board, e: Emission, lanes: seq<Lane>, delta: real): Emission {
    if lanes == [] then e
    else EmitLane(b, EmitAll(b, e, lanes[..|lanes| - 1], delta), lanes[|lanes| - 1], delta)
  }

  // ----- The step

  function Towers(territories: map<Id, Territory>, team: Team): set<Id> {
    set id | id in territories && territories[id].owner == team
  }

  predicate InFlight(soldiers: seq<Soldier>, team: Team) {
    exists i :: 0 <= i < |soldiers| && soldiers[i].owner == team
  }

  function LaneVerdict(territories: map<Id, Territory>, soldiers: seq<Soldier>, status: Status): Status {
    if Towers(territories, Enemy) == {} && !InFlight(soldiers, Enemy) then Victory
    else if Towers(territories, Player) == {} && !InFlight(soldiers, Player) then Defeat
    else status
  }

  datatype LanePhase = LanePhase(p: Phase, lanes: LaneState)

  function Arrivals(p: Phase, s: LaneState, delta: real): Landing {
    LandAll(Landing(p.g.territories, p.g.stats, []), s.soldiers, delta)
  }

  function Departures(p: Phase, s: LaneState, delta: real): Emission {
    var l := Arrivals(p, s, delta);
    EmitAll(p.g.board, Emission(l.territories, l.stats, [], []), s.lanes, delta)
  }

  /** The base step, then the lanes by the same step; a battle the base step decides stops there. */
  function LaneStep(q: LanePhase, delta: real): LanePhase {
    var p := Step(q.p.g, q.p.acc, delta);
    if p.g.status != Playing then LanePhase(p, q.lanes)
    else
      var flying := Arrivals(p, q.lanes, delta).flying;
      var e := Departures(p, q.lanes, delta);
      var soldiers := flying + e.emitted;
      LanePhase(
        p.(g := p.g.(territories := e.territories, stats := e.stats, status :=
          LaneVerdict(e.territories, soldiers, p.g.status))),
        LaneState(e.lanes, soldiers, q.lanes.nextLaneId))
  }
}
