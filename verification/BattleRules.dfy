/** What one dispatch, one commander ability and one simulation step do to a battle, as functions
    of the state before them. */
module BattleRules {
  import opened Text
  import opened World
  import opened DispatchRoute
  import opened March
  import opened Combat

  const EPSILON := 0.000000001
  const CAPTURE_RECOVERY_MS := 3000
  const ABILITY_UNLOCK_SECONDS := 15.0
  const SHIELD_DURATION_MS := 8000
  const SUPPLY_UNITS := 5
  const CHARGE_SPEED_MULTIPLIER := 1.5
  const MIN_STRAIGHT_SECONDS := 1.0

  // ----- Dispatch

  datatype DispatchError = InvalidSource | InvalidTarget | InvalidDispatch

  /** Half of the garrison, at least one unit, never the last one. */
  function DispatchUnits(units: int): int {
    if units <= 1 then 0 else Max(1, units / 2)
  }

  function SpeedMultiplier(kind: Kind): Positive {
    if kind == Stable then 1.25 else 1.0
  }

  function SafeMultiplier(multiplier: real): Positive {
    if multiplier > 0.0 then multiplier else 1.0
  }

  function NewArmy(g: GameState, source: Id, target: Id, owner: Team, multiplier: real, units: int,
    route: seq<Id>): Army
    requires |route| >= 2
  {
    var pace: Positive := SafeMultiplier(multiplier) * SpeedMultiplier(At(g.territories, source).kind);
    if UsesTacticalRules(g.rules) then
      SetArmyLeg(g.board, Army(source, target, owner, units, 0.0, 1.0, route, 0, pace), source, route[1], 0)
    else
      var seconds: Positive := MaxReal(MIN_STRAIGHT_SECONDS,
        g.board.distance(source, target) / (BASE_ARMY_TRAVEL_SPEED * pace));
      Army(source, target, owner, units, 0.0, 1.0 / seconds, [], 0, pace)
  }

  function CountSent(stats: Stats, owner: Team, units: int): Stats {
    if owner == Player then stats.(playerSent := stats.playerSent + units)
    else stats.(enemySent := stats.enemySent + units)
  }

  lemma RouteLength(g: GameState, source: Id, target: Id, owner: Team)
    ensures FindRoute(g, source, target, owner).Some? ==> |FindRoute(g, source, target, owner).value| >= 2
  {
    if UsesTacticalRules(g.rules) {
      FindRouteCorrect(g, source, target, owner);
    }
  }

  /** The units leave the source and march as one new army. */
  function Sent(g: GameState, source: Id, target: Id, owner: Team, multiplier: real, units: int,
    route: seq<Id>): GameState
    requires source in g.territories && |route| >= 2
  {
    var from := g.territories[source];
    g.(
      territories := g.territories[source := from.(units := from.units - units)],
      armies := g.armies + [NewArmy(g, source, target, owner, multiplier, units, route)],
      stats := CountSent(g.stats, owner, units))
  }

  function Dispatch(g: GameState, source: Id, target: Id, owner: Team, multiplier: real): Result<GameState,
    DispatchError> {
    if source !in g.territories then Err(InvalidSource)
    else if target !in g.territories then Err(InvalidTarget)
    else if source == target || g.territories[source].owner != owner then Err(InvalidDispatch)
    else
      RouteLength(g, source, target, owner);
      match FindRoute(g, source, target, owner)
      case None => Err(InvalidDispatch)
      case Some(route) =>
        var from := g.territories[source];
        var units := DispatchUnits(from.units);
        if units <= 0 then Err(InvalidDispatch)
        else Ok(Sent(g, source, target, owner, multiplier, units, route))
  }

  // ----- Commander abilities

  datatype Commander = CrownGuard | Quartermaster | Vanguard | NoCommander

  function AbilityUsed(g: GameState, team: Team): bool {
    if team == Player then g.playerAbilityUsed else g.enemyAbilityUsed
  }

  function MarkUsed(g: GameState, team: Team): GameState {
    if team == Player then g.(playerAbilityUsed := true) else g.(enemyAbilityUsed := true)
  }

  predicate AbilityReady(g: GameState, team: Team) {
    HasCommanderAbilities(g.rules) && g.status == Playing && !AbilityUsed(g, team)
    && g.elapsed + EPSILON >= ABILITY_UNLOCK_SECONDS
  }

  /** The last army twice as strong, the extra units counted as sent. */
  function Boost(g: GameState, team: Team): GameState
    requires g.armies != []
  {
    var last := |g.armies| - 1;
    var army := g.armies[last];
    g.(armies := g.armies[last := army.(units := 2 * army.units)], stats := CountSent(g.stats, team, army.units))
  }

  function AbilityEffect(g: GameState, team: Team, commander: Commander, source: Id, target: Id,
    multiplier: real): Option<GameState>
    requires source in g.territories
  {
    match commander
    case CrownGuard =>
      if target != source then None
      else Some(g.(shieldedUntil := g.shieldedUntil[source := Milliseconds(g.elapsed) + SHIELD_DURATION_MS]))
    case Quartermaster =>
      if target != source then None
      else
        var t := g.territories[source];
        Some(g.(territories := g.territories[source := t.(units := t.units + SUPPLY_UNITS)]))
    case Vanguard =>
      if target == source then None
      else
        (match Dispatch(g, source, target, team, multiplier * CHARGE_SPEED_MULTIPLIER)
         case Err(_) => None
         case Ok(sent) => Some(Boost(sent, team)))
    case NoCommander => None
  }

  /** The one ability of a team; None when the use is illegal. */
  function ApplyAbility(g: GameState, team: Team, commander: Commander, source: Id, target: Id,
    multiplier: real): Option<GameState> {
    if !AbilityReady(g, team) || source !in g.territories || g.territories[source].owner != team then None
    else
      match AbilityEffect(g, team, commander, source, target, multiplier)
      case None => None
      case Some(done) => Some(MarkUsed(done, team))
  }

  // ----- One step: armies

  /** The state after some armies of the step have been handled; `g.armies` are those still on the road. */
  datatype Phase = Phase(g: GameState, acc: Accumulators)

  predicate Shielded(g: GameState, id: Id) {
    id in g.shieldedUntil && g.shieldedUntil[id] > Milliseconds(g.elapsed)
  }

  function ReadyAt(g: GameState, id: Id): int {
    if id in g.readyAt then g.readyAt[id] else 0
  }

  function CountCapture(stats: Stats, owner: Team): Stats {
    match owner
    case Player => stats.(playerCaptures := stats.playerCaptures + 1)
    case Enemy => stats.(enemyCaptures := stats.enemyCaptures + 1)
    case Neutral => stats
  }

  function ArrivalOutcome(g: GameState, army: Army): Outcome
    requires army.target in g.territories
  {
    ResolveArrival(g.territories[army.target], army.units, army.owner, Shielded(g, army.target))
  }

  function Fought(g: GameState, id: Id, o: Outcome): GameState
    requires id in g.territories
  {
    g.(territories := g.territories[id := After(g.territories[id], o)])
  }

  /** A capture restarts production, unless a recovery is already under way. */
  function StartRecovery(p: Phase, id: Id): Phase {
    var now := Milliseconds(p.g.elapsed);
    if !HasCaptureRecovery(p.g.rules) then p
    else Phase(
      if ReadyAt(p.g, id) <= now then p.g.(readyAt := p.g.readyAt[id := now + CAPTURE_RECOVERY_MS]) else p.g,
      p.acc[id := 0.0])
  }

  function Arrive(p: Phase, army: Army): Phase {
    if army.target !in p.g.territories then p
    else
      var o := ArrivalOutcome(p.g, army);
      var fought := Fought(p.g, army.target, o);
      if !o.captured then p.(g := fought)
      else StartRecovery(p.(g := fought.(stats := CountCapture(fought.stats, o.owner))), army.target)
  }

  function MoveArmy(g: GameState, army: Army, delta: real): (Army, bool) {
    if UsesTacticalRules(g.rules) then Advance(g.board, army, g.territories, delta)
    else
      var progress := Progress(army, delta);
      (army.(progress := progress), progress >= 1.0)
  }

  function HandleArmy(p: Phase, army: Army, delta: real): Phase {
    var (moved, arrived) := MoveArmy(p.g, army, delta);
    if arrived then Arrive(p, moved) else p.(g := p.g.(armies := p.g.armies + [moved]))
  }

  function HandleArmies(p: Phase, armies: seq<Army>, delta: real): Phase {
    if armies == [] then p
    else HandleArmy(HandleArmies(p, armies[..|armies| - 1], delta), armies[|armies| - 1], delta)
  }

  // ----- One step: production

  function ProductionMultiplier(kind: Kind): real {
    if kind == Barracks then 1.25 else 1.0
  }

  function CaptureMultiplier(elapsed: real, readyAt: int): real {
    var remaining := MaxReal(0.0, (readyAt - Milliseconds(elapsed)) as real);
    1.0 - 0.5 * MinReal(1.0, remaining / (CAPTURE_RECOVERY_MS as real))
  }

  function RecoveryMultiplier(g: GameState, id: Id): real {
    if HasCaptureRecovery(g.rules) then CaptureMultiplier(g.elapsed, ReadyAt(g, id)) else 1.0
  }

  function Snap(raw: real): real {
    var nearest := Round(raw) as real;
    if Abs(raw - nearest) < EPSILON then nearest else raw
  }

  predicate Produces(t: Territory) {
    t.owner != Neutral && t.productionRate > 0.0 && t.units < t.maxUnits
  }

  function Increment(t: Territory, multiplier: real, delta: real): real {
    t.productionRate * ProductionMultiplier(t.kind) * multiplier * delta
  }

  /** One tower's production: its new garrison and what stays accumulated. */
  function ProduceTower(t: Territory, accumulated: real, increment: real): (int, real) {
    if !Produces(t) then (t.units, 0.0)
    else
      var current := Snap(accumulated + increment);
      var whole := current.Floor;
      if whole > 0 then (t.units + Min(whole, Max(0, t.maxUnits - t.units)), current - whole as real)
      else (t.units, current)
  }

  function ProduceAt(g: GameState, acc: Accumulators, delta: real, id: Id): (int, real) {
    var t := At(g.territories, id);
    ProduceTower(t, Accumulated(acc, id), Increment(t, RecoveryMultiplier(g, id), delta))
  }

  function ProduceOne(p: Phase, acc: Accumulators, delta: real, id: Id): Phase {
    var (units, left) := ProduceAt(p.g, acc, delta, id);
    var t := At(p.g.territories, id);
    Phase(if units != t.units then p.g.(territories := p.g.territories[id := t.(units := units)])
      else p.g, p.acc[id := left])
  }

  /** Production over the towers of `order`; the new accumulators start empty. */
  function Produce(g: GameState, acc: Accumulators, delta: real, order: seq<Id>): Phase {
    if order == [] then Phase(g, map[])
    else ProduceOne(Produce(g, acc, delta, order[..|order| - 1]), acc, delta, order[|order| - 1])
  }

  // ----- One step: the verdict

  function TowersOf(territories: map<Id, Territory>, order: seq<Id>, team: Team): nat {
    if order == [] then 0
    else
      TowersOf(territories, order[..|order| - 1], team) +
      (if At(territories, order[|order| - 1]).owner == team then 1 else 0)
  }

  function UnitsOf(territories: map<Id, Territory>, order: seq<Id>, team: Team): int {
    if order == [] then 0
    else
      var t := At(territories, order[|order| - 1]);
      UnitsOf(territories, order[..|order| - 1], team) + (if t.owner == team then t.units else 0)
  }

  predicate HasArmy(armies: seq<Army>, team: Team) {
    exists i :: 0 <= i < |armies| && armies[i].owner == team
  }

  predicate Eliminated(g: GameState, team: Team) {
    TowersOf(g.territories, g.board.order, team) == 0 && !HasArmy(g.armies, team)
  }

  function Verdict(g: GameState): Status {
    var order := g.board.order;
    var pt, et := TowersOf(g.territories, order, Player), TowersOf(g.territories, order, Enemy);
    var pu, eu := UnitsOf(g.territories, order, Player), UnitsOf(g.territories, order, Enemy);
    if Eliminated(g, Enemy) then Victory
    else if Eliminated(g, Player) then Defeat
    else if g.elapsed >= g.limit then
      if pt > et || (pt == et && pu > eu) then Victory
      else if et > pt || (pt == et && eu > pu) then Defeat
      else Draw
    else g.status
  }

  // ----- The whole step

  function Tick(g: GameState, delta: real): GameState {
    var elapsed := g.elapsed + delta;
    var clock := if HasCaptureRecovery(g.rules) then (Round(elapsed * 1000000000.0) as real) / 1000000000.0
      else elapsed;
    g.(elapsed := clock, stats := g.stats.(duration := clock))
  }

  function Marched(g: GameState, acc: Accumulators, delta: real): Phase {
    HandleArmies(Phase(Tick(g, delta).(armies := []), acc), g.armies, delta)
  }

  function Produced(g: GameState, acc: Accumulators, delta: real): Phase {
    var m := Marched(g, acc, delta);
    Produce(m.g, m.acc, delta, g.board.order)
  }

  function Step(g: GameState, acc: Accumulators, delta: real): Phase {
    if g.status != Playing then Phase(g, acc)
    else
      var p := Produced(g, acc, delta);
      p.(g := p.g.(status := Verdict(p.g)))
  }
}
