/** The bot's decisions as functions of the state: forecasts, candidate senders, the moves of one
    planning tick, and whether to spend its one ability. */
module TacticalRules {
  import opened Text
  import opened Sorting
  import opened World
  import opened Routes
  import opened DispatchRoute
  import opened March
  import opened Combat
  import opened BattleRules

  datatype Move = Move(source: Id, target: Id)

  // ----- Tower ids in text order

  lemma TextOrder()
    ensures TotalOrder(AtMost)
  {
    forall x: string, y: string ensures AtMost(x, y) || AtMost(y, x) {
      AtMostTotal(x, y);
    }
    forall x: string, y: string, z: string | AtMost(x, y) && AtMost(y, z) ensures AtMost(x, z) {
      AtMostTransitive(x, y, z);
    }
  }

  ghost function Listed(s: set<Id>): (r: seq<Id>)
    ensures multiset(r) == multiset(s)
  {
    if s == {} then []
    else
      var x :| x in s;
      assert multiset(s) == multiset(s - {x}) + multiset{x};
      [x] + Listed(s - {x})
  }

  ghost function SortedIds(s: set<Id>): (r: seq<Id>)
    ensures multiset(r) == multiset(s)
  {
    Sort(AtMost, Listed(s))
  }

  lemma ListsOnce(r: seq<Id>, s: set<Id>)
    requires multiset(r) == multiset(s)
    ensures forall x :: x in r <==> x in s
    ensures Simple(r)
  {
    forall x ensures x in r <==> x in s {
      assert x in r <==> x in multiset(r);
    }
    forall i, j | 0 <= i < j < |r| ensures r[i] != r[j] {
      assert r == r[..j] + [r[j]] + r[j + 1..];
      assert r[i] in r[..j];
      assert r[i] in multiset(r[..j]);
      assert multiset(r)[r[j]] <= 1;
    }
  }

  lemma SortedIdsList(s: set<Id>)
    ensures forall x :: x in SortedIds(s) <==> x in s
    ensures Simple(SortedIds(s)) && Sorted(AtMost, SortedIds(s))
  {
    TextOrder();
    SortSorted(AtMost, Listed(s));
    ListsOnce(SortedIds(s), s);
  }

  /** Whatever order the ids of a set are gathered in, sorting gives the same list. */
  lemma SortedIdsUnique(r: seq<Id>, s: set<Id>)
    requires multiset(r) == multiset(s)
    ensures Sort(AtMost, r) == SortedIds(s)
  {
    TextOrder();
    SortSorted(AtMost, r);
    var a, b := Sort(AtMost, r), SortedIds(s);
    SortedIdsList(s);
    ListsOnce(a, s);
    forall i, j | 0 <= i < j < |a| ensures !AtMost(a[j], a[i]) {
      AtMostTotal(a[i], a[j]);
    }
    SortedUnique(AtMost, a, b);
  }

  // ----- Armies on their way to a tower

  datatype Incoming = Incoming(army: Army, index: nat, eta: real)

  predicate IncomingLe(x: Incoming, y: Incoming) {
    x.eta < y.eta || (x.eta == y.eta && x.index <= y.index)
  }

  function Approaching(g: GameState, id: Id, count: nat): seq<Incoming>
    requires count <= |g.armies|
  {
    if count == 0 then []
    else
      var a := g.armies[count - 1];
      Approaching(g, id, count - 1) +
      (if ArmyDestination(a, g.territories) == id then [Incoming(a, count - 1,
        ArrivalSeconds(g.board, a, g.territories))] else [])
  }

  function IncomingAt(g: GameState, id: Id): seq<Incoming> {
    Sort(IncomingLe, Approaching(g, id, |g.armies|))
  }

  function HostileTo(team: Team, incoming: seq<Incoming>): seq<Incoming> {
    if incoming == [] then []
    else
      var last := incoming[|incoming| - 1];
      HostileTo(team, incoming[..|incoming| - 1]) + (if last.army.owner != team then [last] else [])
  }

  /** The tower after the waves that land within `seconds`, production ignored. */
  function Forecast(t: Territory, incoming: seq<Incoming>, seconds: real, shielded: bool): Territory {
    if incoming == [] then t
    else
      var last := incoming[|incoming| - 1];
      var before := Forecast(t, incoming[..|incoming| - 1], seconds, shielded);
      if last.eta <= seconds + EPSILON then Attack(before, last.army.units, last.army.owner, shielded) else before
  }

  function ForecastAt(g: GameState, id: Id, seconds: real, units: int, shielded: bool): Territory {
    Forecast(At(g.territories, id).(units := units), IncomingAt(g, id), seconds, shielded)
  }

  // ----- Candidate senders

  datatype Candidate = Candidate(source: Id, army: Army, eta: real)

  predicate CandidateLe(x: Candidate, y: Candidate) {
    x.eta < y.eta || (x.eta == y.eta && AtMost(x.source, y.source))
  }

  /** Sending half away leaves the source its own through the last hostile army on the way to it. */
  function SafeToSend(g: GameState, source: Id, team: Team): bool {
    var s := At(g.territories, source);
    var hostile := HostileTo(team, IncomingAt(g, source));
    hostile == [] || ForecastAt(g, source, hostile[|hostile| - 1].eta, s.units - DispatchUnits(s.units),
      false).owner == team
  }

  function CandidateArmy(g: GameState, source: Id, team: Team, multiplier: Positive, route: seq<Id>): Army
    requires |route| >= 2
  {
    var s := At(g.territories, source);
    SetArmyLeg(g.board, Army(source, route[1], team, DispatchUnits(s.units), 0.0, 1.0, route, 0,
      multiplier * SpeedMultiplier(s.kind)), source, route[1], 0)
  }

  function CandidateFrom(g: GameState, source: Id, target: Id, team: Team, multiplier: Positive): Option<Candidate> {
    var s := At(g.territories, source);
    if s.owner != team || s.units < 4 || source == target then None
    else
      RouteLength(g, source, target, team);
      match FindRoute(g, source, target, team)
      case None => None
      case Some(route) =>
        if !SafeToSend(g, source, team) then None
        else
          var army := CandidateArmy(g, source, team, multiplier, route);
          Some(Candidate(source, army, ArrivalSeconds(g.board, army, g.territories)))
  }

  function Senders(g: GameState, ids: seq<Id>, target: Id, team: Team, multiplier: Positive): seq<Candidate> {
    if ids == [] then []
    else
      Senders(g, ids[..|ids| - 1], target, team, multiplier) +
      (match CandidateFrom(g, ids[|ids| - 1], target, team, multiplier)
       case Some(c) => [c]
       case None => [])
  }

  /** Who can send to `target`, soonest arrival first. */
  function Candidates(g: GameState, ids: seq<Id>, target: Id, team: Team, multiplier: Positive): seq<Candidate> {
    Sort(CandidateLe, Senders(g, ids, target, team, multiplier))
  }

  // ----- Rescue

  datatype Threat = Threat(tower: Id, firstEta: real, horizon: real)

  /** The tower is the team's own and the hostile armies already marching would take it. */
  function ThreatTo(g: GameState, id: Id, team: Team): Option<Threat> {
    var t := At(g.territories, id);
    if t.owner != team then None
    else
      var hostile := HostileTo(team, IncomingAt(g, id));
      if hostile == [] then None
      else
        var horizon := hostile[|hostile| - 1].eta;
        if ForecastAt(g, id, horizon, t.units, false).owner == team then None
        else Some(Threat(id, hostile[0].eta, horizon))
  }

  /** Add senders that arrive before the first hostile army until the forecast holds. */
  function RescueWith(g: GameState, threat: Threat, team: Team, units: int, moves: seq<Move>,
    senders: seq<Candidate>): Option<seq<Move>>
    decreases |senders|
  {
    if senders == [] then None
    else if senders[0].eta >= threat.firstEta - EPSILON then RescueWith(g, threat, team, units, moves, senders[1..])
    else
      var units' := units + senders[0].army.units;
      var moves' := moves + [Move(senders[0].source, threat.tower)];
      if ForecastAt(g, threat.tower, threat.horizon, units', false).owner == team then Some(moves')
      else RescueWith(g, threat, team, units', moves', senders[1..])
  }

  function RescueOf(g: GameState, ids: seq<Id>, id: Id, team: Team, multiplier: Positive): Option<seq<Move>> {
    match ThreatTo(g, id, team)
    case None => None
    case Some(threat) => RescueWith(g, threat, team, At(g.territories, id).units, [],
      Candidates(g, ids, id, team, multiplier))
  }

  /** The rescue of the first tower, from position `i` on, that can be rescued. */
  function Rescue(g: GameState, ids: seq<Id>, i: nat, team: Team, multiplier: Positive): Option<seq<Move>>
    requires i <= |ids|
    decreases |ids| - i
  {
    if i == |ids| then None
    else
      match RescueOf(g, ids, ids[i], team, multiplier)
      case Some(moves) => Some(moves)
      case None => Rescue(g, ids, i + 1, team, multiplier)
  }

  // ----- Conquest

  datatype Plan = Plan(moves: seq<Move>, score: real)

  function RoleValue(kind: Kind): int {
    if kind == Barracks then 18 else if kind == Stable then 14 else 10
  }

  function ConquestScore(t: Territory, projectedUnits: int, eta: real): real {
    ((if t.owner == Neutral then 500 else 1000) + RoleValue(t.kind) * 10 +
      Min(projectedUnits, 50) - Round(eta * 10.0)) as real
  }

  /** Waves of the senders in order until the projected tower falls. */
  function ConquerWith(t: Territory, id: Id, team: Team, projected: Territory, moves: seq<Move>,
    senders: seq<Candidate>): Option<Plan>
    decreases |senders|
  {
    if senders == [] then None
    else
      var after := Attack(projected, senders[0].army.units, team, false);
      var moves' := moves + [Move(senders[0].source, id)];
      if after.owner == team then Some(Plan(moves', ConquestScore(t, after.units, senders[0].eta)))
      else ConquerWith(t, id, team, after, moves', senders[1..])
  }

  /** The target as it will stand when the last sender arrives. */
  function Projected(g: GameState, id: Id, lastEta: real): Territory {
    var t := At(g.territories, id);
    var p := ForecastAt(g, id, lastEta, t.units, false);
    if t.owner == Neutral then p
    else p.(units := p.units + Ceil(lastEta * t.productionRate * ProductionMultiplier(t.kind)))
  }

  function ConquestOf(g: GameState, ids: seq<Id>, id: Id, team: Team, multiplier: Positive): Option<Plan> {
    var t := At(g.territories, id);
    if t.owner == team then None
    else
      var senders := Candidates(g, ids, id, team, multiplier);
      if senders == [] then None
      else
        var lastEta := senders[|senders| - 1].eta;
        if ForecastAt(g, id, lastEta, t.units, false).owner == team then None
        else ConquerWith(t, id, team, Projected(g, id, lastEta), [], senders)
  }

  function BetterPlan(best: Option<Plan>, plan: Option<Plan>): Option<Plan> {
    if plan.Some? && (best == None || plan.value.score > best.value.score) then plan else best
  }

  /** The best conquest among the first `count` towers; the earlier one on equal scores. */
  function BestConquest(g: GameState, ids: seq<Id>, count: nat, team: Team, multiplier: Positive): Option<Plan>
    requires count <= |ids|
  {
    if count == 0 then None
    else BetterPlan(BestConquest(g, ids, count - 1, team, multiplier),
      ConquestOf(g, ids, ids[count - 1], team, multiplier))
  }

  // ----- Reinforcing the frontier

  function AnyForeign(g: GameState, team: Team, near: seq<Id>): bool {
    near != [] && (AnyForeign(g, team, near[..|near| - 1]) || At(g.territories, near[|near| - 1]).owner != team)
  }

  function OnFrontier(g: GameState, team: Team, id: Id): bool {
    AnyForeign(g, team, Neighbors(g.board, id))
  }

  function Committed(team: Team, incoming: seq<Incoming>): int {
    if incoming == [] then 0
    else
      var last := incoming[|incoming| - 1];
      Committed(team, incoming[..|incoming| - 1]) + (if last.army.owner == team then last.army.units else 0)
  }

  function Strongest(g: GameState, team: Team, near: seq<Id>): int {
    if near == [] then 0
    else
      var rest := Strongest(g, team, near[..|near| - 1]);
      var n := At(g.territories, near[|near| - 1]);
      if n.owner != team then Max(rest, DefenseStrength(n.units, DefenseQuarters(n.kind, false))) else rest
  }

  predicate WantsSupply(g: GameState, team: Team, id: Id) {
    var t := At(g.territories, id);
    && t.owner == team && OnFrontier(g, team, id)
    && DispatchUnits(t.units + Committed(team, IncomingAt(g, id))) <= Strongest(g, team, Neighbors(g.board, id))
  }

  /** The first sender that is not on the frontier itself. */
  function RearSender(g: GameState, team: Team, senders: seq<Candidate>): Option<Id> {
    if senders == [] then None
    else if !OnFrontier(g, team, senders[0].source) then Some(senders[0].source)
    else RearSender(g, team, senders[1..])
  }

  function Supply(g: GameState, ids: seq<Id>, i: nat, team: Team, multiplier: Positive): seq<Move>
    requires i <= |ids|
    decreases |ids| - i
  {
    if i == |ids| then []
    else if !WantsSupply(g, team, ids[i]) then Supply(g, ids, i + 1, team, multiplier)
    else
      match RearSender(g, team, Candidates(g, ids, ids[i], team, multiplier))
      case Some(source) => [Move(source, ids[i])]
      case None => Supply(g, ids, i + 1, team, multiplier)
  }

  /** One planning tick: rescue first, then the best conquest, then one reinforcement. */
  function TacticalMoves(g: GameState, ids: seq<Id>, team: Team, multiplier: Positive): seq<Move> {
    if g.status != Playing then []
    else
      match Rescue(g, ids, 0, team, multiplier)
      case Some(moves) => moves
      case None =>
        match BestConquest(g, ids, |ids|, team, multiplier)
        case Some(plan) => plan.moves
        case None => Supply(g, ids, 0, team, multiplier)
  }

  // ----- The bot's ability

  datatype Choice = Choice(source: Id, target: Id, moves: seq<Move>)

  function Threats(g: GameState, ids: seq<Id>, team: Team): seq<Threat> {
    if ids == [] then []
    else
      Threats(g, ids[..|ids| - 1], team) +
      (match ThreatTo(g, ids[|ids| - 1], team)
       case Some(t) => [t]
       case None => [])
  }

  const SHIELD_WINDOW := (SHIELD_DURATION_MS / 1000 - 1) as real

  /** The shield is up for the fight and saves the tower. */
  predicate ShieldSaves(g: GameState, team: Team, t: Threat) {
    && t.firstEta <= SHIELD_WINDOW + EPSILON
    && ForecastAt(g, t.tower, MinReal(SHIELD_WINDOW, t.horizon), At(g.territories, t.tower).units, true).owner == team
  }

  predicate SupplySaves(g: GameState, team: Team, t: Threat) {
    ForecastAt(g, t.tower, t.horizon, At(g.territories, t.tower).units + SUPPLY_UNITS, false).owner == team
  }

  function Where(threats: seq<Threat>, keep: Threat -> bool): (r: seq<Threat>)
    ensures forall t :: t in r <==> t in threats && keep(t)
  {
    if threats == [] then []
    else
      var last := threats[|threats| - 1];
      assert threats == threats[..|threats| - 1] + [last];
      Where(threats[..|threats| - 1], keep) + (if keep(last) then [last] else [])
  }

  function StrongestFirst(g: GameState): (Threat, Threat) -> bool {
    (x: Threat, y: Threat) =>
      var a, b := At(g.territories, x.tower).units, At(g.territories, y.tower).units;
      a > b || (a == b && AtMost(x.tower, y.tower))
  }

  predicate SoonestFirst(x: Threat, y: Threat) {
    x.firstEta < y.firstEta || (x.firstEta == y.firstEta && AtMost(x.tower, y.tower))
  }

  function ChooseAbility(g: GameState, ids: seq<Id>, team: Team, commander: Commander,
    moves: seq<Move>): Option<Choice> {
    if commander == NoCommander || !AbilityReady(g, team) then None
    else
      match commander
      case Vanguard =>
        if moves == [] then None else Some(Choice(moves[0].source, moves[0].target, moves[1..]))
      case CrownGuard =>
        var saved := Sort(StrongestFirst(g), Where(Threats(g, ids, team), t => ShieldSaves(g, team, t)));
        if saved == [] then None else Some(Choice(saved[0].tower, saved[0].tower, moves))
      case Quartermaster =>
        var rescued := Sort(SoonestFirst, Where(Threats(g, ids, team), t => SupplySaves(g, team, t)));
        if rescued != [] then Some(Choice(rescued[0].tower, rescued[0].tower, moves))
        else if moves != [] then Some(Choice(moves[0].source, moves[0].source, moves))
        else None
      case NoCommander => None
  }
}
