/** The replay of a recorded bot battle on the fixed tick grid (rules v2 to v4), as a function of
    the recorded actions. */
module ReplayRules {
  import opened Text
  import opened World
  import opened Combat
  import opened BattleRules
  import opened TacticalRules
  import opened TacticalOrders

  const TICK := 0.02
  const TIME_LIMIT := 90.0
  const MAX_ACTIONS := 120

  datatype ActionKind = SendAction | AbilityAction | UnknownAction

  datatype Action = Action(sequence: int, at: real, source: Id, target: Id, kind: ActionKind)

  datatype Difficulty = Easy | Normal | Hard

  /** Everything the replay is given besides the actions. */
  datatype Setup = Setup(opening: GameState, playerSpeed: real, enemySpeed: Positive, difficulty: Difficulty,
    commander: Commander)

  function PlanningPeriod(d: Difficulty): real {
    match d
    case Easy => 3.6
    case Normal => 1.8
    case Hard => 0.9
  }

  function BotCommander(d: Difficulty): Commander {
    match d
    case Easy => NoCommander
    case Normal => Quartermaster
    case Hard => Vanguard
  }

  // ----- Structural checks

  datatype ReplayError = TooManyActions | InvalidSequence | InvalidActionKind | InvalidTimestamp

  predicate InTime(actions: seq<Action>, i: nat)
    requires i < |actions|
  {
    && 0.0 <= actions[i].at <= TIME_LIMIT
    && (if i == 0 then 0.0 else actions[i - 1].at) <= actions[i].at
  }

  /** The first violation from position `i` on. */
  function FirstViolation(actions: seq<Action>, i: nat): Option<ReplayError>
    requires i <= |actions|
    decreases |actions| - i
  {
    if i == |actions| then None
    else if actions[i].sequence != i then Some(InvalidSequence)
    else if actions[i].kind == UnknownAction then Some(InvalidActionKind)
    else if !InTime(actions, i) then Some(InvalidTimestamp)
    else FirstViolation(actions, i + 1)
  }

  function Violation(actions: seq<Action>): Option<ReplayError> {
    if |actions| > MAX_ACTIONS then Some(TooManyActions) else FirstViolation(actions, 0)
  }

  // ----- The bot under rules v2

  function TowerValue(kind: Kind): real {
    if kind == Barracks then 18.0 else if kind == Stable then 14.0 else 10.0
  }

  function AiScore(g: GameState, source: Id, target: Id): real {
    var s, t := At(g.territories, source), At(g.territories, target);
    var penalty := g.board.distance(source, target) * 0.06;
    var amount := DispatchUnits(s.units);
    if t.owner != Enemy then
      var strength := DefenseStrength(t.units, DefenseQuarters(t.kind, false));
      if t.owner == Player then
        if amount > strength then 110.0 + TowerValue(t.kind) + (3 * (amount - strength)) as real - penalty
        else 25.0 - t.units as real - penalty
      else if amount > strength then
        65.0 + TowerValue(t.kind) + (2 * (12 - strength)) as real - penalty
        + (if target == "n_center" || (t.tier >= 2 && t.kind == Fortress) then 35.0 else 0.0)
      else -50.0
    else if t.units < 8 && s.units >= 16 then 35.0 + (15 - t.units) as real * 1.5 - penalty
    else -20.0
  }

  datatype Best = NoBest | Best(score: real, move: Move)

  function BestTarget(g: GameState, source: Id, targets: seq<Id>, best: Best): Best {
    if targets == [] then best
    else
      var before := BestTarget(g, source, targets[..|targets| - 1], best);
      var target := targets[|targets| - 1];
      if target == source then before
      else
        var score := AiScore(g, source, target);
        if before == NoBest || score > before.score then Best(score, Move(source, target)) else before
  }

  predicate AiSource(g: GameState, source: Id) {
    At(g.territories, source).owner == Enemy && At(g.territories, source).units >= 8
  }

  function BestOrder(g: GameState, sources: seq<Id>): Best {
    if sources == [] then NoBest
    else
      var before := BestOrder(g, sources[..|sources| - 1]);
      var source := sources[|sources| - 1];
      if AiSource(g, source) then BestTarget(g, source, g.board.order, before) else before
  }

  /** The single move of the v2 bot, if its score is worth acting on. */
  function AiMoves(g: GameState): seq<Move> {
    match BestOrder(g, g.board.order)
    case NoBest => []
    case Best(score, move) => if score > EPSILON then [move] else []
  }

  // ----- One planning tick of the bot

  ghost function TowerList(g: GameState): seq<Id> {
    SortedIds(g.territories.Keys)
  }

  ghost function PlannedMoves(g: GameState, setup: Setup): seq<Move> {
    if UsesTacticalRules(g.rules) then TacticalMoves(g, TowerList(g), Enemy, setup.enemySpeed) else AiMoves(g)
  }

  ghost function PlannedAbility(g: GameState, setup: Setup): Option<Choice> {
    if UsesTacticalRules(g.rules) then ChooseAbility(g, TowerList(g), Enemy, BotCommander(setup.difficulty),
      PlannedMoves(g, setup))
    else None
  }

  /** The state and the moves left once the bot has spent its ability, if it does. */
  ghost function AfterAbility(g: GameState, setup: Setup): (GameState, seq<Move>) {
    var moves := PlannedMoves(g, setup);
    match PlannedAbility(g, setup)
    case None => (g, moves)
    case Some(c) =>
      match ApplyAbility(g, Enemy, BotCommander(setup.difficulty), c.source, c.target, setup.enemySpeed)
      case None => (g, moves)
      case Some(h) => (h, c.moves)
  }

  ghost function BotTurn(g: GameState, setup: Setup): GameState {
    if g.status != Playing then g
    else
      var (h, moves) := AfterAbility(g, setup);
      SendEach(h, Enemy, moves, setup.enemySpeed)
  }

  /** The client's replay does not catch an illegal bot order: it aborts. */
  ghost function StrictBotTurn(g: GameState, setup: Setup): Option<GameState> {
    if g.status != Playing then Some(g)
    else
      var (h, moves) := AfterAbility(g, setup);
      SendAll(h, Enemy, moves, setup.enemySpeed)
  }

  // ----- The clock of the replay

  datatype Clock = Clock(p: Phase, tick: int, nextPlan: real)

  predicate Live(c: Clock) {
    c.p.g.status == Playing
  }

  function TargetTick(timestamp: real): int {
    (timestamp / TICK + EPSILON).Floor
  }

  function StepToTick(c: Clock, target: int): Clock
    decreases target - c.tick
  {
    if Live(c) && c.tick < target then StepToTick(c.(p := Step(c.p.g, c.p.acc, TICK), tick := c.tick + 1), target)
    else c
  }

  function StepTo(c: Clock, timestamp: real): Clock {
    StepToTick(c, TargetTick(timestamp))
  }

  /** One planning tick: step to it, let the bot act, schedule the next one. */
  ghost function PlanOnce(c: Clock, setup: Setup): Clock {
    var at := StepTo(c, c.nextPlan);
    at.(p := at.p.(g := BotTurn(at.p.g, setup)), nextPlan := c.nextPlan + PlanningPeriod(setup.difficulty))
  }

  predicate PlansBy(c: Clock, until: real) {
    Live(c) && c.nextPlan <= until + EPSILON
  }

  function PlansLeft(nextPlan: real, until: real): int {
    ((until + EPSILON - nextPlan) * 2.0).Floor
  }

  /** All planning ticks due by `until`. */
  ghost function PlanUntil(c: Clock, setup: Setup, until: real): Clock
    decreases PlansLeft(c.nextPlan, until)
  {
    if PlansBy(c, until) then PlanUntil(PlanOnce(c, setup), setup, until) else c
  }

  /** The replay brought forward to a time: due planning ticks, then plain steps. */
  ghost function Reach(c: Clock, setup: Setup, until: real): Clock {
    StepTo(PlanUntil(c, setup, until), until)
  }

  // ----- Actions

  /** What a legal player action does; None when it is ignored. */
  function ActionEffect(g: GameState, setup: Setup, a: Action): Option<GameState> {
    if g.status != Playing then None
    else if a.kind == AbilityAction then ApplyAbility(g, Player, setup.commander, a.source, a.target, setup.playerSpeed)
    else match Dispatch(g, a.source, a.target, Player, setup.playerSpeed)
      case Ok(h) => Some(h)
      case Err(_) => None
  }

  ghost predicate Applied(c: Clock, setup: Setup, a: Action) {
    ActionEffect(Reach(c, setup, a.at).p.g, setup, a).Some?
  }

  ghost function Play(c: Clock, setup: Setup, a: Action): Clock {
    var at := Reach(c, setup, a.at);
    match ActionEffect(at.p.g, setup, a)
    case None => at
    case Some(h) => at.(p := at.p.(g := h))
  }

  ghost function PlayAll(c: Clock, setup: Setup, actions: seq<Action>): Clock
    decreases |actions|
  {
    if actions == [] then c else PlayAll(Play(c, setup, actions[0]), setup, actions[1..])
  }

  ghost function AppliedCount(c: Clock, setup: Setup, actions: seq<Action>): nat
    decreases |actions|
  {
    if actions == [] then 0
    else
      (if Applied(c, setup, actions[0]) then 1 else 0) +
      AppliedCount(Play(c, setup, actions[0]), setup, actions[1..])
  }

  function Start(setup: Setup): Clock {
    Clock(Phase(setup.opening, map[]), 0, PlanningPeriod(setup.difficulty))
  }

  /** The final state of the replay. */
  ghost function Replay(setup: Setup, actions: seq<Action>): GameState {
    Reach(PlayAll(Start(setup), setup, actions), setup, TIME_LIMIT).p.g
  }
}
