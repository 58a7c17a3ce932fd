/** What the replay guarantees: it always reaches a verdict, the bot never gives an illegal order,
    and the actions it ignores might as well not have been recorded. */
module ReplayLaws {
  import opened Text
  import opened World
  import opened DispatchRoute
  import opened Combat
  import opened BattleRules
  import opened BattleInvariants
  import opened Roles
  import opened Production
  import opened TacticalRules
  import opened TacticalOrders
  import opened ReplayRules

  // ----- Structural checks, declaratively

  /** A well-formed record: at most 120 actions, numbered in order, of known kinds, in time order. */
  ghost predicate WellFormed(actions: seq<Action>) {
    && |actions| <= MAX_ACTIONS
    && forall i :: 0 <= i < |actions| ==>
      actions[i].sequence == i && actions[i].kind != UnknownAction && InTime(actions, i)
  }

  lemma {:induction false} NoViolationFrom(actions: seq<Action>, i: nat)
    requires i <= |actions|
    ensures FirstViolation(actions, i) == None <==>
      forall j :: i <= j < |actions| ==>
        actions[j].sequence == j && actions[j].kind != UnknownAction && InTime(actions, j)
    decreases |actions| - i
  {
    hide InTime;
    if i < |actions| {
      NoViolationFrom(actions, i + 1);
    }
  }

  lemma AcceptedIffWellFormed(actions: seq<Action>)
    ensures Violation(actions) == None <==> WellFormed(actions)
  {
    hide InTime;
    NoViolationFrom(actions, 0);
  }

  // ----- The bot's orders are legal

  lemma {:induction false} BestTargetLegal(g: GameState, source: Id, targets: seq<Id>, best: Best)
    ensures
      var r := BestTarget(g, source, targets, best);
      r == best || (r.Best? && r.move.source == source && r.move.target in targets && r.move.target != source)
  {
    hide AiScore;
    if targets != [] {
      var front := targets[..|targets| - 1];
      assert targets == front + [targets[|targets| - 1]];
      BestTargetLegal(g, source, front, best);
    }
  }

  lemma {:induction false} BestOrderLegal(g: GameState, sources: seq<Id>)
    ensures
      var r := BestOrder(g, sources);
      r.Best? ==> AiSource(g, r.move.source) && r.move.target in g.board.order && r.move.target != r.move.source
  {
    hide BestTarget, AiSource;
    if sources != [] {
      BestOrderLegal(g, sources[..|sources| - 1]);
      BestTargetLegal(g, sources[|sources| - 1], g.board.order, BestOrder(g, sources[..|sources| - 1]));
    }
  }

  lemma AiMovesLegal(g: GameState)
    requires GoodBoard(g) && !UsesTacticalRules(g.rules)
    ensures Orders(g, Enemy, AiMoves(g))
  {
    hide BestOrder;
    BestOrderLegal(g, g.board.order);
  }

  lemma PlannedMovesLegal(g: GameState, setup: Setup)
    requires GoodBoard(g)
    ensures Orders(g, Enemy, PlannedMoves(g, setup))
  {
    hide TacticalMoves, SortedIds, Sendable, AiMoves;
    if UsesTacticalRules(g.rules) {
      SortedIdsList(g.territories.Keys);
      TacticalMovesOk(g, TowerList(g), Enemy, setup.enemySpeed);
    } else {
      AiMovesLegal(g);
    }
  }

  /** The client's replay, which aborts on an illegal bot order, never aborts and agrees with the
      server's, which ignores one. */
  lemma BotNeverAborts(g: GameState, setup: Setup)
    requires GoodBoard(g)
    ensures StrictBotTurn(g, setup) == Some(BotTurn(g, setup))
    ensures PlannedAbility(g, setup).Some? ==>
      var c := PlannedAbility(g, setup).value;
      ApplyAbility(g, Enemy, BotCommander(setup.difficulty), c.source, c.target, setup.enemySpeed).Some?
  {
    hide PlannedMoves, Orders, ChooseAbility, ApplyAbility, SendAll, SendEach, TowerList;
    PlannedMovesLegal(g, setup);
    var (h, moves) := AfterAbility(g, setup);
    if PlannedAbility(g, setup).Some? {
      ChoiceAccepted(g, TowerList(g), Enemy, BotCommander(setup.difficulty), PlannedMoves(g, setup), setup.enemySpeed);
    }
    OrdersSucceed(h, Enemy, moves, setup.enemySpeed);
  }

  // ----- The v2 bot plays its best move

  predicate Before(i: nat, j: nat, k: nat, l: nat) {
    i < k || (i == k && j < l)
  }

  /** A send from tower `i` of the order to tower `j` that the bot weighs. */
  predicate Weighed(g: GameState, i: nat, j: nat) {
    var order := g.board.order;
    && i < |order| && j < |order| && order[j] != order[i]
    && At(g.territories, order[i]).owner == Enemy && At(g.territories, order[i]).units >= 8
  }

  function ScoreAt(g: GameState, i: nat, j: nat): real
    requires Weighed(g, i, j)
  {
    Appeal(g, g.board.order[i], g.board.order[j])
  }

  /** What a send of half the garrison is worth by the fight it would win or lose: a capture most, by the
      kind of the tower and by what is left of the army or was not needed for it; then a weak own tower,
      and an attack that only weakens the player; always less what the distance costs. */
  function Appeal(g: GameState, source: Id, target: Id): real {
    var s, t := At(g.territories, source), At(g.territories, target);
    var sent := s.units / 2;
    var fight := ResolveArrival(t, sent, Enemy, false);
    var worth := if t.kind == Barracks then 18.0 else if t.kind == Stable then 14.0 else 10.0;
    var central := target == "n_center" || (t.kind == Fortress && t.tier >= 2);
    var far := 0.06 * g.board.distance(source, target);
    if t.owner == Enemy then
      if t.units < 8 && s.units >= 16 then 35.0 + 1.5 * (15 - t.units) as real - far else -20.0
    else if fight.captured then
      if t.owner == Player then 110.0 + worth + 3.0 * fight.units as real - far
      else 65.0 + worth + 2.0 * (12 - (sent - fight.units)) as real + (if central then 35.0 else 0.0) - far
    else if t.owner == Player then 25.0 - t.units as real - far
    else -50.0
  }

  lemma AppealIs(g: GameState, source: Id, target: Id)
    requires At(g.territories, source).units >= 8
    ensures AiScore(g, source, target) == Appeal(g, source, target)
  {
    hide DefenseStrength, DefenseQuarters, RemainingDefenders;
  }

  /** Of the sends weighed before position `(n, m)`, this one scores most, and more than those before it. */
  ghost predicate Tops(g: GameState, i: nat, j: nat, n: nat, m: nat) {
    && Weighed(g, i, j) && Before(i, j, n, m)
    && forall k: nat, l: nat :: Weighed(g, k, l) && Before(k, l, n, m) ==>
         if Before(k, l, i, j) then ScoreAt(g, k, l) < ScoreAt(g, i, j) else ScoreAt(g, k, l) <= ScoreAt(g, i, j)
  }

  ghost predicate Leads(g: GameState, best: Best, n: nat, m: nat) {
    match best
    case NoBest => forall k: nat, l: nat :: Before(k, l, n, m) ==> !Weighed(g, k, l)
    case Best(score, move) => exists i: nat, j: nat ::
      Tops(g, i, j, n, m) && score == ScoreAt(g, i, j) && move == Move(g.board.order[i], g.board.order[j])
  }

  lemma BeforeNext(k: nat, l: nat, n: nat, m: nat)
    ensures Before(k, l, n, m + 1) <==> Before(k, l, n, m) || (k == n && l == m)
  {
  }

  lemma TopStays(g: GameState, i: nat, j: nat, n: nat, m: nat)
    requires Tops(g, i, j, n, m) && (Weighed(g, n, m) ==> ScoreAt(g, n, m) <= ScoreAt(g, i, j))
    ensures Tops(g, i, j, n, m + 1)
  {
    hide Weighed, ScoreAt;
    forall k: nat, l: nat | Weighed(g, k, l) && Before(k, l, n, m + 1)
      ensures if Before(k, l, i, j) then ScoreAt(g, k, l) < ScoreAt(g, i, j) else ScoreAt(g, k, l) <= ScoreAt(g, i, j)
    {
      BeforeNext(k, l, n, m);
    }
  }

  lemma TopTakes(g: GameState, best: Best, n: nat, m: nat)
    requires Leads(g, best, n, m) && Weighed(g, n, m) && (best == NoBest || ScoreAt(g, n, m) > best.score)
    ensures Tops(g, n, m, n, m + 1)
  {
    hide Weighed, ScoreAt;
    forall k: nat, l: nat | Weighed(g, k, l) && Before(k, l, n, m + 1)
      ensures if Before(k, l, n, m) then ScoreAt(g, k, l) < ScoreAt(g, n, m) else ScoreAt(g, k, l) <= ScoreAt(g, n, m)
    {
      BeforeNext(k, l, n, m);
    }
  }

  lemma NoneStill(g: GameState, n: nat, m: nat)
    requires Leads(g, NoBest, n, m) && !Weighed(g, n, m)
    ensures Leads(g, NoBest, n, m + 1)
  {
    hide Weighed;
    forall k: nat, l: nat | Before(k, l, n, m + 1) ensures !Weighed(g, k, l) {
      BeforeNext(k, l, n, m);
    }
  }

  lemma LeadsOn(g: GameState, best: Best, n: nat, m: nat)
    requires Leads(g, best, n, m) && m < |g.board.order| && n < |g.board.order| && AiSource(g, g.board.order[n])
    ensures
      var source, target := g.board.order[n], g.board.order[m];
      var score := AiScore(g, source, target);
      Leads(g, if target != source && (best == NoBest || score > best.score) then Best(score, Move(source, target))
               else best, n, m + 1)
  {
    hide AiScore, Appeal, Before;
    var source, target := g.board.order[n], g.board.order[m];
    AppealIs(g, source, target);
    if target != source && (best == NoBest || AiScore(g, source, target) > best.score) {
      TopTakes(g, best, n, m);
    } else if best == NoBest {
      NoneStill(g, n, m);
    } else {
      var i: nat, j: nat :| Tops(g, i, j, n, m) && best.score == ScoreAt(g, i, j)
        && best.move == Move(g.board.order[i], g.board.order[j]);
      TopStays(g, i, j, n, m);
    }
  }

  lemma {:induction false} BestTargetLeads(g: GameState, best: Best, n: nat, m: nat)
    requires n < |g.board.order| && m <= |g.board.order| && AiSource(g, g.board.order[n]) && Leads(g, best, n, 0)
    ensures Leads(g, BestTarget(g, g.board.order[n], g.board.order[..m], best), n, m)
  {
    hide Leads, AiScore, Appeal, AiSource;
    if m > 0 {
      assert g.board.order[..m][..m - 1] == g.board.order[..m - 1];
      BestTargetLeads(g, best, n, m - 1);
      LeadsOn(g, BestTarget(g, g.board.order[n], g.board.order[..m - 1], best), n, m - 1);
    }
  }

  lemma NextRow(g: GameState, best: Best, n: nat, m: nat)
    requires n < |g.board.order| && Leads(g, best, n, m) && (m == |g.board.order| || !AiSource(g, g.board.order[n]))
    ensures Leads(g, best, n + 1, 0)
  {
    hide Appeal;
    if best.Best? {
      var i: nat, j: nat :| Tops(g, i, j, n, m) && best.score == ScoreAt(g, i, j)
        && best.move == Move(g.board.order[i], g.board.order[j]);
      assert Tops(g, i, j, n + 1, 0);
    }
  }

  lemma {:induction false} BestOrderLeads(g: GameState, n: nat)
    requires n <= |g.board.order|
    ensures Leads(g, BestOrder(g, g.board.order[..n]), n, 0)
  {
    hide AiScore, Appeal, AiSource, BestTarget;
    if n > 0 {
      assert g.board.order[..n][..n - 1] == g.board.order[..n - 1];
      var before := BestOrder(g, g.board.order[..n - 1]);
      BestOrderLeads(g, n - 1);
      if AiSource(g, g.board.order[n - 1]) {
        var order := g.board.order;
        assert order[..|order|] == order;
        BestTargetLeads(g, before, n - 1, |order|);
        NextRow(g, BestTarget(g, order[n - 1], order, before), n - 1, |order|);
      } else {
        NextRow(g, before, n - 1, 0);
      }
    }
  }

  /** The v2 bot sends from an own tower of at least eight units to another tower, at the greatest score
      over all such pairs, the first in tower order among equals; and stays idle exactly when no pair
      scores more than 1e-9. */
  lemma AiMoveIsBest(g: GameState)
    ensures
      var moves, order := AiMoves(g), g.board.order;
      if forall k: nat, l: nat :: Weighed(g, k, l) ==> ScoreAt(g, k, l) <= EPSILON then moves == []
      else exists i: nat, j: nat ::
        Tops(g, i, j, |order|, 0) && ScoreAt(g, i, j) > EPSILON && moves == [Move(order[i], order[j])]
  {
    hide Appeal, BestOrder;
    var order := g.board.order;
    assert order[..|order|] == order;
    BestOrderLeads(g, |order|);
    if k: nat, l: nat :| Weighed(g, k, l) && ScoreAt(g, k, l) > EPSILON {
      assert Before(k, l, |order|, 0);
      var best := BestOrder(g, order);
      var i: nat, j: nat :| Tops(g, i, j, |order|, 0) && best.score == ScoreAt(g, i, j)
        && best.move == Move(order[i], order[j]);
      assert ScoreAt(g, k, l) <= ScoreAt(g, i, j);
    }
  }

  // ----- The replay always reaches a verdict

  /** Between ticks the battle clock shows exactly the tick count, and it is short of the limit
      while the battle is live. */
  ghost predicate OnTime(c: Clock) {
    && HasCaptureRecovery(c.p.g.rules) && c.p.g.limit == TIME_LIMIT && 0 <= c.tick
    && c.p.g.elapsed == c.tick as real * TICK
    && (Live(c) ==> c.tick < 4500)
  }

  /** Dispatches and abilities touch neither the rules nor the clock nor the verdict. */
  ghost predicate SameClock(g: GameState, h: GameState) {
    h.board == g.board && h.rules == g.rules && h.limit == g.limit && h.elapsed == g.elapsed && h.status == g.status
    && h.territories.Keys == g.territories.Keys
  }

  lemma DispatchSameClock(g: GameState, source: Id, target: Id, team: Team, multiplier: real)
    ensures
      var r := Dispatch(g, source, target, team, multiplier);
      r.Ok? ==> SameClock(g, r.value)
  {
    hide FindRoute, NewArmy, DispatchUnits;
    RouteLength(g, source, target, team);
  }

  lemma AbilitySameClock(g: GameState, team: Team, commander: Commander, source: Id, target: Id, multiplier: real)
    ensures
      var r := ApplyAbility(g, team, commander, source, target, multiplier);
      r.Some? ==> SameClock(g, r.value)
  {
    hide Dispatch, AbilityReady;
    DispatchSameClock(g, source, target, team, multiplier * CHARGE_SPEED_MULTIPLIER);
  }

  lemma {:induction false} SendEachSameClock(g: GameState, team: Team, moves: seq<Move>, multiplier: real)
    ensures SameClock(g, SendEach(g, team, moves, multiplier))
    decreases |moves|
  {
    hide Dispatch;
    if moves != [] {
      var r := Dispatch(g, moves[0].source, moves[0].target, team, multiplier);
      DispatchSameClock(g, moves[0].source, moves[0].target, team, multiplier);
      SendEachSameClock(if r.Ok? then r.value else g, team, moves[1..], multiplier);
    }
  }

  lemma BotTurnSameClock(g: GameState, setup: Setup)
    ensures SameClock(g, BotTurn(g, setup))
  {
    hide PlannedMoves, PlannedAbility, ApplyAbility, SendEach, SameClock;
    var (h, moves) := AfterAbility(g, setup);
    SameClockReflexive(g);
    if PlannedAbility(g, setup).Some? {
      var c := PlannedAbility(g, setup).value;
      AbilitySameClock(g, Enemy, BotCommander(setup.difficulty), c.source, c.target, setup.enemySpeed);
    }
    SendEachSameClock(h, Enemy, moves, setup.enemySpeed);
    SameClockChain(g, h, SendEach(h, Enemy, moves, setup.enemySpeed));
  }

  lemma SameClockReflexive(g: GameState)
    ensures SameClock(g, g)
  {
  }

  lemma SameClockChain(g: GameState, h: GameState, k: GameState)
    requires SameClock(g, h) && SameClock(h, k)
    ensures SameClock(g, k)
  {
  }

  // ----- Steps of the clock

  /** A step keeps the towers and the rules, moves the clock, and decides once time is up. */
  lemma StepFrame(g: GameState, acc: Accumulators, delta: real)
    requires g.status == Playing
    ensures
      var h := Step(g, acc, delta).g;
      && h.board == g.board && h.rules == g.rules && h.limit == g.limit && h.territories.Keys == g.territories.Keys
      && h.elapsed == Tick(g, delta).elapsed && (h.elapsed >= h.limit ==> h.status != Playing)
  {
    hide HandleArmies, Produce, TowersOf, UnitsOf, HasArmy, Round;
    var start := Phase(Tick(g, delta).(armies := []), acc);
    HandleArmiesFrame(start, g.armies, delta);
    var m := Marched(g, acc, delta);
    ProduceWritesTowers(m.g, m.acc, delta, g.board.order);
  }

  lemma GridTick(k: int)
    ensures OnGrid(k as real * TICK) == k as real * TICK
  {
    var n := 20000000 * k;
    assert k as real * TICK * 1000000000.0 == n as real;
    assert Round(n as real) == n;
  }

  lemma StepOnTime(c: Clock)
    requires OnTime(c) && Live(c)
    ensures OnTime(c.(p := Step(c.p.g, c.p.acc, TICK), tick := c.tick + 1))
  {
    hide Step, OnGrid;
    StepFrame(c.p.g, c.p.acc, TICK);
    GridTick(c.tick + 1);
    TickIsGrid(c.p.g, TICK);
    assert c.p.g.elapsed + TICK == (c.tick + 1) as real * TICK;
  }

  lemma TickIsGrid(g: GameState, delta: real)
    requires HasCaptureRecovery(g.rules)
    ensures Tick(g, delta).elapsed == OnGrid(g.elapsed + delta)
  {
  }

  lemma {:induction false} StepToTickOnTime(c: Clock, target: int)
    requires OnTime(c)
    ensures
      var d := StepToTick(c, target);
      && OnTime(d) && d.nextPlan == c.nextPlan && (Live(d) ==> d.tick >= target)
      && d.p.g.board == c.p.g.board && d.p.g.territories.Keys == c.p.g.territories.Keys && d.p.g.rules == c.p.g.rules
    decreases target - c.tick
  {
    hide Step, OnTime;
    if Live(c) && c.tick < target {
      StepOnTime(c);
      StepFrame(c.p.g, c.p.acc, TICK);
      StepToTickOnTime(c.(p := Step(c.p.g, c.p.acc, TICK), tick := c.tick + 1), target);
    }
  }

  /** What the whole replay keeps of a clock: the grid, and a complete tower order. */
  ghost predicate Sound(c: Clock) {
    OnTime(c) && GoodBoard(c.p.g)
  }

  lemma SoundAfter(c: Clock, g: GameState, nextPlan: real)
    requires Sound(c) && SameClock(c.p.g, g)
    ensures Sound(c.(p := c.p.(g := g), nextPlan := nextPlan)) && Sound(c.(p := c.p.(g := g)))
  {
  }

  lemma StepToSound(c: Clock, target: int)
    requires Sound(c)
    ensures Sound(StepToTick(c, target))
  {
    hide OnTime;
    StepToTickOnTime(c, target);
  }

  lemma PlanOnceSound(c: Clock, setup: Setup)
    requires Sound(c)
    ensures Sound(PlanOnce(c, setup)) && GoodBoard(StepTo(c, c.nextPlan).p.g)
  {
    hide Sound, StepToTick, BotTurn, TargetTick;
    StepToSound(c, TargetTick(c.nextPlan));
    var at := StepTo(c, c.nextPlan);
    BotTurnSameClock(at.p.g, setup);
    SoundAfter(at, BotTurn(at.p.g, setup), c.nextPlan + PlanningPeriod(setup.difficulty));
    SoundHasBoard(at);
  }

  lemma SoundHasBoard(c: Clock)
    requires Sound(c)
    ensures GoodBoard(c.p.g)
  {
  }

  lemma {:induction false} PlanUntilSound(c: Clock, setup: Setup, until: real)
    requires Sound(c)
    ensures Sound(PlanUntil(c, setup, until))
    decreases PlansLeft(c.nextPlan, until)
  {
    hide Sound, PlanOnce;
    if PlansBy(c, until) {
      PlanOnceSound(c, setup);
      PlanAdvances(c, setup, until);
      PlanUntilSound(PlanOnce(c, setup), setup, until);
    }
  }

  lemma PlanAdvances(c: Clock, setup: Setup, until: real)
    requires PlansBy(c, until)
    ensures PlansLeft(PlanOnce(c, setup).nextPlan, until) < PlansLeft(c.nextPlan, until)
    ensures 0 <= PlansLeft(c.nextPlan, until)
  {
  }

  lemma ReachSound(c: Clock, setup: Setup, until: real)
    requires Sound(c)
    ensures Sound(Reach(c, setup, until))
  {
    hide Sound, PlanUntil, StepToTick;
    PlanUntilSound(c, setup, until);
    StepToSound(PlanUntil(c, setup, until), TargetTick(until));
  }

  lemma PlaySound(c: Clock, setup: Setup, a: Action)
    requires Sound(c)
    ensures Sound(Play(c, setup, a))
  {
    hide Sound, Reach, Dispatch, ApplyAbility;
    ReachSound(c, setup, a.at);
    var at := Reach(c, setup, a.at);
    DispatchSameClock(at.p.g, a.source, a.target, Player, setup.playerSpeed);
    AbilitySameClock(at.p.g, Player, setup.commander, a.source, a.target, setup.playerSpeed);
    var effect := ActionEffect(at.p.g, setup, a);
    if effect.Some? {
      SoundAfter(at, effect.value, 0.0);
    }
  }

  lemma {:induction false} PlayAllSound(c: Clock, setup: Setup, actions: seq<Action>)
    requires Sound(c)
    ensures Sound(PlayAll(c, setup, actions))
    decreases |actions|
  {
    hide Sound, Play;
    if actions != [] {
      PlaySound(c, setup, actions[0]);
      PlayAllSound(Play(c, setup, actions[0]), setup, actions[1..]);
    }
  }

  /** A replay starts at time zero, with the 90 second limit, under rules v2 to v4. */
  ghost predicate ValidSetup(setup: Setup) {
    && HasCaptureRecovery(setup.opening.rules) && GoodBoard(setup.opening)
    && setup.opening.elapsed == 0.0 && setup.opening.limit == TIME_LIMIT
  }

  /** Whatever was recorded, the battle is decided when the replay ends. */
  lemma ReplayDecides(setup: Setup, actions: seq<Action>)
    requires ValidSetup(setup)
    ensures Replay(setup, actions).status != Playing
  {
    hide PlayAll, PlanUntil, StepToTick;
    PlayAllSound(Start(setup), setup, actions);
    var c := PlayAll(Start(setup), setup, actions);
    PlanUntilSound(c, setup, TIME_LIMIT);
    StepToTickOnTime(PlanUntil(c, setup, TIME_LIMIT), 4500);
    assert TargetTick(TIME_LIMIT) == 4500;
  }

  // ----- The aborting replay agrees with the lenient one

  ghost function StrictPlanOnce(c: Clock, setup: Setup): Option<Clock> {
    var at := StepTo(c, c.nextPlan);
    match StrictBotTurn(at.p.g, setup)
    case None => None
    case Some(h) => Some(at.(p := at.p.(g := h), nextPlan := c.nextPlan + PlanningPeriod(setup.difficulty)))
  }

  ghost function StrictPlanUntil(c: Clock, setup: Setup, until: real): Option<Clock>
    decreases PlansLeft(c.nextPlan, until)
  {
    if !PlansBy(c, until) then Some(c)
    else match StrictPlanOnce(c, setup)
      case None => None
      case Some(d) => StrictPlanUntil(d, setup, until)
  }

  ghost function StrictPlayAll(c: Clock, setup: Setup, actions: seq<Action>): Option<Clock>
    decreases |actions|
  {
    if actions == [] then Some(c)
    else match StrictPlanUntil(c, setup, actions[0].at)
      case None => None
      case Some(d) =>
        var at := StepTo(d, actions[0].at);
        var next := match ActionEffect(at.p.g, setup, actions[0])
                    case None => at
                    case Some(h) => at.(p := at.p.(g := h));
        StrictPlayAll(next, setup, actions[1..])
  }

  /** The client's replay: None when a bot order was illegal. */
  ghost function StrictReplay(setup: Setup, actions: seq<Action>): Option<GameState> {
    match StrictPlayAll(Start(setup), setup, actions)
    case None => None
    case Some(c) =>
      match StrictPlanUntil(c, setup, TIME_LIMIT)
      case None => None
      case Some(d) => Some(StepTo(d, TIME_LIMIT).p.g)
  }

  lemma {:induction false} StrictPlanUntilAgrees(c: Clock, setup: Setup, until: real)
    requires Sound(c)
    ensures StrictPlanUntil(c, setup, until) == Some(PlanUntil(c, setup, until))
    decreases PlansLeft(c.nextPlan, until)
  {
    hide Sound, StepTo, StrictBotTurn, BotTurn;
    if PlansBy(c, until) {
      PlanOnceSound(c, setup);
      BotNeverAborts(StepTo(c, c.nextPlan).p.g, setup);
      PlanAdvances(c, setup, until);
      StrictPlanUntilAgrees(PlanOnce(c, setup), setup, until);
    }
  }

  lemma {:induction false} StrictPlayAllAgrees(c: Clock, setup: Setup, actions: seq<Action>)
    requires Sound(c)
    ensures StrictPlayAll(c, setup, actions) == Some(PlayAll(c, setup, actions))
    decreases |actions|
  {
    hide Sound, StepTo, StrictPlanUntil, PlanUntil, ActionEffect;
    if actions != [] {
      StrictPlanUntilAgrees(c, setup, actions[0].at);
      PlaySound(c, setup, actions[0]);
      StrictPlayAllAgrees(Play(c, setup, actions[0]), setup, actions[1..]);
    }
  }

  /** The client's replay never aborts on the bot and ends in the server's final state. */
  lemma StrictReplayAgrees(setup: Setup, actions: seq<Action>)
    requires ValidSetup(setup)
    ensures StrictReplay(setup, actions) == Some(Replay(setup, actions))
  {
    hide StrictPlayAll, PlayAll, StrictPlanUntil, PlanUntil, StepTo;
    StrictPlayAllAgrees(Start(setup), setup, actions);
    PlayAllSound(Start(setup), setup, actions);
    StrictPlanUntilAgrees(PlayAll(Start(setup), setup, actions), setup, TIME_LIMIT);
  }

  // ----- Bringing the clock forward in two goes

  lemma TargetTickMonotone(s: real, t: real)
    requires s <= t
    ensures TargetTick(s) <= TargetTick(t)
  {
    assert s / TICK <= t / TICK;
  }

  lemma {:induction false} StepToTickTwice(c: Clock, s: int, t: int)
    requires s <= t
    ensures StepToTick(StepToTick(c, s), t) == StepToTick(c, t)
    decreases s - c.tick
  {
    hide Step;
    if Live(c) && c.tick < s {
      StepToTickTwice(c.(p := Step(c.p.g, c.p.acc, TICK), tick := c.tick + 1), s, t);
    }
  }

  lemma StepToTwice(c: Clock, s: real, t: real)
    requires s <= t
    ensures StepTo(StepTo(c, s), t) == StepTo(c, t)
  {
    hide StepToTick, TargetTick;
    TargetTickMonotone(s, t);
    StepToTickTwice(c, TargetTick(s), TargetTick(t));
  }

  lemma {:induction false} StepToSchedule(c: Clock, target: int)
    ensures StepToTick(c, target).nextPlan == c.nextPlan
    ensures !Live(c) ==> StepToTick(c, target) == c
    decreases target - c.tick
  {
    hide Step;
    if Live(c) && c.tick < target {
      StepToSchedule(c.(p := Step(c.p.g, c.p.acc, TICK), tick := c.tick + 1), target);
    }
  }

  lemma {:induction false} PlanUntilTwice(c: Clock, setup: Setup, s: real, t: real)
    requires s <= t
    ensures PlanUntil(PlanUntil(c, setup, s), setup, t) == PlanUntil(c, setup, t)
    ensures !PlansBy(PlanUntil(c, setup, s), s)
    decreases PlansLeft(c.nextPlan, s)
  {
    hide PlanOnce;
    if PlansBy(c, s) {
      PlanAdvances(c, setup, s);
      PlanUntilTwice(PlanOnce(c, setup), setup, s, t);
    }
  }

  // ----- What the clock shows

  lemma {:induction false} TickExact(c: Clock, target: int)
    ensures
      var d := StepToTick(c, target);
      Live(d) ==> d.tick == Max(c.tick, target)
    decreases target - c.tick
  {
    hide Step;
    if Live(c) && c.tick < target {
      TickExact(c.(p := Step(c.p.g, c.p.acc, TICK), tick := c.tick + 1), target);
    }
  }

  /** The grid tick of a time shows no more than the time, and less than 20 milliseconds less. */
  lemma TickShows(t: real)
    ensures t - 0.02 < TargetTick(t) as real * 0.02 <= t + 0.00000000002
  {
    var x := t / TICK;
    assert TICK == 0.02 && x * 0.02 == t;
  }

  lemma {:induction false} PlansNotAhead(c: Clock, setup: Setup, until: real)
    requires Live(c) ==> c.tick <= TargetTick(until + EPSILON)
    ensures Live(PlanUntil(c, setup, until)) ==> PlanUntil(c, setup, until).tick <= TargetTick(until + EPSILON)
    decreases PlansLeft(c.nextPlan, until)
  {
    hide BotTurn, StepToTick, TargetTick;
    if PlansBy(c, until) {
      TickExact(c, TargetTick(c.nextPlan));
      TargetTickMonotone(c.nextPlan, until + EPSILON);
      StaysDead(c, setup);
      PlanAdvances(c, setup, until);
      PlansNotAhead(PlanOnce(c, setup), setup, until);
    }
  }

  lemma StaysDead(c: Clock, setup: Setup)
    ensures Live(PlanOnce(c, setup)) ==> Live(StepTo(c, c.nextPlan))
  {
    hide StepToTick, TargetTick, PlannedMoves, PlannedAbility, SendAll;
  }

  /** A live replay brought forward to a time shows it, less than one step behind and not ahead. */
  lemma ReachShows(c: Clock, setup: Setup, until: real)
    requires Sound(c) && c.p.g.elapsed <= until + EPSILON
    ensures
      var r := Reach(c, setup, until);
      Live(r) ==> until - 0.02 < r.p.g.elapsed <= until + 0.0000000011
  {
    hide PlanUntil, StepToTick, TargetTick;
    ReachSound(c, setup, until);
    TickShows(until);
    TickShows(until + EPSILON);
    assert c.tick as real * 0.02 <= until + EPSILON;
    assert c.tick <= TargetTick(until + EPSILON);
    PlansNotAhead(c, setup, until);
    var planned := PlanUntil(c, setup, until);
    TickExact(planned, TargetTick(until));
    DeadIsDead(planned, TargetTick(until));
    TargetTickMonotone(until, until + EPSILON);
  }

  lemma DeadIsDead(c: Clock, target: int)
    ensures Live(StepToTick(c, target)) ==> Live(c)
  {
  }

  function Period(d: Difficulty): real {
    match d
    case Easy => 3.6
    case Normal => 1.8
    case Hard => 0.9
  }

  /** The bot has planned at the first `k` multiples of its period, those that are due by `until`. */
  ghost predicate PlannedTimes(c: Clock, setup: Setup, until: real, k: nat) {
    var period := Period(setup.difficulty);
    c.nextPlan == (k + 1) as real * period && k as real * period <= until + EPSILON < (k + 1) as real * period
  }

  /** Brought forward to a time, a live replay has had the bot plan at every multiple of its period up to
      then: 3.6 seconds for an easy one, 1.8 for a normal one, 0.9 for a hard one. */
  lemma {:induction false} PlansOnTime(c: Clock, setup: Setup, until: real, n: nat)
    requires c.nextPlan == (n + 1) as real * Period(setup.difficulty)
    requires n as real * Period(setup.difficulty) <= until + EPSILON
    ensures Live(Reach(c, setup, until)) ==>
      exists k: nat :: n <= k && PlannedTimes(Reach(c, setup, until), setup, until, k)
    decreases PlansLeft(c.nextPlan, until)
  {
    hide StepToTick, BotTurn;
    StepKeepsPlan(PlanUntil(c, setup, until), TargetTick(until));
    if PlansBy(c, until) {
      PlanAdvances(c, setup, until);
      StepKeepsPlan(c, TargetTick(c.nextPlan));
      assert (n + 2) as real * Period(setup.difficulty) == c.nextPlan + PlanningPeriod(setup.difficulty);
      PlansOnTime(PlanOnce(c, setup), setup, until, n + 1);
    } else if Live(Reach(c, setup, until)) {
      assert PlannedTimes(Reach(c, setup, until), setup, until, n);
    }
  }

  lemma {:induction false} StepKeepsPlan(c: Clock, target: int)
    ensures StepToTick(c, target).nextPlan == c.nextPlan
    ensures Live(StepToTick(c, target)) ==> Live(c)
    decreases target - c.tick
  {
    hide Step;
    if Live(c) && c.tick < target {
      StepKeepsPlan(c.(p := Step(c.p.g, c.p.acc, TICK), tick := c.tick + 1), target);
    }
  }

  /** The same battle; while it is live, also the same schedule. */
  ghost predicate Same(c: Clock, d: Clock) {
    c.p == d.p && (Live(c) ==> c == d)
  }

  lemma DeadStays(c: Clock, setup: Setup, until: real)
    requires !Live(c)
    ensures Reach(c, setup, until) == c
  {
    hide StepToTick;
    StepToSchedule(c, TargetTick(until));
  }

  /** Stepping early, before the next planning tick is due, makes no difference later. */
  lemma ReachAfterStep(x: Clock, setup: Setup, s: real, t: real)
    requires s <= t && !PlansBy(x, s)
    ensures Same(Reach(StepTo(x, s), setup, t), Reach(x, setup, t))
  {
    hide StepToTick, TargetTick, BotTurn;
    var y := StepTo(x, s);
    StepToSchedule(x, TargetTick(s));
    StepToTwice(x, s, t);
    if Live(x) && PlansBy(x, t) {
      StepToTwice(x, s, x.nextPlan);
      assert StepTo(y, y.nextPlan) == StepTo(x, x.nextPlan);
      if !Live(y) {
        StepToSchedule(y, TargetTick(y.nextPlan));
        PlanOnceDead(x, setup, y);
        DeadStays(PlanOnce(x, setup), setup, t);
        DeadStays(y, setup, t);
        assert PlanUntil(x, setup, t) == PlanUntil(PlanOnce(x, setup), setup, t);
      } else {
        assert PlanOnce(y, setup) == PlanOnce(x, setup);
      }
    }
  }

  lemma PlanOnceDead(x: Clock, setup: Setup, y: Clock)
    requires StepTo(x, x.nextPlan) == y && !Live(y)
    ensures PlanOnce(x, setup).p == y.p && !Live(PlanOnce(x, setup))
  {
    hide StepToTick, TargetTick;
  }

  lemma ReachTwice(c: Clock, setup: Setup, s: real, t: real)
    requires s <= t
    ensures Same(Reach(Reach(c, setup, s), setup, t), Reach(c, setup, t))
  {
    hide StepTo, PlanUntil;
    PlanUntilTwice(c, setup, s, t);
    ReachAfterStep(PlanUntil(c, setup, s), setup, s, t);
  }

  lemma SameReach(c: Clock, d: Clock, setup: Setup, t: real)
    requires Same(c, d)
    ensures Same(Reach(c, setup, t), Reach(d, setup, t))
  {
    hide Reach;
    if !Live(c) {
      DeadStays(c, setup, t);
      DeadStays(d, setup, t);
    }
  }

  /** Once the battle is decided, later actions do nothing. */
  lemma {:induction false} DeadPlays(c: Clock, setup: Setup, actions: seq<Action>)
    requires !Live(c)
    ensures PlayAll(c, setup, actions) == c && AppliedCount(c, setup, actions) == 0
    decreases |actions|
  {
    hide Reach;
    if actions != [] {
      DeadStays(c, setup, actions[0].at);
      DeadPlays(c, setup, actions[1..]);
    }
  }

  // ----- Ignored actions might as well not have been recorded

  /** The actions that had an effect. */
  ghost function Kept(c: Clock, setup: Setup, actions: seq<Action>): seq<Action>
    decreases |actions|
  {
    if actions == [] then []
    else
      (if Applied(c, setup, actions[0]) then [actions[0]] else []) +
      Kept(Play(c, setup, actions[0]), setup, actions[1..])
  }

  /** The actions lie between `from` and the time limit, in time order. */
  ghost predicate Ordered(actions: seq<Action>, from: real) {
    && from <= TIME_LIMIT
    && (forall i :: 0 <= i < |actions| ==> from <= actions[i].at <= TIME_LIMIT)
    && forall i, j :: 0 <= i < j < |actions| ==> actions[i].at <= actions[j].at
  }

  /** `d` is where `c` is, or would be once brought forward to `t`. */
  ghost predicate Behind(c: Clock, d: Clock, setup: Setup, t: real) {
    Same(c, d) || Same(c, Reach(d, setup, t))
  }

  lemma BehindMeets(c: Clock, d: Clock, setup: Setup, t: real, u: real)
    requires Behind(c, d, setup, t) && t <= u
    ensures Same(Reach(c, setup, u), Reach(d, setup, u))
  {
    hide Reach;
    if Same(c, d) {
      SameReach(c, d, setup, u);
    } else {
      SameReach(c, Reach(d, setup, t), setup, u);
      ReachTwice(d, setup, t, u);
    }
  }

  lemma SamePlay(c: Clock, d: Clock, setup: Setup, a: Action)
    requires Same(Reach(c, setup, a.at), Reach(d, setup, a.at))
    ensures Applied(c, setup, a) <==> Applied(d, setup, a)
    ensures Applied(c, setup, a) ==> Same(Play(c, setup, a), Play(d, setup, a))
    ensures !Applied(c, setup, a) ==> Play(c, setup, a) == Reach(c, setup, a.at)
  {
    hide Reach, Dispatch, ApplyAbility;
  }

  lemma {:induction false} PruneFrom(c: Clock, d: Clock, setup: Setup, t: real, actions: seq<Action>)
    requires Behind(c, d, setup, t) && Ordered(actions, t)
    ensures
      var kept := Kept(c, setup, actions);
      && Reach(PlayAll(c, setup, actions), setup, TIME_LIMIT).p == Reach(PlayAll(d, setup, kept), setup, TIME_LIMIT).p
      && AppliedCount(d, setup, kept) == |kept| == AppliedCount(c, setup, actions)
    decreases |actions|
  {
    hide Reach, Play, Applied, Behind;
    if actions == [] {
      BehindMeets(c, d, setup, t, TIME_LIMIT);
    } else {
      var a, rest := actions[0], actions[1..];
      BehindMeets(c, d, setup, t, a.at);
      SamePlay(c, d, setup, a);
      assert Ordered(rest, a.at);
      var kept := Kept(Play(c, setup, a), setup, rest);
      if Applied(c, setup, a) {
        SameIsBehind(Play(c, setup, a), Play(d, setup, a), setup, a.at);
        PruneFrom(Play(c, setup, a), Play(d, setup, a), setup, a.at, rest);
        assert Kept(c, setup, actions) == [a] + kept;
        assert ([a] + kept)[1..] == kept;
      } else {
        ReachIsBehind(Play(c, setup, a), d, setup, a.at);
        PruneFrom(Play(c, setup, a), d, setup, a.at, rest);
        assert Kept(c, setup, actions) == kept;
      }
    }
  }

  lemma SameIsBehind(c: Clock, d: Clock, setup: Setup, t: real)
    requires Same(c, d)
    ensures Behind(c, d, setup, t)
  {
  }

  lemma ReachIsBehind(c: Clock, d: Clock, setup: Setup, t: real)
    requires Same(c, Reach(d, setup, t))
    ensures Behind(c, d, setup, t)
  {
  }

  // ----- Renumbering

  function Renumber(actions: seq<Action>): (r: seq<Action>)
    ensures |r| == |actions|
  {
    seq(|actions|, i requires 0 <= i < |actions| => actions[i].(sequence := i))
  }

  ghost predicate SameOrders(x: seq<Action>, y: seq<Action>) {
    |x| == |y| && forall i :: 0 <= i < |x| ==> x[i].(sequence := 0) == y[i].(sequence := 0)
  }

  lemma {:induction false} NumbersDontMatter(c: Clock, setup: Setup, x: seq<Action>, y: seq<Action>)
    requires SameOrders(x, y)
    ensures PlayAll(c, setup, x) == PlayAll(c, setup, y) && AppliedCount(c, setup, x) == AppliedCount(c, setup, y)
    decreases |x|
  {
    hide Applied, Play;
    if x != [] {
      SamePlayed(c, setup, x[0], y[0]);
      NumbersDontMatter(Play(c, setup, x[0]), setup, x[1..], y[1..]);
    }
  }

  lemma SamePlayed(c: Clock, setup: Setup, a: Action, b: Action)
    requires a.(sequence := 0) == b.(sequence := 0)
    ensures Play(c, setup, a) == Play(c, setup, b) && (Applied(c, setup, a) <==> Applied(c, setup, b))
  {
    hide Reach, Dispatch, ApplyAbility;
  }

  /** The times of the actions kept are a subsequence of the times recorded. */
  lemma {:induction false} KeptOrdered(c: Clock, setup: Setup, actions: seq<Action>, from: real)
    requires Ordered(actions, from)
    requires forall i :: 0 <= i < |actions| ==> actions[i].kind != UnknownAction
    ensures
      var kept := Kept(c, setup, actions);
      && |kept| <= |actions| && Ordered(kept, from)
      && forall i :: 0 <= i < |kept| ==> kept[i].kind != UnknownAction
    decreases |actions|
  {
    hide Play, Applied;
    if actions != [] {
      var a := actions[0];
      assert Ordered(actions[1..], a.at);
      KeptOrdered(Play(c, setup, a), setup, actions[1..], a.at);
    }
  }

  lemma WellFormedOrdered(actions: seq<Action>)
    requires WellFormed(actions)
    ensures Ordered(actions, 0.0)
  {
    forall i, j | 0 <= i < j < |actions| ensures actions[i].at <= actions[j].at {
      TimesAscend(actions, i, j);
    }
  }

  lemma {:induction false} TimesAscend(actions: seq<Action>, i: nat, j: nat)
    requires i <= j < |actions| && forall k :: 0 <= k < |actions| ==> InTime(actions, k)
    ensures actions[i].at <= actions[j].at
    decreases j
  {
    if i < j {
      TimesAscend(actions, i, j - 1);
      assert InTime(actions, j);
    }
  }

  /** Deleting every ignored action and renumbering the rest gives a well-formed record with the same
      final state, in which every action counts. */
  lemma PrunedReplaySame(setup: Setup, actions: seq<Action>)
    requires WellFormed(actions)
    ensures
      var kept := Kept(Start(setup), setup, actions);
      && WellFormed(Renumber(kept))
      && Replay(setup, Renumber(kept)) == Replay(setup, actions)
      && AppliedCount(Start(setup), setup, Renumber(kept)) == |Renumber(kept)| ==
        AppliedCount(Start(setup), setup, actions)
  {
    hide PlayAll, Reach, Kept, AppliedCount;
    var kept := Kept(Start(setup), setup, actions);
    WellFormedOrdered(actions);
    SameIsBehind(Start(setup), Start(setup), setup, 0.0);
    PruneFrom(Start(setup), Start(setup), setup, 0.0, actions);
    KeptOrdered(Start(setup), setup, actions, 0.0);
    NumbersDontMatter(Start(setup), setup, kept, Renumber(kept));
  }
}
