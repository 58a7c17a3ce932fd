/** What recorded actions do in a replay, from one state of the replay to the next. */
module ActionLaws {
  import opened World
  import opened BattleRules
  import opened BattleInvariants
  import opened TacticalRules
  import opened TacticalOrders
  import opened TacticalChoice
  import opened AbilityChoice
  import opened ReplayRules
  import opened ReplayLaws
  import opened OrderLaws

  /** The action counts: the battle is undecided, and the player can use the ability or make the send. */
  ghost predicate Counts(g: GameState, setup: Setup, a: Action) {
    && g.status == Playing
    && if a.kind == AbilityAction then CanUse(g, Player, setup.commander, a.source, a.target)
       else CanDispatch(g, a.source, a.target, Player)
  }

  /** What an action that counts makes of the battle. */
  ghost predicate Done(g: GameState, h: GameState, setup: Setup, a: Action) {
    if a.kind == AbilityAction then Used(g, h, Player, setup.commander, a.source, a.target, setup.playerSpeed)
    else Dispatched(g, h, a.source, a.target, Player, setup.playerSpeed)
  }

  lemma EffectIff(g: GameState, setup: Setup, a: Action)
    ensures
      var r := ActionEffect(g, setup, a);
      (r.Some? <==> Counts(g, setup, a)) && (r.Some? ==> Done(g, r.value, setup, a))
  {
    hide Dispatch, ApplyAbility, CanUse, CanDispatch, Used, Dispatched;
    AbilityIff(g, Player, setup.commander, a.source, a.target, setup.playerSpeed);
    DispatchIff(g, a.source, a.target, Player, setup.playerSpeed);
  }

  /** From one state of the replay to the next: the battle is brought forward to the action's time, and an
      action that counts then takes effect, while any other is skipped. */
  ghost predicate ActionPlayed(setup: Setup, c: Clock, d: Clock, a: Action) {
    var at := Reach(c, setup, a.at);
    if Counts(at.p.g, setup, a) then d == at.(p := at.p.(g := d.p.g)) && Done(at.p.g, d.p.g, setup, a) else d == at
  }

  /** A history of the replay: its states before and after each action. */
  ghost predicate History(setup: Setup, actions: seq<Action>, states: seq<Clock>) {
    |states| == |actions| + 1
    && forall i :: 0 <= i < |actions| ==> ActionPlayed(setup, states[i], states[i + 1], actions[i])
  }

  /** How many actions of a history count. */
  ghost function Counted(setup: Setup, actions: seq<Action>, states: seq<Clock>): nat
    requires |states| == |actions| + 1
    decreases |actions|
  {
    if actions == [] then 0
    else
      (if Counts(Reach(states[0], setup, actions[0].at).p.g, setup, actions[0]) then 1 else 0)
      + Counted(setup, actions[1..], states[1..])
  }

  ghost predicate PlayedFrom(setup: Setup, c: Clock, actions: seq<Action>, d: Clock, count: nat) {
    exists states :: History(setup, actions, states) && states[0] == c && states[|actions|] == d
      && count == Counted(setup, actions, states)
  }

  lemma PlayPlays(c: Clock, setup: Setup, a: Action)
    ensures ActionPlayed(setup, c, Play(c, setup, a), a)
    ensures Applied(c, setup, a) <==> Counts(Reach(c, setup, a.at).p.g, setup, a)
  {
    hide Reach, ActionEffect, Counts, Done;
    EffectIff(Reach(c, setup, a.at).p.g, setup, a);
  }

  /** Every replay of actions has such a history. */
  lemma {:induction false} ReplayHistory(c: Clock, setup: Setup, actions: seq<Action>)
    ensures PlayedFrom(setup, c, actions, PlayAll(c, setup, actions), AppliedCount(c, setup, actions))
    decreases |actions|
  {
    hide Play, Applied, Counts, Reach, ActionPlayed;
    if actions == [] {
      assert History(setup, actions, [c]);
    } else {
      var next, rest := Play(c, setup, actions[0]), actions[1..];
      PlayPlays(c, setup, actions[0]);
      ReplayHistory(next, setup, rest);
      var later :| History(setup, rest, later) && later[0] == next && later[|rest|] == PlayAll(next, setup, rest)
        && AppliedCount(next, setup, rest) == Counted(setup, rest, later);
      var states := [c] + later;
      assert states[1..] == later;
      forall i | 0 <= i < |actions| ensures ActionPlayed(setup, states[i], states[i + 1], actions[i]) {
        if i > 0 {
          assert rest[i - 1] == actions[i] && later[i - 1] == states[i] && later[i] == states[i + 1];
        }
      }
      assert History(setup, actions, states);
    }
  }

  // ----- The bot's turns

  /** The moves are sent one after the other, every one of them accepted. */
  ghost predicate SentAll(g: GameState, h: GameState, team: Team, moves: seq<Move>, multiplier: real) {
    exists states :: SentInTurn(states, team, moves, multiplier) && states[0] == g && states[|moves|] == h
  }

  ghost predicate SentInTurn(states: seq<GameState>, team: Team, moves: seq<Move>, multiplier: real) {
    |states| == |moves| + 1 && forall i :: 0 <= i < |moves| ==>
      Dispatched(states[i], states[i + 1], moves[i].source, moves[i].target, team, multiplier)
  }

  lemma {:induction false} EachSent(g: GameState, team: Team, moves: seq<Move>, multiplier: real)
    requires Orders(g, team, moves)
    ensures SentAll(g, SendEach(g, team, moves, multiplier), team, moves, multiplier)
    decreases |moves|
  {
    hide Dispatch, Sendable, Dispatched;
    if moves == [] {
      assert SentInTurn([g], team, moves, multiplier);
    } else {
      assert Sendable(g, team, moves[0]);
      SendableDispatches(g, team, moves[0], multiplier);
      DispatchIff(g, moves[0].source, moves[0].target, team, multiplier);
      var h, rest := Dispatch(g, moves[0].source, moves[0].target, team, multiplier).value, moves[1..];
      assert Orders(g, team, rest);
      OrdersKnown(g, team, rest);
      OrdersSurvive(g, h, team, rest);
      EachSent(h, team, rest, multiplier);
      var later :| SentInTurn(later, team, rest, multiplier) && later[0] == h
        && later[|rest|] == SendEach(h, team, rest, multiplier);
      var states := [g] + later;
      forall i | 0 <= i < |moves|
        ensures Dispatched(states[i], states[i + 1], moves[i].source, moves[i].target, team, multiplier)
      {
        if i > 0 {
          assert rest[i - 1] == moves[i] && later[i - 1] == states[i] && later[i] == states[i + 1];
        }
      }
      assert SentInTurn(states, team, moves, multiplier);
    }
  }

  function CommanderOf(d: Difficulty): Commander {
    match d
    case Easy => NoCommander
    case Normal => Quartermaster
    case Hard => Vanguard
  }

  /** A turn under v3 and v4 rules: moves as the tick decides, an ability if one is well chosen for them, and
      what is left of the moves sent after it. */
  ghost predicate TurnTaken(g: GameState, h: GameState, setup: Setup, moves: seq<Move>, choice: Option<Choice>) {
    && TickDecided(g, Enemy, setup.enemySpeed, moves)
    && ChosenWell(g, Enemy, CommanderOf(setup.difficulty), moves, choice)
    && match choice
       case None => SentAll(g, h, Enemy, moves, setup.enemySpeed)
       case Some(c) => exists mid ::
         && Used(g, mid, Enemy, CommanderOf(setup.difficulty), c.source, c.target, setup.enemySpeed)
         && SentAll(mid, h, Enemy, c.moves, setup.enemySpeed)
  }

  /** What the bot does in its turn of an undecided battle; under v2 rules it sends its one best move. */
  lemma BotTurnIs(g: GameState, setup: Setup)
    requires GoodBoard(g) && g.status == Playing
    ensures UsesTacticalRules(g.rules) ==> exists moves, choice :: TurnTaken(g, BotTurn(g, setup), setup, moves, choice)
    ensures !UsesTacticalRules(g.rules) ==> SentAll(g, BotTurn(g, setup), Enemy, AiMoves(g), setup.enemySpeed)
  {
    hide PlannedMoves, Orders, ChooseAbility, ApplyAbility, SendEach, SortedIds, SentAll, Used, TickDecided, ChosenWell;
    hide CanUse, AiMoves, TacticalMoves;
    PlannedMovesLegal(g, setup);
    PlannedAre(g, setup);
    var moves := PlannedMoves(g, setup);
    if UsesTacticalRules(g.rules) {
      TickDecides(g, Enemy, setup.enemySpeed);
      ChoiceIs(g, Enemy, BotCommander(setup.difficulty), moves);
      var choice := PlannedAbility(g, setup);
      if choice.Some? {
        var c := choice.value;
        ChoiceAccepted(g, TowerList(g), Enemy, BotCommander(setup.difficulty), moves, setup.enemySpeed);
        AbilityIff(g, Enemy, BotCommander(setup.difficulty), c.source, c.target, setup.enemySpeed);
        var mid := ApplyAbility(g, Enemy, BotCommander(setup.difficulty), c.source, c.target, setup.enemySpeed).value;
        EachSent(mid, Enemy, c.moves, setup.enemySpeed);
      } else {
        EachSent(g, Enemy, moves, setup.enemySpeed);
      }
      assert TurnTaken(g, BotTurn(g, setup), setup, moves, choice);
    } else {
      EachSent(g, Enemy, moves, setup.enemySpeed);
    }
  }

  lemma PlannedAre(g: GameState, setup: Setup)
    ensures PlannedMoves(g, setup) ==
      if UsesTacticalRules(g.rules) then TacticalMoves(g, SortedIds(g.territories.Keys), Enemy, setup.enemySpeed)
      else AiMoves(g)
  {
    hide TacticalMoves, AiMoves;
  }
}
