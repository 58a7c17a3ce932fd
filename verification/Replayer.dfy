/** The server's replay loop over a mutable battle. */
module Replayer {
  import opened World
  import opened BattleRules
  import opened Battle
  import opened TacticalRules
  import opened TacticalOrders
  import opened TacticalBot
  import opened OrderLaws
  import opened ReplayRules
  import opened TacticalChoice
  import opened AbilityChoice
  import opened ActionLaws
  import opened ReplayLaws

  datatype Summary = Summary(status: Status, stats: Stats, durationSeconds: int, actionsProcessed: nat)

  method ValidateActions(actions: seq<Action>) returns (error: Option<ReplayError>)
    ensures error == Violation(actions)
  {
    if |actions| > MAX_ACTIONS {
      return Some(TooManyActions);
    }
    var previous := 0.0;
    for i := 0 to |actions|
      invariant previous == if i == 0 then 0.0 else actions[i - 1].at
      invariant FirstViolation(actions, i) == FirstViolation(actions, 0)
    {
      var a := actions[i];
      if a.sequence != i {
        return Some(InvalidSequence);
      }
      if a.kind == UnknownAction {
        return Some(InvalidActionKind);
      }
      if a.at < 0.0 || a.at > TIME_LIMIT || a.at < previous {
        return Some(InvalidTimestamp);
      }
      previous := a.at;
    }
    return None;
  }

  /** The v2 bot's single move. */
  method EvaluateAIMove(g: GameState) returns (moves: seq<Move>)
    ensures moves == AiMoves(g)
  {
    hide AiScore;
    var order := g.board.order;
    var best: Best := NoBest;
    for i := 0 to |order|
      invariant best == BestOrder(g, order[..i])
    {
      assert order[..i + 1][..i] == order[..i];
      if AiSource(g, order[i]) {
        ghost var before := best;
        for j := 0 to |order|
          invariant best == BestTarget(g, order[i], order[..j], before)
        {
          assert order[..j + 1][..j] == order[..j];
          if order[j] != order[i] {
            var score := AiScore(g, order[i], order[j]);
            if best == NoBest || score > best.score {
              best := Best(score, Move(order[i], order[j]));
            }
          }
        }
        assert order[..|order|] == order;
      }
    }
    assert order[..|order|] == order;
    return if best.Best? && best.score > EPSILON then [best.move] else [];
  }

  class Replayer {
    const battle: Battle
    const setup: Setup
    var currentTick: int
    var nextAITick: real

    constructor (setup: Setup)
      ensures fresh(battle) && this.setup == setup && Now() == Start(setup)
    {
      this.setup := setup;
      battle := new Battle(setup.opening);
      currentTick := 0;
      nextAITick := PlanningPeriod(setup.difficulty);
    }

    ghost function Now(): Clock
      reads this, battle
    {
      Clock(Phase(battle.View(), battle.accumulators), currentTick, nextAITick)
    }

    method AdvanceTo(timestamp: real)
      modifies this`currentTick, battle
      ensures Now() == StepTo(old(Now()), timestamp)
    {
      hide Step;
      var targetTick := TargetTick(timestamp);
      while battle.status == Playing && currentTick < targetTick
        invariant StepToTick(Now(), targetTick) == StepToTick(old(Now()), targetTick)
        decreases targetTick - currentTick
      {
        battle.StepSimulation(TICK);
        currentTick := currentTick + 1;
      }
    }

    method ExecuteAI()
      modifies battle
      ensures Now() == old(Now()).(p := old(Now()).p.(g := BotTurn(old(battle.View()), setup)))
    {
      hide TacticalMoves, ChooseAbility, ApplyAbility, AiMoves, SendEach, SortedIds, TickDecided, ChosenWell, CanUse,
        Used;
      if battle.status != Playing {
        return;
      }
      var moves: seq<Move>;
      if UsesTacticalRules(battle.rules) {
        moves := EvaluateTacticalMoves(battle.View(), Enemy, setup.enemySpeed);
        var choice := ChooseBotAbility(battle.View(), Enemy, BotCommander(setup.difficulty), moves);
        if choice.Some? {
          var c := choice.value;
          var legal := battle.ApplyTeamAbility(Enemy, BotCommander(setup.difficulty), c.source, c.target,
            setup.enemySpeed);
          if legal {
            moves := c.moves;
          }
        }
      } else {
        moves := EvaluateAIMove(battle.View());
      }
      SendMoves(moves);
    }

    method SendMoves(moves: seq<Move>)
      modifies battle
      ensures battle.View() == SendEach(old(battle.View()), Enemy, moves, setup.enemySpeed)
      ensures battle.accumulators == old(battle.accumulators)
    {
      hide BattleRules.Dispatch;
      for i := 0 to |moves|
        invariant SendEach(battle.View(), Enemy, moves[i..], setup.enemySpeed) ==
          SendEach(old(battle.View()), Enemy, moves, setup.enemySpeed)
        invariant battle.accumulators == old(battle.accumulators)
      {
        assert moves[i..][1..] == moves[i + 1..];
        var error := battle.Dispatch(moves[i].source, moves[i].target, Enemy, setup.enemySpeed);
      }
    }

    method RunPlans(until: real)
      modifies this, battle
      ensures Now() == PlanUntil(old(Now()), setup, until)
    {
      hide StepTo, BotTurn;
      while battle.status == Playing && nextAITick <= until + EPSILON
        invariant PlanUntil(Now(), setup, until) == PlanUntil(old(Now()), setup, until)
        decreases PlansLeft(nextAITick, until)
      {
        AdvanceTo(nextAITick);
        ExecuteAI();
        nextAITick := nextAITick + PlanningPeriod(setup.difficulty);
      }
    }

    method ApplyAction(a: Action) returns (applied: bool)
      modifies battle
      ensures match ActionEffect(old(battle.View()), setup, a)
              case Some(h) => applied && battle.View() == h
              case None => !applied && battle.View() == old(battle.View())
      ensures battle.accumulators == old(battle.accumulators)
      ensures applied <==> Counts(old(battle.View()), setup, a)
      ensures applied ==> Done(old(battle.View()), battle.View(), setup, a)
    {
      hide BattleRules.Dispatch, ApplyAbility, Counts, Done, CanDispatch, Dispatched, CanUse, Used;
      EffectIff(battle.View(), setup, a);
      if battle.status != Playing {
        return false;
      }
      if a.kind == AbilityAction {
        applied := battle.ApplyTeamAbility(Player, setup.commander, a.source, a.target, setup.playerSpeed);
      } else {
        var error := battle.Dispatch(a.source, a.target, Player, setup.playerSpeed);
        applied := error == None;
      }
    }

    method PlayActions(actions: seq<Action>) returns (processed: nat)
      modifies this, battle
      ensures Now() == PlayAll(old(Now()), setup, actions)
      ensures processed == AppliedCount(old(Now()), setup, actions)
      ensures PlayedFrom(setup, old(Now()), actions, Now(), processed)
    {
      hide PlanUntil, StepTo, BattleRules.Dispatch, ApplyAbility, PlayedFrom, Counts, Done;
      ReplayHistory(Now(), setup, actions);
      processed := 0;
      for i := 0 to |actions|
        invariant PlayAll(Now(), setup, actions[i..]) == PlayAll(old(Now()), setup, actions)
        invariant processed + AppliedCount(Now(), setup, actions[i..]) == AppliedCount(old(Now()), setup, actions)
      {
        assert actions[i..][1..] == actions[i + 1..];
        ghost var before := Now();
        RunPlans(actions[i].at);
        AdvanceTo(actions[i].at);
        if battle.status != Playing {
          assert Play(before, setup, actions[i]) == Now();
          DeadPlays(Now(), setup, actions[i + 1..]);
          break;
        }
        var applied := ApplyAction(actions[i]);
        if applied {
          processed := processed + 1;
        }
      }
    }
  }

  /** The record is rejected for its first structural violation; otherwise the battle is replayed to
      its verdict. */
  method SimulateBotBattle(setup: Setup, actions: seq<Action>) returns (r: Result<(GameState, Summary), ReplayError>)
    requires ValidSetup(setup)
    ensures match Violation(actions)
            case Some(e) => r == Err(e)
            case None => r.Ok? && r.value.0 == Replay(setup, actions)
                         && r.value.1.status == r.value.0.status != Playing
                         && r.value.1.actionsProcessed == AppliedCount(Start(setup), setup, actions)
    ensures r.Ok? ==> exists last ::
      && PlayedFrom(setup, Start(setup), actions, last, r.value.1.actionsProcessed)
      && r.value.0 == Reach(last, setup, TIME_LIMIT).p.g
  {
    hide PlayAll, PlanUntil, StepTo, AppliedCount, Violation, PlayedFrom;
    var error := ValidateActions(actions);
    if error.Some? {
      return Err(error.value);
    }
    var replayer := new Replayer(setup);
    var processed := replayer.PlayActions(actions);
    replayer.RunPlans(TIME_LIMIT);
    replayer.AdvanceTo(TIME_LIMIT);
    var g := replayer.battle.View();
    ReplayDecides(setup, actions);
    var status := if g.status == Playing then Draw else g.status;
    return Ok((g, Summary(status, g.stats, g.elapsed.Floor, processed)));
  }
}
