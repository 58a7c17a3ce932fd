/** The mutable battle: dispatches, abilities and steps write its fields in place. */
module Battle {
  import opened Text
  import opened World
  import opened DispatchRoute
  import opened March
  import opened Combat
  import opened BattleRules
  import opened OrderLaws
  import opened BattleInvariants
  import opened Verdicts
  import opened StepLaws

  class Battle {
    const board: Board
    const rules: int
    const limit: real
    var territories: map<Id, Territory>
    var armies: seq<Army>
    var status: Status
    var elapsed: real
    var stats: Stats
    var readyAt: map<Id, int>
    var shieldedUntil: map<Id, int>
    var playerAbilityUsed: bool
    var enemyAbilityUsed: bool
    var accumulators: Accumulators

    function View(): GameState
      reads this
    {
      GameState(board, territories, armies, status, elapsed, limit, stats, rules,
                readyAt, shieldedUntil, playerAbilityUsed, enemyAbilityUsed)
    }

    constructor (g: GameState)
      ensures View() == g && accumulators == map[]
    {
      board, rules, limit := g.board, g.rules, g.limit;
      territories, armies, status, elapsed, stats := g.territories, g.armies, g.status, g.elapsed, g.stats;
      readyAt, shieldedUntil := g.readyAt, g.shieldedUntil;
      playerAbilityUsed, enemyAbilityUsed := g.playerAbilityUsed, g.enemyAbilityUsed;
      accumulators := map[];
    }

    method CountSent(owner: Team, units: int)
      modifies this`stats
      ensures stats == BattleRules.CountSent(old(stats), owner, units)
    {
      if owner == Player {
        stats := stats.(playerSent := stats.playerSent + units);
      } else {
        stats := stats.(enemySent := stats.enemySent + units);
      }
    }

    /** A refused dispatch leaves the battle untouched. */
    method Dispatch(source: Id, target: Id, owner: Team, multiplier: real) returns (error: Option<DispatchError>)
      modifies this`territories, this`armies, this`stats
      ensures match BattleRules.Dispatch(old(View()), source, target, owner, multiplier)
              case Ok(g) => error == None && View() == g
              case Err(e) => error == Some(e) && View() == old(View())
      ensures error == None <==> CanDispatch(old(View()), source, target, owner)
      ensures error == None ==> Dispatched(old(View()), View(), source, target, owner, multiplier)
    {
      hide CanDispatch, Dispatched, FindRoute, NewArmy;
      DispatchIff(View(), source, target, owner, multiplier);
      if source !in territories {
        return Some(InvalidSource);
      }
      if target !in territories {
        return Some(InvalidTarget);
      }
      var from := territories[source];
      if source == target || from.owner != owner {
        return Some(InvalidDispatch);
      }
      RouteLength(View(), source, target, owner);
      var route := FindDispatchRoute(View(), source, target, owner);
      if route == None {
        return Some(InvalidDispatch);
      }
      var units := DispatchUnits(from.units);
      if units <= 0 {
        return Some(InvalidDispatch);
      }
      Send(source, target, owner, multiplier, units, route.value);
      return None;
    }

    method Send(source: Id, target: Id, owner: Team, multiplier: real, units: int, route: seq<Id>)
      requires source in territories && |route| >= 2
      modifies this`territories, this`armies, this`stats
      ensures View() == Sent(old(View()), source, target, owner, multiplier, units, route)
    {
      var from := territories[source];
      var army := NewArmy(View(), source, target, owner, multiplier, units, route);
      territories := territories[source := from.(units := from.units - units)];
      armies := armies + [army];
      CountSent(owner, units);
    }

    /** An illegal use leaves the battle untouched. */
    method ApplyTeamAbility(team: Team, commander: Commander, source: Id, target: Id,
      multiplier: real) returns (legal: bool)
      modifies this`territories, this`armies, this`stats, this`shieldedUntil, this`playerAbilityUsed,
        this`enemyAbilityUsed
      ensures match ApplyAbility(old(View()), team, commander, source, target, multiplier)
              case Some(g) => legal && View() == g
              case None => !legal && View() == old(View())
      ensures legal <==> CanUse(old(View()), team, commander, source, target)
      ensures legal ==> Used(old(View()), View(), team, commander, source, target, multiplier)
    {
      hide BattleRules.Dispatch, Boost, Milliseconds, CanUse, Used;
      AbilityIff(View(), team, commander, source, target, multiplier);
      if !HasCommanderAbilities(rules) || status != Playing || AbilityUsed(View(), team)
        || elapsed + EPSILON < ABILITY_UNLOCK_SECONDS {
        return false;
      }
      if source !in territories || territories[source].owner != team {
        return false;
      }
      match commander {
        case CrownGuard =>
          if target != source {
            return false;
          }
          shieldedUntil := shieldedUntil[source := Milliseconds(elapsed) + SHIELD_DURATION_MS];
        case Quartermaster =>
          if target != source {
            return false;
          }
          var t := territories[source];
          territories := territories[source := t.(units := t.units + SUPPLY_UNITS)];
        case Vanguard =>
          if target == source {
            return false;
          }
          legal := Charge(team, source, target, multiplier);
          if !legal {
            return false;
          }
        case NoCommander =>
          return false;
      }
      if team == Player {
        playerAbilityUsed := true;
      } else {
        enemyAbilityUsed := true;
      }
      return true;
    }

    method Charge(team: Team, source: Id, target: Id, multiplier: real) returns (sent: bool)
      modifies this`territories, this`armies, this`stats
      ensures match BattleRules.Dispatch(old(View()), source, target, team, multiplier * CHARGE_SPEED_MULTIPLIER)
              case Ok(g) => sent && g.armies != [] && View() == Boost(g, team)
              case Err(e) => !sent && View() == old(View())
    {
      var error := Dispatch(source, target, team, multiplier * CHARGE_SPEED_MULTIPLIER);
      if error != None {
        return false;
      }
      var last := |armies| - 1;
      var boosted := 2 * armies[last].units;
      CountSent(team, boosted - armies[last].units);
      armies := armies[last := armies[last].(units := boosted)];
      return true;
    }

    /** One fixed step of the simulation. */
    method StepSimulation(delta: real)
      modifies this
      ensures Phase(View(), accumulators) == Step(old(View()), old(accumulators), delta)
      ensures old(status == Playing && GoodBoard(View())) ==> GoodBoard(View()) && status == Ruling(View())
      ensures old(status == Playing && GoodBoard(View()) && GoodArmies(View())) ==>
        Stepped(old(View()), old(accumulators), delta, Phase(View(), accumulators))
    {
      hide Ruling, GoodBoard, GoodArmies, Stepped;
      if status == Playing && GoodBoard(View()) {
        StepRules(View(), accumulators, delta);
        if GoodArmies(View()) {
          StepIs(View(), accumulators, delta);
        }
      }
      if status != Playing {
        return;
      }
      AdvanceClock(delta);
      MarchArmies(delta);
      assert Phase(View(), accumulators) == Marched(old(View()), old(accumulators), delta);
      TickGeneration(delta);
      assert Phase(View(), accumulators) == Produced(old(View()), old(accumulators), delta);
      DecideStatus();
    }

    method AdvanceClock(delta: real)
      modifies this`elapsed, this`stats
      ensures View() == Tick(old(View()), delta)
    {
      elapsed := elapsed + delta;
      if HasCaptureRecovery(rules) {
        elapsed := (Round(elapsed * 1000000000.0) as real) / 1000000000.0;
      }
      stats := stats.(duration := elapsed);
    }

    method MarchArmies(delta: real)
      modifies this`territories, this`armies, this`stats, this`readyAt, this`accumulators
      ensures Phase(View(), accumulators) == HandleArmies(Phase(old(View()).(armies := []), old(accumulators)),
        old(armies), delta)
    {
      hide HandleArmy;
      var marching := armies;
      armies := [];
      ghost var start := Phase(View(), accumulators);
      for i := 0 to |marching|
        invariant Phase(View(), accumulators) == HandleArmies(start, marching[..i], delta)
      {
        assert marching[..i + 1][..i] == marching[..i];
        MoveOne(marching[i], delta);
      }
      assert marching[..|marching|] == marching;
    }

    method MoveOne(marching: Army, delta: real)
      modifies this`territories, this`armies, this`stats, this`readyAt, this`accumulators
      ensures Phase(View(), accumulators) == HandleArmy(Phase(old(View()), old(accumulators)), marching, delta)
    {
      var army, arrived := marching, false;
      if UsesTacticalRules(rules) {
        army, arrived := AdvanceRoutedArmy(board, army, territories, delta);
      } else {
        var progress := Progress(army, delta);
        army, arrived := army.(progress := progress), progress >= 1.0;
      }
      if arrived {
        ArmyArrives(army);
      } else {
        armies := armies + [army];
      }
    }

    method ArmyArrives(army: Army)
      modifies this`territories, this`stats, this`readyAt, this`accumulators
      ensures Phase(View(), accumulators) == Arrive(Phase(old(View()), old(accumulators)), army)
    {
      hide ResolveArrival, CountCapture, Milliseconds;
      if army.target !in territories {
        return;
      }
      var id := army.target;
      var target := territories[id];
      var now := Milliseconds(elapsed);
      var shielded := id in shieldedUntil && shieldedUntil[id] > now;
      var combat := ResolveArrival(target, army.units, army.owner, shielded);
      territories := territories[id := target.(owner := combat.owner, units := combat.units)];
      if combat.captured {
        if HasCaptureRecovery(rules) {
          if ReadyAt(View(), id) <= now {
            readyAt := readyAt[id := now + CAPTURE_RECOVERY_MS];
          }
          accumulators := accumulators[id := 0.0];
        }
        stats := CountCapture(stats, combat.owner);
      }
    }

    method TickGeneration(delta: real)
      modifies this`territories, this`accumulators
      ensures Phase(View(), accumulators) == Produce(old(View()), old(accumulators), delta, board.order)
    {
      var order := board.order;
      var acc := accumulators;
      ghost var start := View();
      accumulators := map[];
      for i := 0 to |order|
        invariant Phase(View(), accumulators) == Produce(start, acc, delta, order[..i])
      {
        assert order[..i + 1][..i] == order[..i];
        GenerateAt(acc, order[i], delta);
      }
      assert order[..|order|] == order;
    }

    method GenerateAt(acc: Accumulators, id: Id, delta: real)
      modifies this`territories, this`accumulators
      ensures Phase(View(), accumulators) == ProduceOne(Phase(old(View()), old(accumulators)), acc, delta, id)
    {
      hide Snap, Increment, RecoveryMultiplier;
      var t := At(territories, id);
      if t.owner == Neutral || t.productionRate <= 0.0 || t.units >= t.maxUnits {
        accumulators := accumulators[id := 0.0];
        return;
      }
      var current := Snap(Accumulated(acc, id) + Increment(t, RecoveryMultiplier(View(), id), delta));
      var whole := current.Floor;
      if whole > 0 {
        var allowed := Max(0, t.maxUnits - t.units);
        territories := territories[id := t.(units := t.units + Min(whole, allowed))];
        accumulators := accumulators[id := current - whole as real];
      } else {
        accumulators := accumulators[id := current];
      }
    }

    method DecideStatus()
      modifies this`status
      ensures View() == old(View()).(status := Verdict(old(View())))
      ensures old(status == Playing && GoodBoard(View())) ==> status == Ruling(old(View()))
    {
      hide Ruling, GoodBoard, TowersOf, UnitsOf, HasArmy, Verdict;
      RuledOn(View());
      VerdictCases(View());
      var playerTowers, enemyTowers, playerUnits, enemyUnits := CountTowers();
      var playerArmy, enemyArmy := FindArmies();
      if enemyTowers == 0 && !enemyArmy {
        status := Victory;
      } else if playerTowers == 0 && !playerArmy {
        status := Defeat;
      } else if elapsed >= limit {
        if playerTowers > enemyTowers || (playerTowers == enemyTowers && playerUnits > enemyUnits) {
          status := Victory;
        } else if enemyTowers > playerTowers || (playerTowers == enemyTowers && enemyUnits > playerUnits) {
          status := Defeat;
        } else {
          status := Draw;
        }
      }
    }

    method FindArmies() returns (playerArmy: bool, enemyArmy: bool)
      ensures playerArmy == HasArmy(armies, Player) && enemyArmy == HasArmy(armies, Enemy)
    {
      playerArmy, enemyArmy := false, false;
      for i := 0 to |armies|
        invariant playerArmy == HasArmy(armies[..i], Player) && enemyArmy == HasArmy(armies[..i], Enemy)
      {
        assert armies[..i + 1] == armies[..i] + [armies[i]];
        HasArmyAppend(armies[..i], armies[i], Player);
        HasArmyAppend(armies[..i], armies[i], Enemy);
        playerArmy := playerArmy || armies[i].owner == Player;
        enemyArmy := enemyArmy || armies[i].owner == Enemy;
      }
      assert armies[..|armies|] == armies;
    }

    method CountTowers() returns (playerTowers: nat, enemyTowers: nat, playerUnits: int, enemyUnits: int)
      ensures playerTowers == TowersOf(territories, board.order, Player)
        && enemyTowers == TowersOf(territories, board.order, Enemy)
      ensures playerUnits == UnitsOf(territories, board.order, Player)
        && enemyUnits == UnitsOf(territories, board.order, Enemy)
    {
      playerTowers, enemyTowers, playerUnits, enemyUnits := 0, 0, 0, 0;
      var order := board.order;
      for i := 0 to |order|
        invariant playerTowers == TowersOf(territories, order[..i], Player)
          && enemyTowers == TowersOf(territories, order[..i], Enemy)
        invariant playerUnits == UnitsOf(territories, order[..i], Player)
          && enemyUnits == UnitsOf(territories, order[..i], Enemy)
      {
        assert order[..i + 1][..i] == order[..i];
        var t := At(territories, order[i]);
        if t.owner == Player {
          playerTowers, playerUnits := playerTowers + 1, playerUnits + t.units;
        } else if t.owner == Enemy {
          enemyTowers, enemyUnits := enemyTowers + 1, enemyUnits + t.units;
        }
      }
      assert order[..|order|] == order;
    }
  }

  lemma HasArmyAppend(armies: seq<Army>, army: Army, team: Team)
    ensures HasArmy(armies + [army], team) == (HasArmy(armies, team) || army.owner == team)
  {
    var all := armies + [army];
    assert all[|armies|] == army;
    forall i | 0 <= i < |armies| ensures all[i] == armies[i] {
    }
  }

  lemma RuledOn(g: GameState)
    ensures g.status == Playing && GoodBoard(g) ==> Verdict(g) == Ruling(g)
  {
    hide Verdict, Ruling, GoodBoard;
    if g.status == Playing && GoodBoard(g) {
      VerdictIs(g);
      assert g.(status := Playing) == g;
    }
  }

  /** The verdict by the counts of one look at the board. */
  lemma VerdictCases(g: GameState)
    ensures
      var order := g.board.order;
      var pt, et := TowersOf(g.territories, order, Player), TowersOf(g.territories, order, Enemy);
      var pu, eu := UnitsOf(g.territories, order, Player), UnitsOf(g.territories, order, Enemy);
      Verdict(g) ==
        if et == 0 && !HasArmy(g.armies, Enemy) then Victory
        else if pt == 0 && !HasArmy(g.armies, Player) then Defeat
        else if g.elapsed >= g.limit then
          if pt > et || (pt == et && pu > eu) then Victory
          else if et > pt || (pt == et && eu > pu) then Defeat
          else Draw
        else g.status
  {
    hide TowersOf, UnitsOf, HasArmy;
  }
}
