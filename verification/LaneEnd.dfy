/** When a lane battle goes on: the base step looks at towers, the lane verdict at soldiers too. */
module LaneEnd {
  import opened Text
  import opened World
  import opened BattleRules
  import opened BattleInvariants
  import opened Roles
  import opened ReplayLaws
  import opened LaneRules
  import opened LaneLaws
  import opened LaneBattle

  lemma {:induction false} TowersCounted(territories: map<Id, Territory>, order: seq<Id>, team: Team)
    requires team != Neutral
    ensures TowersOf(territories, order, team) == 0 <==> forall id :: id in order ==> At(territories, id).owner != team
  {
    if order != [] {
      var front, last := order[..|order| - 1], order[|order| - 1];
      assert order == front + [last];
      TowersCounted(territories, front, team);
    }
  }

  lemma TowersListed(g: GameState, team: Team)
    requires GoodBoard(g) && team != Neutral
    ensures TowersOf(g.territories, g.board.order, team) == 0 <==> Towers(g.territories, team) == {}
  {
    hide TowersOf;
    TowersCounted(g.territories, g.board.order, team);
    if Towers(g.territories, team) != {} {
      var id :| id in Towers(g.territories, team);
      assert id in g.board.order;
    } else {
      forall id | id in g.board.order ensures At(g.territories, id).owner != team {
        assert id !in Towers(g.territories, team);
      }
    }
  }

  lemma SameOwnersTowers(a: map<Id, Territory>, b: map<Id, Territory>, team: Team)
    requires a.Keys == b.Keys && forall id :: id in a ==> b[id].owner == a[id].owner
    ensures Towers(a, team) == Towers(b, team)
  {
  }

  /** The base step of a lane battle looks at towers and clock only. */
  lemma BaseVerdict(g: GameState, acc: Accumulators, delta: real)
    requires GoodBattle(g) && g.status == Playing
    ensures
      var status := Step(g, acc, delta).g.status;
      if Towers(g.territories, Enemy) == {} then status == Victory
      else if Towers(g.territories, Player) == {} then status == Defeat
      else status == Playing <==> Tick(g, delta).elapsed < g.limit
  {
    hide Produced, TowersOf, UnitsOf, Towers, Tick;
    BaseStep(g, acc, delta);
    StepFrame(g, acc, delta);
    SwapProduced(g, acc, delta);
    var h := Step(g, acc, delta).g;
    forall team | team != Neutral
      ensures TowersOf(h.territories, h.board.order, team) == 0 <==> Towers(g.territories, team) == {}
    {
      TowersListed(h, team);
      SameOwnersTowers(g.territories, h.territories, team);
    }
    assert !HasArmy(h.armies, Enemy) && !HasArmy(h.armies, Player);
  }

  /** A side that holds a tower or has a soldier in flight. */
  predicate Alive(q: LanePhase, team: Team) {
    Towers(q.p.g.territories, team) != {} || InFlight(q.lanes.soldiers, team)
  }

  /** A step goes on exactly when each side held a tower before it, time is left, and each side has a
      tower or soldiers in flight after it. */
  lemma PlaysOnIff(q: LanePhase, delta: real)
    requires GoodBattle(q.p.g) && q.p.g.status == Playing
    ensures
      var r, g := LaneStep(q, delta), q.p.g;
      r.p.g.status == Playing <==>
        && Towers(g.territories, Player) != {} && Towers(g.territories, Enemy) != {} && Tick(g, delta).elapsed < g.limit
        && Alive(r, Player) && Alive(r, Enemy)
  {
    hide Step, Arrivals, Departures, InFlight, Towers, Tick;
    BaseVerdict(q.p.g, q.p.acc, delta);
    BaseAlive(q, delta);
  }

  /** A battle the base step decides is over whatever the lanes hold. */
  lemma BaseAlive(q: LanePhase, delta: real)
    requires GoodBattle(q.p.g)
    ensures Step(q.p.g, q.p.acc, delta).g.status != Playing ==>
      LaneStep(q, delta).p.g.status == Step(q.p.g, q.p.acc, delta).g.status
  {
    hide Step;
  }

  /** Soldiers in flight save a side without towers for the rest of the step in which it lost the last
      one, and no longer: the next step goes against it whatever it has in flight. */
  lemma FlyingSoldiersSaveNobody(q: LanePhase, delta: real, next: real)
    requires GoodLaneState(q.p.g, q.lanes) && 0.0 <= delta
    ensures
      var r := LaneStep(q, delta);
      r.p.g.status == Playing ==>
        var s := LaneStep(r, next).p.g.status;
        && (Towers(r.p.g.territories, Enemy) == {} ==> InFlight(r.lanes.soldiers, Enemy) && s == Victory)
        && (Towers(r.p.g.territories, Player) == {} ==>
              InFlight(r.lanes.soldiers, Player) && s == if Towers(r.p.g.territories, Enemy) == {} then Victory
                else Defeat)
  {
    hide LaneStep, GoodBattle, Towers, InFlight, GoodLanes, DistinctLanes, IdsBelow, SourcesOwned, WithinPaths,
      GoodSoldiers, Step;
    LaneStepKeeps(q, delta);
    var r := LaneStep(q, delta);
    if r.p.g.status == Playing {
      StaysDecided(q, delta);
      PlaysOnIff(q, delta);
      BaseVerdict(r.p.g, r.p.acc, next);
      BaseAlive(r, next);
    }
  }

  lemma StaysDecided(q: LanePhase, delta: real)
    ensures q.p.g.status != Playing ==> LaneStep(q, delta).p.g.status == q.p.g.status
  {
  }

  // ----- A battle in which it happens

  const LAST_STAND := GameState(
    Board([("a", "b")], ["a", "b"], (x: Id, y: Id) => 140.0),
    map["a" := Territory(Player, 5, 10, 0.0, 1, Plain), "b" := Territory(Enemy, 0, 10, 0.0, 1, Plain)],
    [], Playing, 0.0, 90.0, Stats(0.0, 0, 0, 0, 0), 3, map[], map[], false, false)

  const ATTACKER := Soldier(Player, "b", ["a", "b"], 1.0, 0.05)

  const AVENGER := Soldier(Enemy, "a", ["b", "a"], 1.0, 0.5)

  const FACING := LanePhase(Phase(LAST_STAND, map[]), LaneState([], [ATTACKER, AVENGER], 0))

  lemma {:induction false} IdleProduce(g: GameState, acc: Accumulators, delta: real, order: seq<Id>)
    requires forall id :: id in g.territories ==> !Produces(g.territories[id])
    ensures Produce(g, acc, delta, order).g == g
  {
    if order != [] {
      IdleProduce(g, acc, delta, order[..|order| - 1]);
    }
  }

  lemma LastStandGood()
    ensures GoodLaneState(FACING.p.g, FACING.lanes)
  {
    assert forall o, x :: LanesFrom([], o, x) == 0;
  }

  lemma LastStandStep()
    ensures Step(LAST_STAND, map[], 0.1).g.territories == LAST_STAND.territories
    ensures Step(LAST_STAND, map[], 0.1).g.status == Playing
  {
    hide Verdict, Produce;
    LastStandGood();
    assert "a" in Towers(LAST_STAND.territories, Player) && "b" in Towers(LAST_STAND.territories, Enemy);
    BaseVerdict(LAST_STAND, map[], 0.1);
    IdleProduce(Tick(LAST_STAND, 0.1), map[], 0.1, LAST_STAND.board.order);
  }

  lemma LastStandLands(stats: Stats)
    ensures
      var l := LandAll(Landing(LAST_STAND.territories, stats, []), FACING.lanes.soldiers, 0.1);
      l.flying == [AVENGER.(remaining := 0.4)] && Towers(l.territories, Enemy) == {}
        && Towers(l.territories, Player) != {}
  {
    assert [ATTACKER, AVENGER][..1] == [ATTACKER] && [ATTACKER][..0] == [];
    var start := Landing(LAST_STAND.territories, stats, []);
    var l := Land(start, ATTACKER, 0.1);
    assert LandAll(start, [], 0.1) == start && LandAll(start, [ATTACKER], 0.1) == l;
    assert LandAll(start, [ATTACKER, AVENGER], 0.1) == Land(l, AVENGER, 0.1);
    assert l.flying == [] && l.territories["b"].owner == Player && l.territories["a"].owner == Player;
    assert "a" in Towers(l.territories, Player);
  }

  /** The player takes the last enemy tower while an enemy soldier is on its way to a tower it could
      still take: the step goes on, and the next one ends the battle before the soldier lands. */
  lemma LastStand()
    ensures GoodLaneState(FACING.p.g, FACING.lanes)
    ensures
      var r := LaneStep(FACING, 0.1);
      && r.p.g.status == Playing && Towers(r.p.g.territories, Enemy) == {}
        && r.lanes.soldiers == [AVENGER.(remaining := 0.4)]
      && LaneStep(r, 0.1).p.g.status == Victory
  {
    hide LandAll, Step, Towers;
    LastStandGood();
    LastStandStep();
    var p := Step(LAST_STAND, map[], 0.1);
    LastStandLands(p.g.stats);
    var r := LaneStep(FACING, 0.1);
    assert r.lanes.soldiers[0].owner == Enemy;
    FlyingSoldiersSaveNobody(FACING, 0.1, 0.1);
  }
}
