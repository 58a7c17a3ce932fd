/** The state as the other side sees it, and why both sides play the same game: dispatches and
    steps commute with exchanging the teams. */
module Roles {
  import opened Text
  import opened World
  import opened Routes
  import opened RouteSearch
  import opened DispatchRoute
  import opened March
  import opened Combat
  import opened BattleRules
  import opened BattleInvariants

  function MapTeam(team: Team, role: Team): Team {
    if role == Player then team
    else match team
      case Player => Enemy
      case Enemy => Player
      case Neutral => Neutral
  }

  function StatusForRole(status: Status, role: Team): Status {
    if role == Player || status == Playing || status == Draw then status
    else if status == Victory then Defeat
    else Victory
  }

  function StatsForRole(stats: Stats, role: Team): Stats {
    if role == Player then stats
    else Stats(stats.duration, stats.enemySent, stats.playerSent, stats.enemyCaptures, stats.playerCaptures)
  }

  function TerritoriesForRole(territories: map<Id, Territory>, role: Team): map<Id, Territory> {
    map id | id in territories :: territories[id].(owner := MapTeam(territories[id].owner, role))
  }

  function ArmyForRole(a: Army, role: Team): Army {
    a.(owner := MapTeam(a.owner, role))
  }

  function ArmiesForRole(armies: seq<Army>, role: Team): (r: seq<Army>)
    ensures |r| == |armies|
  {
    seq(|armies|, i requires 0 <= i < |armies| => ArmyForRole(armies[i], role))
  }

  function StateForRole(g: GameState, role: Team): GameState {
    g.(territories := TerritoriesForRole(g.territories, role), armies := ArmiesForRole(g.armies, role),
       status := StatusForRole(g.status, role), stats := StatsForRole(g.stats, role))
  }

  /** Looking at the state twice through the same eyes gives it back. */
  lemma RoleRoundTrip(g: GameState, role: Team)
    ensures StateForRole(StateForRole(g, role), role) == g
  {
    var h := StateForRole(StateForRole(g, role), role);
    assert h.territories == g.territories;
    assert h.armies == g.armies;
  }

  function Swap(g: GameState): GameState {
    StateForRole(g, Enemy)
  }

  function SwapPhase(p: Phase): Phase {
    p.(g := Swap(p.g))
  }

  function SwapTeam(t: Team): Team {
    MapTeam(t, Enemy)
  }

  function SwapTower(t: Territory): Territory {
    t.(owner := SwapTeam(t.owner))
  }

  function SwapTowers(territories: map<Id, Territory>): map<Id, Territory> {
    TerritoriesForRole(territories, Enemy)
  }

  lemma SwapUpdate(territories: map<Id, Territory>, id: Id, t: Territory)
    ensures SwapTowers(territories[id := t]) == SwapTowers(territories)[id := SwapTower(t)]
  {
  }

  lemma SwapAppend(armies: seq<Army>, a: Army)
    ensures ArmiesForRole(armies + [a], Enemy) == ArmiesForRole(armies, Enemy) + [ArmyForRole(a, Enemy)]
  {
  }

  lemma SwapFront(armies: seq<Army>)
    requires armies != []
    ensures ArmiesForRole(armies, Enemy)[..|armies| - 1] == ArmiesForRole(armies[..|armies| - 1], Enemy)
  {
  }

  // ----- Dispatch

  lemma SwapFriendly(territories: map<Id, Territory>, owner: Team)
    ensures Friendly(SwapTowers(territories), SwapTeam(owner)) == Friendly(territories, owner)
  {
    assert forall id :: id in territories ==>
      (SwapTowers(territories)[id].owner == SwapTeam(owner) <==> territories[id].owner == owner);
  }

  lemma SwapRoute(g: GameState, source: Id, target: Id, owner: Team)
    ensures FindRoute(Swap(g), source, target, SwapTeam(owner)) == FindRoute(g, source, target, owner)
  {
    hide FriendlyPathsFrom, Neighbors, BestEntry;
    SwapFriendly(g.territories, owner);
    ReachablePaths(g.board, Friendly(g.territories, owner), source);
  }

  /** Both sides have the same orders available, with the same effect. */
  lemma DispatchCommutes(g: GameState, source: Id, target: Id, owner: Team, multiplier: real)
    requires owner != Neutral
    ensures match Dispatch(g, source, target, owner, multiplier)
            case Ok(h) => Dispatch(Swap(g), source, target, SwapTeam(owner), multiplier) == Ok(Swap(h))
            case Err(e) => Dispatch(Swap(g), source, target, SwapTeam(owner), multiplier) == Err(e)
  {
    SwapRoute(g, source, target, owner);
    RouteLength(g, source, target, owner);
    if Dispatch(g, source, target, owner, multiplier).Ok? {
      SwapSent(g, source, target, owner, multiplier, DispatchUnits(g.territories[source].units),
        FindRoute(g, source, target, owner).value);
    }
  }

  lemma SwapSent(g: GameState, source: Id, target: Id, owner: Team, multiplier: real, units: int, route: seq<Id>)
    requires source in g.territories && |route| >= 2 && owner != Neutral
    ensures Sent(Swap(g), source, target, SwapTeam(owner), multiplier, units, route) ==
      Swap(Sent(g, source, target, owner, multiplier, units, route))
  {
    var from := g.territories[source];
    SwapUpdate(g.territories, source, from.(units := from.units - units));
    var army := NewArmy(g, source, target, owner, multiplier, units, route);
    assert NewArmy(Swap(g), source, target, SwapTeam(owner), multiplier, units, route) == ArmyForRole(army, Enemy);
    SwapAppend(g.armies, army);
  }

  // ----- Armies

  lemma {:induction false} SwapAdvance(b: Board, a: Army, territories: map<Id, Territory>, delta: real)
    ensures
      var (moved, arrived) := Advance(b, a, territories, delta);
      Advance(b, ArmyForRole(a, Enemy), SwapTowers(territories), delta) == (ArmyForRole(moved, Enemy), arrived)
    decreases |a.route| - a.leg
  {
    var c := ArmyForRole(a, Enemy);
    assert StopsHere(c, SwapTowers(territories)) == StopsHere(a, territories);
    assert Progress(c, delta) == Progress(a, delta);
    if Progress(a, delta) >= 1.0 && !StopsHere(a, territories) {
      SwapAdvance(b, NextLeg(b, a, territories), territories, TimeLeft(a, delta));
    }
  }

  lemma SwapOutcome(t: Territory, incoming: int, attacker: Team, shielded: bool)
    ensures
      var o := ResolveArrival(t, incoming, attacker, shielded);
      ResolveArrival(SwapTower(t), incoming, SwapTeam(attacker), shielded) == o.(owner := SwapTeam(o.owner))
  {
  }

  lemma SwapArrive(p: Phase, a: Army)
    ensures Arrive(SwapPhase(p), ArmyForRole(a, Enemy)) == SwapPhase(Arrive(p, a))
  {
    hide StartRecovery, Fought, ResolveArrival;
    if a.target in p.g.territories {
      var o := ArrivalOutcome(p.g, a);
      SwapOutcome(p.g.territories[a.target], a.units, a.owner, Shielded(p.g, a.target));
      SwapFought(p.g, a.target, o);
      var fought := Fought(p.g, a.target, o);
      SwapRecovery(p.(g := fought.(stats := CountCapture(fought.stats, o.owner))), a.target);
    }
  }

  lemma SwapFought(g: GameState, id: Id, o: Outcome)
    requires id in g.territories
    ensures Fought(Swap(g), id, o.(owner := SwapTeam(o.owner))) == Swap(Fought(g, id, o))
  {
    SwapUpdate(g.territories, id, After(g.territories[id], o));
  }

  lemma SwapRecovery(p: Phase, id: Id)
    ensures StartRecovery(SwapPhase(p), id) == SwapPhase(StartRecovery(p, id))
  {
  }

  lemma SwapProgress(a: Army, delta: real)
    ensures Progress(ArmyForRole(a, Enemy), delta) == Progress(a, delta)
  {
  }

  lemma SwapHandleArmy(p: Phase, a: Army, delta: real)
    ensures HandleArmy(SwapPhase(p), ArmyForRole(a, Enemy), delta) == SwapPhase(HandleArmy(p, a, delta))
  {
    hide Advance, Arrive, Progress;
    SwapAdvance(p.g.board, a, p.g.territories, delta);
    SwapProgress(a, delta);
    var (moved, arrived) := MoveArmy(p.g, a, delta);
    assert MoveArmy(SwapPhase(p).g, ArmyForRole(a, Enemy), delta) == (ArmyForRole(moved, Enemy), arrived);
    if arrived {
      SwapArrive(p, moved);
    } else {
      SwapAppend(p.g.armies, moved);
    }
  }

  lemma {:induction false} SwapHandleArmies(p: Phase, armies: seq<Army>, delta: real)
    ensures HandleArmies(SwapPhase(p), ArmiesForRole(armies, Enemy), delta) == SwapPhase(HandleArmies(p, armies, delta))
  {
    if armies != [] {
      SwapFront(armies);
      SwapHandleArmies(p, armies[..|armies| - 1], delta);
      SwapHandleArmy(HandleArmies(p, armies[..|armies| - 1], delta), armies[|armies| - 1], delta);
    }
  }

  // ----- Production

  lemma SwapProduceAt(g: GameState, acc: Accumulators, delta: real, id: Id)
    ensures At(SwapTowers(g.territories), id) == SwapTower(At(g.territories, id))
    ensures ProduceAt(Swap(g), acc, delta, id) == ProduceAt(g, acc, delta, id)
  {
    hide Increment, RecoveryMultiplier, Snap;
    SwapIncrement(g, At(g.territories, id), id, delta);
  }

  lemma SwapIncrement(g: GameState, t: Territory, id: Id, delta: real)
    ensures Increment(SwapTower(t), RecoveryMultiplier(Swap(g), id), delta) ==
      Increment(t, RecoveryMultiplier(g, id), delta)
  {
    hide CaptureMultiplier;
  }

  lemma SwapProduceOne(p: Phase, acc: Accumulators, delta: real, id: Id)
    ensures ProduceOne(SwapPhase(p), acc, delta, id) == SwapPhase(ProduceOne(p, acc, delta, id))
  {
    SwapProduceAt(p.g, acc, delta, id);
    var t := At(p.g.territories, id);
    SwapUpdate(p.g.territories, id, t.(units := ProduceAt(p.g, acc, delta, id).0));
  }

  lemma {:induction false} SwapProduce(g: GameState, acc: Accumulators, delta: real, order: seq<Id>)
    ensures Produce(Swap(g), acc, delta, order) == SwapPhase(Produce(g, acc, delta, order))
  {
    if order != [] {
      SwapProduce(g, acc, delta, order[..|order| - 1]);
      SwapProduceOne(Produce(g, acc, delta, order[..|order| - 1]), acc, delta, order[|order| - 1]);
    }
  }

  lemma SwapProduced(g: GameState, acc: Accumulators, delta: real)
    ensures Produced(Swap(g), acc, delta) == SwapPhase(Produced(g, acc, delta))
    ensures Produced(g, acc, delta).g.status == g.status
  {
    hide HandleArmies, Produce;
    var start := Phase(Tick(g, delta).(armies := []), acc);
    assert Phase(Tick(Swap(g), delta).(armies := []), acc) == SwapPhase(start);
    SwapHandleArmies(start, g.armies, delta);
    var m := Marched(g, acc, delta);
    HandleArmiesFrame(start, g.armies, delta);
    ProduceFrame(m.g, m.acc, delta, g.board.order);
    SwapProduce(m.g, m.acc, delta, g.board.order);
  }

  /** The steps before the verdict change neither the board nor the clock nor the status. */
  lemma RecoveryFrame(p: Phase, id: Id)
    ensures StartRecovery(p, id).g.(readyAt := p.g.readyAt) == p.g
  {
    hide Milliseconds, ReadyAt;
  }

  lemma ArriveFrame(p: Phase, a: Army)
    ensures
      var q := Arrive(p, a);
      && q.g.board == p.g.board && q.g.status == p.g.status && q.g.elapsed == p.g.elapsed && q.g.limit == p.g.limit
      && q.g.rules == p.g.rules && q.g.territories.Keys == p.g.territories.Keys
  {
    hide ArrivalOutcome, CountCapture, After, StartRecovery;
    if a.target in p.g.territories {
      var o := ArrivalOutcome(p.g, a);
      var fought := Fought(p.g, a.target, o);
      RecoveryFrame(p.(g := fought.(stats := CountCapture(fought.stats, o.owner))), a.target);
    }
  }

  lemma HandleArmyFrame(p: Phase, a: Army, delta: real)
    ensures
      var q := HandleArmy(p, a, delta);
      && q.g.board == p.g.board && q.g.status == p.g.status && q.g.elapsed == p.g.elapsed && q.g.limit == p.g.limit
      && q.g.rules == p.g.rules && q.g.territories.Keys == p.g.territories.Keys
  {
    hide MoveArmy, Arrive;
    ArriveFrame(p, MoveArmy(p.g, a, delta).0);
  }

  lemma {:induction false} HandleArmiesFrame(p: Phase, armies: seq<Army>, delta: real)
    ensures
      var q := HandleArmies(p, armies, delta);
      && q.g.board == p.g.board && q.g.status == p.g.status && q.g.elapsed == p.g.elapsed && q.g.limit == p.g.limit
      && q.g.rules == p.g.rules && q.g.territories.Keys == p.g.territories.Keys
  {
    hide HandleArmy;
    if armies != [] {
      HandleArmiesFrame(p, armies[..|armies| - 1], delta);
      HandleArmyFrame(HandleArmies(p, armies[..|armies| - 1], delta), armies[|armies| - 1], delta);
    }
  }

  lemma {:induction false} ProduceFrame(g: GameState, acc: Accumulators, delta: real, order: seq<Id>)
    ensures
      var q := Produce(g, acc, delta, order);
      q.g.board == g.board && q.g.status == g.status && q.g.elapsed == g.elapsed && q.g.limit == g.limit
        && q.g.rules == g.rules
  {
    if order != [] {
      ProduceFrame(g, acc, delta, order[..|order| - 1]);
    }
  }

  // ----- The verdict

  lemma {:induction false} SwapCounts(territories: map<Id, Territory>, order: seq<Id>, team: Team)
    ensures TowersOf(SwapTowers(territories), order, SwapTeam(team)) == TowersOf(territories, order, team)
    ensures UnitsOf(SwapTowers(territories), order, SwapTeam(team)) == UnitsOf(territories, order, team)
  {
    if order != [] {
      var id := order[|order| - 1];
      assert At(SwapTowers(territories), id) == SwapTower(At(territories, id));
      SwapCounts(territories, order[..|order| - 1], team);
    }
  }

  lemma SwapHasArmy(armies: seq<Army>, team: Team)
    ensures HasArmy(ArmiesForRole(armies, Enemy), SwapTeam(team)) == HasArmy(armies, team)
  {
    var swapped := ArmiesForRole(armies, Enemy);
    assert forall i :: 0 <= i < |armies| ==> (swapped[i].owner == SwapTeam(team) <==> armies[i].owner == team);
  }

  lemma SwapEliminated(g: GameState, team: Team)
    ensures Eliminated(Swap(g), SwapTeam(team)) == Eliminated(g, team)
  {
    SwapCounts(g.territories, g.board.order, team);
    SwapHasArmy(g.armies, team);
  }

  predicate BothEliminated(g: GameState) {
    Eliminated(g, Player) && Eliminated(g, Enemy)
  }

  lemma SwapVerdict(g: GameState)
    requires g.status == Playing
    ensures Verdict(Swap(g)) == StatusForRole(Verdict(g), Enemy) <==> !BothEliminated(g)
  {
    SwapEliminated(g, Player);
    SwapEliminated(g, Enemy);
    SwapCounts(g.territories, g.board.order, Player);
    SwapCounts(g.territories, g.board.order, Enemy);
  }

  /** A step treats both sides alike exactly when it does not leave both of them eliminated at once,
      which the code reads as a victory of the player. */
  lemma StepCommutesIff(g: GameState, acc: Accumulators, delta: real)
    ensures Step(Swap(g), acc, delta) == SwapPhase(Step(g, acc, delta))
       <==> g.status != Playing || !BothEliminated(Produced(g, acc, delta).g)
  {
    if g.status == Playing {
      SwapProduced(g, acc, delta);
      var h := Produced(g, acc, delta).g;
      SwapVerdict(h);
      assert Step(Swap(g), acc, delta) == Phase(Swap(h).(status := Verdict(Swap(h))), Produced(g, acc, delta).acc);
    }
  }

  lemma {:induction false} OwnedTowerCounts(territories: map<Id, Territory>, order: seq<Id>, id: Id)
    requires id in order && At(territories, id).owner != Neutral
    ensures TowersOf(territories, order, At(territories, id).owner) > 0
  {
    var front := order[..|order| - 1];
    assert order == front + [order[|order| - 1]];
    if id != order[|order| - 1] {
      OwnedTowerCounts(territories, front, id);
    }
  }

  /** As long as one tower is owned, a step treats both sides alike: owned towers never become
      neutral, so both sides cannot be eliminated in the same step. */
  lemma StepCommutes(g: GameState, acc: Accumulators, delta: real, id: Id)
    requires Good(g) && id in g.territories && g.territories[id].owner != Neutral
    ensures Step(Swap(g), acc, delta) == SwapPhase(Step(g, acc, delta))
  {
    StepCommutesIff(g, acc, delta);
    if g.status == Playing {
      StepKeeps(g, acc, delta);
      var h := Produced(g, acc, delta).g;
      assert h.territories == Step(g, acc, delta).g.territories && h.board == g.board;
      OwnedTowerCounts(h.territories, h.board.order, id);
    }
  }

  /** With no owned tower and no army left, both sides read a victory. */
  lemma EmptyBoardFavoursBoth(g: GameState, acc: Accumulators, delta: real)
    requires g.status == Playing && g.armies == [] && forall id :: id in g.territories ==>
      g.territories[id].owner == Neutral
    ensures Step(g, acc, delta).g.status == Victory && Step(Swap(g), acc, delta).g.status == Victory
  {
    SwapProduced(g, acc, delta);
    var m := Marched(g, acc, delta);
    NothingProduced(m.g, m.acc, delta, g.board.order);
    NobodyCounts(g.territories, g.board.order, Enemy);
    NobodyCounts(g.territories, g.board.order, Player);
    var h := Produced(g, acc, delta).g;
    assert !HasArmy(h.armies, Enemy) && !HasArmy(h.armies, Player);
    SwapEliminated(h, Player);
  }

  lemma {:induction false} NothingProduced(g: GameState, acc: Accumulators, delta: real, order: seq<Id>)
    requires forall id :: id in g.territories ==> g.territories[id].owner == Neutral
    ensures Produce(g, acc, delta, order).g == g
  {
    if order != [] {
      NothingProduced(g, acc, delta, order[..|order| - 1]);
    }
  }

  lemma {:induction false} NobodyCounts(territories: map<Id, Territory>, order: seq<Id>, team: Team)
    requires team != Neutral && forall id :: id in territories ==> territories[id].owner == Neutral
    ensures TowersOf(territories, order, team) == 0
  {
    if order != [] {
      NobodyCounts(territories, order[..|order| - 1], team);
    }
  }
}
