/** What every lane step keeps, and where every unit of a lane battle goes. */
module LaneLaws {
  import opened Text
  import opened World
  import opened Routes
  import opened BattleRules
  import opened BattleInvariants
  import opened Production
  import opened LaneRules

  // ----- One lane's emissions

  lemma {:induction false} EmitBounds(units: int, wait: real)
    requires wait <= EPSILON + EMIT_SECONDS
    ensures
      var b := Emit(units, wait);
      && 0.0 <= b.wait <= EMIT_SECONDS + EPSILON
      && b.sent as real * EMIT_SECONDS <= b.wait - wait
      && b.units == units - b.sent && (b.units < units ==> b.units >= 1)
    decreases units
  {
    if wait <= EPSILON && units > 2 {
      EmitBounds(units - 1, wait + EMIT_SECONDS);
    }
  }

  /** How many emissions are due when the wait has run down to `wait`. */
  function EmissionsDue(wait: real): nat {
    if wait > EPSILON then 0 else ((EPSILON - wait) / 0.2).Floor + 1
  }

  /** A burst sends what is due, as far as the source can spare it with one unit left. The wait for the
      next soldier runs on by 0.2 seconds for each one sent, but starts anew once nothing can be spared. */
  lemma {:induction false} EmitExact(units: int, wait: real)
    ensures
      var b, spare, due := Emit(units, wait), if units <= 1 then 0 else units - 1, EmissionsDue(wait);
      && b.sent == (if due < spare then due else spare) && b.units == units - b.sent
      && b.wait == if due == 0 then wait
         else if due < spare then wait + 0.2 * due as real
         else MaxReal(wait + 0.2 * Max(1, spare) as real, 0.2)
    decreases units
  {
    if wait <= EPSILON && units > 2 {
      EmitExact(units - 1, wait + EMIT_SECONDS);
      DueLess(wait);
    }
  }

  lemma DueLess(wait: real)
    requires wait <= EPSILON
    ensures EmissionsDue(wait) == 1 + EmissionsDue(wait + EMIT_SECONDS)
  {
    var x, y := (EPSILON - wait) / 0.2, (EPSILON - (wait + EMIT_SECONDS)) / 0.2;
    assert y == x - 1.0;
  }

  // ----- Several soldiers on one tower

  function LandedTimes(t: Territory, owner: Team, n: nat): Territory {
    if n == 0 then t else Landed(LandedTimes(t, owner, n - 1), owner)
  }

  /** Soldiers of one team: at home they fill the tower up to its capacity; elsewhere they remove a defender
      each, and the first one beyond the defenders takes the tower, which the others then fill. */
  lemma {:induction false} SoldiersLand(t: Territory, owner: Team, n: nat)
    requires 0 <= t.units <= t.maxUnits && 1 <= t.maxUnits
    ensures
      var r := LandedTimes(t, owner, n);
      if t.owner == owner then r == t.(units := Min(t.maxUnits, t.units + n))
      else if n <= t.units then r == t.(units := t.units - n)
      else r == t.(owner := owner, units := Min(t.maxUnits, n - t.units))
  {
    if n > 0 {
      SoldiersLand(t, owner, n - 1);
    }
  }

  // ----- Well-formed lane battles

  /** Capacities are positive and garrisons within them. */
  ghost predicate WithinCapacity(territories: map<Id, Territory>) {
    forall id :: id in territories ==>
      0 <= territories[id].units <= territories[id].maxUnits && 1 <= territories[id].maxUnits
  }

  /** Only owner and garrison of a tower change during a battle. */
  predicate SameTower(t: Territory, u: Territory) {
    u.(owner := t.owner, units := t.units) == t
  }

  ghost predicate SameTowers(a: map<Id, Territory>, b: map<Id, Territory>) {
    a.Keys == b.Keys && forall id :: id in a ==> SameTower(a[id], b[id])
  }

  /** A lane on a road path from its source to its target. */
  ghost predicate GoodLane(board: Board, towers: set<Id>, l: Lane) {
    && l.owner != Neutral && |l.route| >= 2 && l.route[0] == l.source && Last(l.route) == l.target
    && l.source != l.target && RoadPath(board, l.route) && (forall i :: 0 <= i < |l.route| ==> l.route[i] in towers)
    && 0.0 <= l.nextEmitIn <= EMIT_SECONDS + EPSILON
  }

  ghost predicate GoodLanes(board: Board, towers: set<Id>, lanes: seq<Lane>) {
    forall i :: 0 <= i < |lanes| ==> GoodLane(board, towers, lanes[i])
  }

  /** No two lanes share an id, or the same owner, source and target. */
  ghost predicate DistinctLanes(lanes: seq<Lane>) {
    forall i, j :: 0 <= i < j < |lanes| ==>
      lanes[i].id != lanes[j].id && !Runs(lanes[j], lanes[i].owner, lanes[i].source, lanes[i].target)
  }

  ghost predicate IdsBelow(lanes: seq<Lane>, next: nat) {
    forall i :: 0 <= i < |lanes| ==> lanes[i].id < next
  }

  ghost predicate SourcesOwned(territories: map<Id, Territory>, lanes: seq<Lane>) {
    forall i :: 0 <= i < |lanes| ==> At(territories, lanes[i].source).owner == lanes[i].owner
  }

  ghost predicate WithinPaths(g: GameState, lanes: seq<Lane>) {
    forall owner, source :: LanesFrom(lanes, owner, source) <= MaxLanes(g, source)
  }

  ghost predicate GoodSoldiers(towers: set<Id>, soldiers: seq<Soldier>) {
    forall i :: 0 <= i < |soldiers| ==> soldiers[i].owner != Neutral && soldiers[i].target in towers
  }

  ghost predicate GoodBattle(g: GameState) {
    GoodBoard(g) && WithinCapacity(g.territories) && g.armies == [] && UsesTacticalRules(g.rules)
  }

  /** The invariant of a lane battle. */
  ghost predicate GoodLaneState(g: GameState, s: LaneState) {
    && GoodBattle(g)
    && GoodLanes(g.board, g.territories.Keys, s.lanes) && DistinctLanes(s.lanes) && IdsBelow(s.lanes, s.nextLaneId)
    && SourcesOwned(g.territories, s.lanes) && WithinPaths(g, s.lanes) && GoodSoldiers(g.territories.Keys, s.soldiers)
  }

  // ----- The base step without armies

  lemma BaseStep(g: GameState, acc: Accumulators, delta: real)
    requires GoodBattle(g)
    ensures
      var h := Step(g, acc, delta).g;
      && GoodBattle(h) && h.board == g.board && h.rules == g.rules && SameTowers(g.territories, h.territories)
      && (forall id :: id in g.territories ==> h.territories[id].owner == g.territories[id].owner)
      && Garrisons(h.territories, g.board.order) == Garrisons(g.territories, g.board.order) + StepGrowth(g, acc, delta)
      && 0 <= StepGrowth(g, acc, delta)
  {
    hide Produce, Tick, AllGrown, Garrisons, Verdict;
    if g.status == Playing {
      var start := Phase(Tick(g, delta).(armies := []), acc);
      TickFrame(g, delta);
      assert Marched(g, acc, delta) == start;
      ProduceWithinCapacity(start.g, acc, delta, g.board.order);
      ProduceWritesTowers(start.g, acc, delta, g.board.order);
    } else {
      SameTowersReflexive(g.territories);
    }
  }

  lemma SameTowersReflexive(a: map<Id, Territory>)
    ensures SameTowers(a, a)
  {
  }

  lemma TickFrame(g: GameState, delta: real)
    ensures
      var h := Tick(g, delta);
      h.board == g.board && h.rules == g.rules && h.territories == g.territories && h.armies == g.armies
        && h.status == g.status
  {
  }

  lemma ProduceOneWithinCapacity(p: Phase, acc: Accumulators, delta: real, id: Id)
    requires GoodBoard(p.g) && WithinCapacity(p.g.territories)
    ensures
      var q := ProduceOne(p, acc, delta, id).g;
      && GoodBoard(q) && WithinCapacity(q.territories) && q.board == p.g.board
        && SameTowers(p.g.territories, q.territories)
      && (forall x :: x in q.territories ==> q.territories[x].owner == p.g.territories[x].owner)
      && 0 <= Grown(p, acc, delta, id)
      && Garrisons(q.territories, p.g.board.order) == Garrisons(p.g.territories, p.g.board.order) +
        Grown(p, acc, delta, id)
  {
    hide RecoveryMultiplier, Increment, ProduceTower, Garrisons;
    var t := At(p.g.territories, id);
    ProduceTowerBounds(t, Accumulated(acc, id), Increment(t, RecoveryMultiplier(p.g, id), delta));
    if id in p.g.territories {
      GarrisonsUpdate(p.g.territories, p.g.board.order, id, t.(units := ProduceAt(p.g, acc, delta, id).0));
    }
  }

  lemma {:induction false} ProduceWithinCapacity(g: GameState, acc: Accumulators, delta: real, order: seq<Id>)
    requires GoodBoard(g) && WithinCapacity(g.territories)
    ensures
      var q := Produce(g, acc, delta, order).g;
      && GoodBoard(q) && WithinCapacity(q.territories) && q.board == g.board && SameTowers(g.territories, q.territories)
      && (forall x :: x in q.territories ==> q.territories[x].owner == g.territories[x].owner)
      && 0 <= AllGrown(g, acc, delta, order)
      && Garrisons(q.territories, g.board.order) == Garrisons(g.territories, g.board.order) +
        AllGrown(g, acc, delta, order)
  {
    hide ProduceOne, Grown, Garrisons, GoodBoard;
    if order != [] {
      var front := order[..|order| - 1];
      ProduceWithinCapacity(g, acc, delta, front);
      ProduceOneWithinCapacity(Produce(g, acc, delta, front), acc, delta, order[|order| - 1]);
    }
  }

  // ----- Landings

  /** Soldiers lost at full friendly towers. */
  function Overflow(l: Landing, s: Soldier, delta: real): nat {
    if StillFlying(s, delta) || s.target !in l.territories then 0
    else
      var t := l.territories[s.target];
      if t.owner == s.owner && t.units >= t.maxUnits then 1 else 0
  }

  /** Duels: the soldier and one defender both fall. */
  function Duel(l: Landing, s: Soldier, delta: real): nat {
    if StillFlying(s, delta) || s.target !in l.territories then 0
    else
      var t := l.territories[s.target];
      if t.owner != s.owner && t.units > 0 then 1 else 0
  }

  function AllOverflow(l: Landing, soldiers: seq<Soldier>, delta: real): nat {
    if soldiers == [] then 0
    else
      var front := soldiers[..|soldiers| - 1];
      AllOverflow(l, front, delta) + Overflow(LandAll(l, front, delta), soldiers[|soldiers| - 1], delta)
  }

  function AllDuels(l: Landing, soldiers: seq<Soldier>, delta: real): nat {
    if soldiers == [] then 0
    else
      var front := soldiers[..|soldiers| - 1];
      AllDuels(l, front, delta) + Duel(LandAll(l, front, delta), soldiers[|soldiers| - 1], delta)
  }

  lemma LandKeeps(l: Landing, s: Soldier, delta: real, order: seq<Id>)
    requires WithinCapacity(l.territories) && GoodSoldiers(l.territories.Keys, l.flying)
    requires Simple(order) && s.target in l.territories && s.target in order && s.owner != Neutral
    ensures
      var r := Land(l, s, delta);
      && WithinCapacity(r.territories) && SameTowers(l.territories, r.territories)
        && GoodSoldiers(r.territories.Keys, r.flying)
      && Garrisons(r.territories, order) + |r.flying| ==
         Garrisons(l.territories, order) + |l.flying| + 1 - Overflow(l, s, delta) - 2 * Duel(l, s, delta)
  {
    if !StillFlying(s, delta) {
      GarrisonsUpdate(l.territories, order, s.target, Landed(l.territories[s.target], s.owner));
    }
  }

  lemma SameTowersChain(a: map<Id, Territory>, b: map<Id, Territory>, c: map<Id, Territory>)
    requires SameTowers(a, b) && SameTowers(b, c)
    ensures SameTowers(a, c)
  {
  }

  lemma {:induction false} LandAllKeeps(l: Landing, soldiers: seq<Soldier>, delta: real, order: seq<Id>)
    requires WithinCapacity(l.territories) && GoodSoldiers(l.territories.Keys, l.flying)
      && GoodSoldiers(l.territories.Keys, soldiers)
    requires Simple(order) && forall id :: id in order <==> id in l.territories
    ensures
      var r := LandAll(l, soldiers, delta);
      && WithinCapacity(r.territories) && SameTowers(l.territories, r.territories)
        && GoodSoldiers(r.territories.Keys, r.flying)
      && Garrisons(r.territories, order) + |r.flying| ==
         Garrisons(l.territories, order) + |l.flying| +
           |soldiers| - AllOverflow(l, soldiers, delta) - 2 * AllDuels(l, soldiers, delta)
  {
    hide Land, Garrisons, Overflow, Duel;
    if soldiers != [] {
      var front, s := soldiers[..|soldiers| - 1], soldiers[|soldiers| - 1];
      assert soldiers == front + [s];
      LandAllKeeps(l, front, delta, order);
      LandKeeps(LandAll(l, front, delta), s, delta, order);
      SameTowersChain(l.territories, LandAll(l, front, delta).territories, LandAll(l, soldiers, delta).territories);
    } else {
      SameTowersReflexive(l.territories);
    }
  }

  // ----- Emissions

  lemma {:induction false} RepeatKeeps(s: Soldier, n: nat, towers: set<Id>)
    requires s.owner != Neutral && s.target in towers
    ensures |Repeat(s, n)| == n && GoodSoldiers(towers, Repeat(s, n))
  {
    if n > 0 {
      RepeatKeeps(s, n - 1, towers);
    }
  }

  /** What the emission phase keeps of towers and soldiers. */
  ghost predicate Emitting(g: GameState, e: Emission) {
    && WithinCapacity(e.territories) && SameTowers(g.territories, e.territories)
    && GoodSoldiers(g.territories.Keys, e.emitted)
  }

  lemma EmitLaneKeeps(g: GameState, e: Emission, l: Lane, delta: real)
    requires GoodBoard(g) && Emitting(g, e) && GoodLane(g.board, g.territories.Keys, l) && 0.0 <= delta
    ensures
      var r := EmitLane(g.board, e, l, delta);
      && Emitting(g, r)
      && Garrisons(r.territories, g.board.order) + |r.emitted| == Garrisons(e.territories, g.board.order) + |e.emitted|
      && (forall id :: id in e.territories ==> r.territories[id].owner == e.territories[id].owner)
  {
    hide Emit, Repeat, NewSoldier, Garrisons, CountSent, RoadPath;
    var t := At(e.territories, l.source);
    assert l.route[0] in g.territories && l.route[|l.route| - 1] in g.territories;
    if t.owner == l.owner {
      var b := Emit(t.units, l.nextEmitIn - delta);
      EmitBounds(t.units, l.nextEmitIn - delta);
      NewSoldierFacts(g.board, l);
      RepeatKeeps(NewSoldier(g.board, l), b.sent, g.territories.Keys);
      GarrisonsUpdate(e.territories, g.board.order, l.source, t.(units := b.units));
    }
  }

  lemma NewSoldierFacts(b: Board, l: Lane)
    ensures NewSoldier(b, l).owner == l.owner && NewSoldier(b, l).target == l.target
  {
  }

  lemma {:induction false} EmitAllKeeps(g: GameState, e: Emission, lanes: seq<Lane>, delta: real)
    requires GoodBoard(g) && Emitting(g, e) && GoodLanes(g.board, g.territories.Keys, lanes) && 0.0 <= delta
    ensures
      var r := EmitAll(g.board, e, lanes, delta);
      && Emitting(g, r)
      && Garrisons(r.territories, g.board.order) + |r.emitted| == Garrisons(e.territories, g.board.order) + |e.emitted|
      && (forall id :: id in e.territories ==>
        id in r.territories && r.territories[id].owner == e.territories[id].owner)
  {
    hide EmitLane, Garrisons, GoodBoard, GoodLane, WithinCapacity;
    if lanes != [] {
      var front := lanes[..|lanes| - 1];
      EmitAllKeeps(g, e, front, delta);
      EmitLaneKeeps(g, EmitAll(g.board, e, front, delta), lanes[|lanes| - 1], delta);
    }
  }

  ghost predicate ComesFrom(lanes: seq<Lane>, l: Lane) {
    exists i :: 0 <= i < |lanes| && l.(nextEmitIn := lanes[i].nextEmitIn) == lanes[i]
  }

  /** The lanes left after emission come, in order, from the lanes before, with only the wait changed. */
  ghost predicate KeptLanes(board: Board, towers: set<Id>, owners: map<Id, Territory>, lanes: seq<Lane>,
    kept: seq<Lane>) {
    && GoodLanes(board, towers, kept) && DistinctLanes(kept) && SourcesOwned(owners, kept)
    && (forall k :: 0 <= k < |kept| ==> ComesFrom(lanes, kept[k]))
    && forall owner, source :: LanesFrom(kept, owner, source) <= LanesFrom(lanes, owner, source)
  }

  lemma LanesFromAppend(lanes: seq<Lane>, l: Lane, owner: Team, source: Id)
    ensures LanesFrom(lanes + [l], owner, source) == LanesFrom(lanes, owner, source) +
      (if l.owner == owner && l.source == source then 1 else 0)
  {
    assert (lanes + [l])[..|lanes|] == lanes;
  }

  lemma KeptAppend(board: Board, towers: set<Id>, owners: map<Id, Territory>, lanes: seq<Lane>, kept: seq<Lane>,
    l: Lane, wait: real)
    requires KeptLanes(board, towers, owners, lanes, kept) && DistinctLanes(lanes + [l])
    requires GoodLane(board, towers, l) && At(owners, l.source).owner == l.owner
      && 0.0 <= wait <= EMIT_SECONDS + EPSILON
    ensures KeptLanes(board, towers, owners, lanes + [l], kept + [l.(nextEmitIn := wait)])
  {
    hide LanesFrom;
    var all, more, m := lanes + [l], kept + [l.(nextEmitIn := wait)], l.(nextEmitIn := wait);
    forall k | 0 <= k < |more| ensures ComesFrom(all, more[k]) {
      if k < |kept| {
        var i :| 0 <= i < |lanes| && kept[k].(nextEmitIn := lanes[i].nextEmitIn) == lanes[i];
        assert all[i] == lanes[i];
      } else {
        assert all[|lanes|] == l;
      }
    }
    forall k | 0 <= k < |kept| ensures kept[k].id != m.id && !Runs(m, kept[k].owner, kept[k].source, kept[k].target) {
      var i :| 0 <= i < |lanes| && kept[k].(nextEmitIn := lanes[i].nextEmitIn) == lanes[i];
      assert all[i] == lanes[i] && all[|lanes|] == l;
    }
    forall owner, source ensures LanesFrom(more, owner, source) <= LanesFrom(all, owner, source) {
      LanesFromAppend(lanes, l, owner, source);
      LanesFromAppend(kept, m, owner, source);
    }
  }

  lemma KeptSkip(board: Board, towers: set<Id>, owners: map<Id, Territory>, lanes: seq<Lane>, kept: seq<Lane>, l: Lane)
    requires KeptLanes(board, towers, owners, lanes, kept)
    ensures KeptLanes(board, towers, owners, lanes + [l], kept)
  {
    hide LanesFrom;
    var all := lanes + [l];
    forall k | 0 <= k < |kept|
      ensures ComesFrom(all, kept[k])
    {
      var i :| 0 <= i < |lanes| && kept[k].(nextEmitIn := lanes[i].nextEmitIn) == lanes[i];
      assert all[i] == lanes[i];
    }
    forall owner, source ensures LanesFrom(kept, owner, source) <= LanesFrom(all, owner, source) {
      LanesFromAppend(lanes, l, owner, source);
    }
  }

  lemma {:induction false} EmitAllLanes(g: GameState, e: Emission, lanes: seq<Lane>, delta: real)
    requires GoodBoard(g) && Emitting(g, e) && e.lanes == [] && 0.0 <= delta
    requires GoodLanes(g.board, g.territories.Keys, lanes) && DistinctLanes(lanes)
    ensures KeptLanes(g.board, g.territories.Keys, e.territories, lanes, EmitAll(g.board, e, lanes, delta).lanes)
  {
    hide Emit, KeptLanes, GoodBoard, Emitting;
    if lanes == [] {
      NoneKept(g.board, g.territories.Keys, e.territories);
    } else {
      var front, l := lanes[..|lanes| - 1], lanes[|lanes| - 1];
      assert lanes == front + [l];
      EmitAllLanes(g, e, front, delta);
      EmitAllKeeps(g, e, front, delta);
      var before := EmitAll(g.board, e, front, delta);
      assert GoodLane(g.board, g.territories.Keys, l);
      assert l.route[0] in g.territories;
      EmittingTowers(g, e);
      var t := At(before.territories, l.source);
      assert t.owner == At(e.territories, l.source).owner;
      if t.owner == l.owner {
        EmitBounds(t.units, l.nextEmitIn - delta);
        KeptAppend(g.board, g.territories.Keys, e.territories, front, before.lanes, l,
          Emit(t.units, l.nextEmitIn - delta).wait);
      } else {
        KeptSkip(g.board, g.territories.Keys, e.territories, front, before.lanes, l);
      }
    }
  }

  lemma EmittingTowers(g: GameState, e: Emission)
    requires Emitting(g, e)
    ensures e.territories.Keys == g.territories.Keys
  {
  }

  lemma NoneKept(board: Board, towers: set<Id>, owners: map<Id, Territory>)
    ensures KeptLanes(board, towers, owners, [], [])
  {
  }
}
