/** What the lanes make of one step, said soldier by soldier and lane by lane. */
module LaneSteps {
  import opened Text
  import opened World
  import opened Routes
  import opened BattleRules
  import opened LaneRules
  import opened LaneLaws

  // ----- Soldiers in flight

  /** A soldier that needs more time flies on and needs that much less; any other lands: it fills its own
      tower up to capacity, removes a defender of another one, or takes an empty one for its side. */
  ghost predicate SoldierHandled(l: Landing, r: Landing, s: Soldier, delta: real) {
    if s.remaining > delta + EPSILON then r == l.(flying := l.flying + [s.(remaining := s.remaining - delta)])
    else if s.target !in l.territories then r == l
    else
      var before := l.territories[s.target];
      && r == l.(territories := l.territories[s.target := SoldierMet(before, s.owner)], stats := r.stats)
      && if before.owner == s.owner || before.units > 0 then r.stats == l.stats
         else if s.owner == Player then r.stats == l.stats.(playerCaptures := l.stats.playerCaptures + 1)
         else r.stats == l.stats.(enemyCaptures := l.stats.enemyCaptures + 1)
  }

  function SoldierMet(t: Territory, owner: Team): Territory {
    if t.owner == owner then t.(units := if t.units < t.maxUnits then t.units + 1 else t.maxUnits)
    else if t.units > 0 then t.(units := t.units - 1)
    else t.(owner := owner, units := 1)
  }

  ghost predicate Landings(p: Phase, soldiers: seq<Soldier>, delta: real, states: seq<Landing>) {
    && |states| == |soldiers| + 1 && states[0] == Landing(p.g.territories, p.g.stats, [])
    && forall i :: 0 <= i < |soldiers| ==> SoldierHandled(states[i], states[i + 1], soldiers[i], delta)
  }

  lemma LandingsAre(p: Phase, soldiers: seq<Soldier>, delta: real) returns (states: seq<Landing>)
    ensures Landings(p, soldiers, delta, states)
    ensures states[|soldiers|] == LandAll(Landing(p.g.territories, p.g.stats, []), soldiers, delta)
  {
    hide Land, SoldierHandled;
    var start := Landing(p.g.territories, p.g.stats, []);
    states := seq(|soldiers| + 1, i requires 0 <= i <= |soldiers| => LandAll(start, soldiers[..i], delta));
    forall i | 0 <= i < |soldiers| ensures SoldierHandled(states[i], states[i + 1], soldiers[i], delta) {
      assert soldiers[..i + 1][..i] == soldiers[..i];
      LandsSo(states[i], soldiers[i], delta);
    }
    assert soldiers[..|soldiers|] == soldiers;
  }

  lemma LandsSo(l: Landing, s: Soldier, delta: real)
    ensures SoldierHandled(l, Land(l, s, delta), s, delta)
  {
  }

  // ----- Soldiers that leave

  lemma {:induction false} LengthIs(b: Board, route: seq<Id>, i: nat)
    requires i < |route|
    ensures Length(b, route[..i + 1]) + RouteLengthFrom(b, route, i) == RouteLengthFrom(b, route, 0)
  {
    if i > 0 {
      LengthIs(b, route, i - 1);
      assert route[..i + 1][..i] == route[..i];
    }
  }

  lemma FlightIs(b: Board, route: seq<Id>)
    ensures RouteSeconds(b, route) == Length(b, route) / 140.0
  {
    if route != [] {
      LengthIs(b, route, |route| - 1);
      assert route[..|route|] == route;
    }
  }

  /** A lane whose source is lost ends. Any other one sends the soldiers that are due and can be spared,
      each for the length of the route at 140 a second. */
  ghost predicate LaneHandled(b: Board, e: Emission, r: Emission, l: Lane, delta: real) {
    var t, wait := At(e.territories, l.source), l.nextEmitIn - delta;
    if t.owner != l.owner then r == e
    else
      var spare, due: nat := if t.units <= 1 then 0 else t.units - 1, EmissionsDue(wait);
      var sent, seconds := if due < spare then due else spare, Length(b, l.route) / 140.0;
      && r.territories == e.territories[l.source := t.(units := t.units - sent)]
      && r.stats == (if l.owner == Player then e.stats.(playerSent := e.stats.playerSent + sent)
                     else e.stats.(enemySent := e.stats.enemySent + sent))
      && r.emitted == e.emitted + seq(sent, _ => Soldier(l.owner, l.target, l.route, seconds, seconds))
      && r.lanes == e.lanes + [l.(nextEmitIn :=
           if due == 0 then wait
           else if due < spare then wait + 0.2 * due as real
           else MaxReal(wait + 0.2 * Max(1, spare) as real, 0.2))]
  }

  ghost predicate Emissions(b: Board, l: Landing, lanes: seq<Lane>, delta: real, states: seq<Emission>) {
    && |states| == |lanes| + 1 && states[0] == Emission(l.territories, l.stats, [], [])
    && forall i :: 0 <= i < |lanes| ==> LaneHandled(b, states[i], states[i + 1], lanes[i], delta)
  }

  lemma {:induction false} RepeatIs(s: Soldier, n: nat)
    ensures Repeat(s, n) == seq(n, _ => s)
  {
    if n > 0 {
      RepeatIs(s, n - 1);
    }
  }

  lemma LaneSends(b: Board, e: Emission, l: Lane, delta: real)
    ensures LaneHandled(b, e, EmitLane(b, e, l, delta), l, delta)
  {
    hide Emit, RouteSeconds, Length, EmissionsDue, Repeat;
    var t := At(e.territories, l.source);
    EmitExact(t.units, l.nextEmitIn - delta);
    FlightIs(b, l.route);
    RepeatIs(NewSoldier(b, l), Emit(t.units, l.nextEmitIn - delta).sent);
  }

  lemma EmissionsAre(b: Board, l: Landing, lanes: seq<Lane>, delta: real) returns (states: seq<Emission>)
    ensures Emissions(b, l, lanes, delta, states)
    ensures states[|lanes|] == EmitAll(b, Emission(l.territories, l.stats, [], []), lanes, delta)
  {
    hide EmitLane, LaneHandled;
    var start := Emission(l.territories, l.stats, [], []);
    states := seq(|lanes| + 1, i requires 0 <= i <= |lanes| => EmitAll(b, start, lanes[..i], delta));
    forall i | 0 <= i < |lanes| ensures LaneHandled(b, states[i], states[i + 1], lanes[i], delta) {
      assert lanes[..i + 1][..i] == lanes[..i];
      LaneSends(b, states[i], lanes[i], delta);
    }
    assert lanes[..|lanes|] == lanes;
  }

  // ----- The step

  /** A side without a tower and without a soldier in flight. */
  ghost predicate Beaten(q: LanePhase, team: Team) {
    && (forall id :: id in q.p.g.territories ==> q.p.g.territories[id].owner != team)
    && forall s :: s in q.lanes.soldiers ==> s.owner != team
  }

  /** After the battle's own step, and unless that has decided it: the soldiers in flight, then the lanes,
      then the verdict, the enemy first. */
  ghost predicate LaneStepped(p: Phase, s: LaneState, delta: real, q: LanePhase) {
    if p.g.status != Playing then q == LanePhase(p, s)
    else
      && q.p.g.status == (if Beaten(q, Enemy) then Victory else if Beaten(q, Player) then Defeat else Playing)
      && exists landings: seq<Landing>, emissions: seq<Emission> ::
           && Landings(p, s.soldiers, delta, landings)
           && Emissions(p.g.board, landings[|s.soldiers|], s.lanes, delta, emissions)
           && var l, e := landings[|s.soldiers|], emissions[|s.lanes|];
              && q.lanes == LaneState(e.lanes, l.flying + e.emitted, s.nextLaneId)
              && q.p == p.(g := p.g.(territories := e.territories, stats := e.stats, status := q.p.g.status))
  }

  lemma BeatenIff(q: LanePhase, team: Team)
    ensures Beaten(q, team) <==> Towers(q.p.g.territories, team) == {} && !InFlight(q.lanes.soldiers, team)
  {
    if Beaten(q, team) {
      assert Towers(q.p.g.territories, team) == {};
    } else if id :| id in q.p.g.territories && q.p.g.territories[id].owner == team {
      assert id in Towers(q.p.g.territories, team);
    }
  }

  /** Every lane step is one. */
  lemma LaneStepIs(q: LanePhase, delta: real)
    ensures LaneStepped(Step(q.p.g, q.p.acc, delta), q.lanes, delta, LaneStep(q, delta))
  {
    hide Step, LandAll, EmitAll, SoldierHandled, LaneHandled, Beaten;
    var p := Step(q.p.g, q.p.acc, delta);
    if p.g.status == Playing {
      var landings := LandingsAre(p, q.lanes.soldiers, delta);
      var emissions := EmissionsAre(p.g.board, landings[|q.lanes.soldiers|], q.lanes.lanes, delta);
      BeatenIff(LaneStep(q, delta), Enemy);
      BeatenIff(LaneStep(q, delta), Player);
    }
  }
}
