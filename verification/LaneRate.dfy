/** How fast a lane streams, over whole runs of a lane battle. */
module LaneRate {
  import opened Text
  import opened World
  import opened DispatchRoute
  import opened BattleRules
  import opened TacticalRules
  import opened ReplayRules
  import opened LaneRules
  import opened LaneLaws
  import opened LanePlan
  import opened LaneBattle

  // ----- What one lane sends in one step

  function Sends(b: Board, e: Emission, l: Lane, delta: real): nat {
    var t := At(e.territories, l.source);
    if t.owner != l.owner then 0 else Emit(t.units, l.nextEmitIn - delta).sent
  }

  function SentByLane(b: Board, e: Emission, lanes: seq<Lane>, delta: real, id: nat): nat {
    if lanes == [] then 0
    else
      var front, last := lanes[..|lanes| - 1], lanes[|lanes| - 1];
      SentByLane(b, e, front, delta, id) + (if last.id == id then Sends(b, EmitAll(b, e, front, delta), last, delta)
        else 0)
  }

  function SentByAll(b: Board, e: Emission, lanes: seq<Lane>, delta: real): nat {
    if lanes == [] then 0
    else
      var front, last := lanes[..|lanes| - 1], lanes[|lanes| - 1];
      SentByAll(b, e, front, delta) + Sends(b, EmitAll(b, e, front, delta), last, delta)
  }

  lemma {:induction false} RepeatLength(s: Soldier, n: nat)
    ensures |Repeat(s, n)| == n
  {
    if n > 0 {
      RepeatLength(s, n - 1);
    }
  }

  /** The soldiers that leave in a step are those the lanes send. */
  lemma {:induction false} EmittedIsSent(b: Board, e: Emission, lanes: seq<Lane>, delta: real)
    ensures |EmitAll(b, e, lanes, delta).emitted| == |e.emitted| + SentByAll(b, e, lanes, delta)
  {
    hide Emit, NewSoldier, Repeat;
    if lanes != [] {
      var front, l := lanes[..|lanes| - 1], lanes[|lanes| - 1];
      EmittedIsSent(b, e, front, delta);
      RepeatLength(NewSoldier(b, l), Sends(b, EmitAll(b, e, front, delta), l, delta));
    }
  }

  ghost predicate Unnumbered(lanes: seq<Lane>, id: nat) {
    forall i :: 0 <= i < |lanes| ==> lanes[i].id != id
  }

  /** What a lane sent in a step is paid for by the time that passed and the change of its wait. */
  ghost predicate Paid(lanes: seq<Lane>, after: seq<Lane>, sent: nat, delta: real, id: nat) {
    && (Unnumbered(lanes, id) ==> sent == 0 && Unnumbered(after, id))
    && forall i, j :: 0 <= i < |lanes| && 0 <= j < |after| && lanes[i].id == id && after[j].id == id ==>
         sent as real * EMIT_SECONDS <= after[j].nextEmitIn - lanes[i].nextEmitIn + delta
  }

  ghost predicate Lost(lanes: seq<Lane>, after: seq<Lane>, sent: nat, id: nat) {
    Unnumbered(after, id) ==> sent == 0
  }

  lemma {:induction false} StepPaid(g: GameState, e: Emission, lanes: seq<Lane>, delta: real, id: nat)
    requires e.lanes == [] && 0.0 <= delta && GoodLanes(g.board, g.territories.Keys, lanes) && DistinctLanes(lanes)
    ensures
      var r := EmitAll(g.board, e, lanes, delta);
      var sent := SentByLane(g.board, e, lanes, delta, id);
      Paid(lanes, r.lanes, sent, delta, id) && Lost(lanes, r.lanes, sent, id)
  {
    hide Emit, GoodLane, NewSoldier, Repeat;
    if lanes != [] {
      var front, l := lanes[..|lanes| - 1], lanes[|lanes| - 1];
      assert lanes == front + [l];
      StepPaid(g, e, front, delta, id);
      var before := EmitAll(g.board, e, front, delta);
      var sent := SentByLane(g.board, e, front, delta, id);
      var t := At(before.territories, l.source);
      LaneWait(g, l);
      EmitBounds(t.units, l.nextEmitIn - delta);
      LastPaid(front, before.lanes, l, if t.owner == l.owner then [l.(nextEmitIn :=
        Emit(t.units, l.nextEmitIn - delta).wait)] else [],
               sent, Sends(g.board, before, l, delta), delta, id);
    }
  }

  lemma LaneWait(g: GameState, l: Lane)
    requires GoodLane(g.board, g.territories.Keys, l)
    ensures 0.0 <= l.nextEmitIn <= EMIT_SECONDS + EPSILON
  {
  }

  /** One more lane, which nobody before it shares its id with. */
  lemma LastPaid(front: seq<Lane>, kept: seq<Lane>, l: Lane, mine: seq<Lane>, sent: nat, more: nat, delta: real,
    id: nat)
    requires Paid(front, kept, sent, delta, id) && Lost(front, kept, sent, id) && DistinctLanes(front + [l])
    requires if mine == [] then more == 0
      else |mine| == 1 && mine[0].id == l.id && more as real * EMIT_SECONDS <= mine[0].nextEmitIn - l.nextEmitIn + delta
    ensures
      var total := sent + (if l.id == id then more else 0);
      Paid(front + [l], kept + mine, total, delta, id) && Lost(front + [l], kept + mine, total, id)
  {
    var lanes, after := front + [l], kept + mine;
    assert forall i :: 0 <= i < |front| ==> lanes[i] == front[i];
    assert lanes[|front|] == l;
    if l.id == id {
      forall i | 0 <= i < |front| ensures front[i].id != id {
        assert lanes[i].id != lanes[|front|].id;
      }
      assert Unnumbered(front, id);
    }
    if Unnumbered(after, id) {
      forall j | 0 <= j < |kept| ensures kept[j].id != id {
        assert after[j] == kept[j];
      }
      if mine != [] {
        assert after[|kept|] == mine[0];
      }
    }
  }

  // ----- Over a run

  function LaneStepSent(q: LanePhase, delta: real, id: nat): nat {
    var p := Step(q.p.g, q.p.acc, delta);
    if p.g.status != Playing then 0
    else
      var l := Arrivals(p, q.lanes, delta);
      SentByLane(p.g.board, Emission(l.territories, l.stats, [], []), q.lanes.lanes, delta, id)
  }

  function CommandSent(e: Engine, c: LaneCommand, id: nat): nat {
    if c.Advance? then LaneStepSent(e.q, c.delta, id) else 0
  }

  /** Soldiers the lane with this id has sent during a run. */
  ghost function SentInRun(e: Engine, d: Difficulty, commands: seq<LaneCommand>, id: nat): nat {
    if commands == [] then 0
    else
      var front := commands[..|commands| - 1];
      SentInRun(e, d, front, id) + CommandSent(Run(e, d, front), commands[|commands| - 1], id)
  }

  function Elapsed(commands: seq<LaneCommand>): real {
    if commands == [] then 0.0
    else
      var last := commands[|commands| - 1];
      Elapsed(commands[..|commands| - 1]) + (if last.Advance? then last.delta else 0.0)
  }

  /** A lane has sent no more than the time and its wait allow; an id not yet given out has sent nothing. */
  ghost predicate WithinRate(s: LaneState, sent: nat, time: real, id: nat) {
    && 0.0 <= time && sent as real * EMIT_SECONDS <= time + EMIT_SECONDS + EPSILON
    && (forall i :: 0 <= i < |s.lanes| && s.lanes[i].id == id ==>
      sent as real * EMIT_SECONDS <= time + s.lanes[i].nextEmitIn)
    && (id >= s.nextLaneId ==> sent == 0)
  }

  lemma RateAfterCut(s: LaneState, owner: Team, source: Id, target: Id, sent: nat, time: real, id: nat)
    requires WithinRate(s, sent, time, id)
    ensures WithinRate(CutLane(s, owner, source, target), sent, time, id)
  {
    hide Without;
    WithoutSubset(s.lanes, owner, source, target);
    var r := Without(s.lanes, owner, source, target);
    forall i | 0 <= i < |r| && r[i].id == id ensures sent as real * EMIT_SECONDS <= time + r[i].nextEmitIn {
      assert r[i] in r;
      var j :| 0 <= j < |s.lanes| && s.lanes[j] == r[i];
    }
  }

  lemma RateAfterOpen(g: GameState, s: LaneState, owner: Team, source: Id, target: Id, sent: nat, time: real, id: nat)
    requires WithinRate(s, sent, time, id)
    ensures WithinRate(OpenLane(g, s, owner, source, target), sent, time, id)
  {
    hide FindRoute, LanesFrom, HasLane, MaxLanes;
  }

  lemma {:induction false} RateAfterCuts(s: LaneState, team: Team, orders: seq<Order>, sent: nat, time: real, id: nat)
    requires WithinRate(s, sent, time, id)
    ensures WithinRate(CutAll(s, team, orders), sent, time, id)
  {
    hide WithinRate, CutLane;
    if orders != [] {
      var front, o := orders[..|orders| - 1], orders[|orders| - 1];
      RateAfterCuts(s, team, front, sent, time, id);
      RateAfterCut(CutAll(s, team, front), team, o.source, o.target, sent, time, id);
    }
  }

  lemma {:induction false} RateAfterOpens(g: GameState, s: LaneState, team: Team, orders: seq<Order>, sent: nat,
    time: real, id: nat)
    requires WithinRate(s, sent, time, id)
    ensures WithinRate(OpenAll(g, s, team, orders), sent, time, id)
  {
    hide WithinRate, OpenLane;
    if orders != [] {
      var front, o := orders[..|orders| - 1], orders[|orders| - 1];
      RateAfterOpens(g, s, team, front, sent, time, id);
      RateAfterOpen(g, OpenAll(g, s, team, front), team, o.source, o.target, sent, time, id);
    }
  }

  lemma PaidRate(s: LaneState, after: LaneState, sent: nat, more: nat, time: real, delta: real, id: nat)
    requires WithinRate(s, sent, time, id) && 0.0 <= delta && after.nextLaneId == s.nextLaneId
    requires Paid(s.lanes, after.lanes, more, delta, id) && Lost(s.lanes, after.lanes, more, id)
    requires IdsBelow(s.lanes, s.nextLaneId)
    requires forall j :: 0 <= j < |after.lanes| ==> after.lanes[j].nextEmitIn <= EMIT_SECONDS + EPSILON
    ensures WithinRate(after, sent + more, time + delta, id)
  {
    if Unnumbered(s.lanes, id) {
      assert more == 0;
    } else {
      var i :| 0 <= i < |s.lanes| && s.lanes[i].id == id;
      forall j | 0 <= j < |after.lanes| && after.lanes[j].id == id
        ensures (sent + more) as real * EMIT_SECONDS <= time + delta + after.lanes[j].nextEmitIn
      {
        assert more as real * EMIT_SECONDS <= after.lanes[j].nextEmitIn - s.lanes[i].nextEmitIn + delta;
      }
    }
  }

  lemma RateAfterStep(q: LanePhase, delta: real, sent: nat, time: real, id: nat)
    requires GoodLaneState(q.p.g, q.lanes) && 0.0 <= delta && WithinRate(q.lanes, sent, time, id)
    ensures WithinRate(LaneStep(q, delta).lanes, sent + LaneStepSent(q, delta, id), time + delta, id)
  {
    hide Step, Arrivals, LaneVerdict, EmitAll, SentByLane, GoodLane, WithinPaths, GoodSoldiers, GoodBattle, Paid, Lost;
    var p := Step(q.p.g, q.p.acc, delta);
    LaneStepKeeps(q, delta);
    BaseStep(q.p.g, q.p.acc, delta);
    WaitsBounded(LaneStep(q, delta));
    if p.g.status == Playing {
      var l := Arrivals(p, q.lanes, delta);
      SameTowerKeys(q.p.g.territories, p.g.territories);
      StepPaid(p.g, Emission(l.territories, l.stats, [], []), q.lanes.lanes, delta, id);
      PaidRate(q.lanes, LaneStep(q, delta).lanes, sent, LaneStepSent(q, delta, id), time, delta, id);
    } else {
      StillRate(q.lanes, sent, time, delta, id);
    }
  }

  lemma SameTowerKeys(a: map<Id, Territory>, b: map<Id, Territory>)
    requires SameTowers(a, b)
    ensures a.Keys == b.Keys
  {
  }

  lemma StillRate(s: LaneState, sent: nat, time: real, delta: real, id: nat)
    requires WithinRate(s, sent, time, id) && 0.0 <= delta
    ensures WithinRate(s, sent, time + delta, id)
  {
  }

  lemma WaitsBounded(q: LanePhase)
    requires GoodLaneState(q.p.g, q.lanes)
    ensures forall j :: 0 <= j < |q.lanes.lanes| ==> q.lanes.lanes[j].nextEmitIn <= EMIT_SECONDS + EPSILON
  {
    forall j | 0 <= j < |q.lanes.lanes| ensures q.lanes.lanes[j].nextEmitIn <= EMIT_SECONDS + EPSILON {
      assert GoodLane(q.p.g.board, q.p.g.territories.Keys, q.lanes.lanes[j]);
    }
  }

  lemma RateAfterCommand(e: Engine, d: Difficulty, c: LaneCommand, sent: nat, time: real, id: nat)
    requires GoodLaneState(e.q.p.g, e.q.lanes) && (c.Advance? ==> 0.0 <= c.delta)
      && WithinRate(e.q.lanes, sent, time, id)
    ensures WithinRate(Exec(e, d, c).q.lanes, sent + CommandSent(e, c, id), time +
      (if c.Advance? then c.delta else 0.0), id)
  {
    hide GoodLaneState, WithinRate, LaneStep, LaneStepSent, PlanLanes, CutAll, OpenAll, CutLane, OpenLane, SortedIds;
    match c
    case Advance(delta) =>
      RateAfterStep(e.q, delta, sent, time, id);
      var q := LaneStep(e.q, delta);
      var plan := PlanLanes(q.p.g, q.lanes, Enemy, SortedIds(q.p.g.territories.Keys));
      var more, later := sent + LaneStepSent(e.q, delta, id), time + delta;
      RateAfterCuts(q.lanes, Enemy, plan.cut, more, later, id);
      RateAfterOpens(q.p.g, CutAll(q.lanes, Enemy, plan.cut), Enemy, plan.open, more, later, id);
    case OpenOrder(source, target) => RateAfterOpen(e.q.p.g, e.q.lanes, Player, source, target, sent, time, id);
    case CutOrder(source, target) => RateAfterCut(e.q.lanes, Player, source, target, sent, time, id);
  }

  /** Over every run of steps, opens and cuts that lasts T seconds, no lane sends more than
      (T + 1e-9) / 0.2 + 1 soldiers, whatever its source held. */
  lemma {:induction false} LaneSendsAtRate(e: Engine, d: Difficulty, commands: seq<LaneCommand>, id: nat)
    requires GoodLaneState(e.q.p.g, e.q.lanes)
    requires forall i :: 0 <= i < |commands| && commands[i].Advance? ==> 0.0 <= commands[i].delta
    ensures WithinRate(Run(e, d, commands).q.lanes, SentInRun(e, d, commands, id), Elapsed(commands), id)
    ensures SentInRun(e, d, commands, id) as real <= (Elapsed(commands) + EPSILON) / EMIT_SECONDS + 1.0
  {
    hide GoodLaneState, Exec, CommandSent;
    if commands == [] {
      WaitsNonNegative(e.q);
    } else {
      var front, c := commands[..|commands| - 1], commands[|commands| - 1];
      LaneSendsAtRate(e, d, front, id);
      RunKeeps(e, d, front);
      RateAfterCommand(Run(e, d, front), d, c, SentInRun(e, d, front, id), Elapsed(front), id);
    }
    RateBound(SentInRun(e, d, commands, id), Elapsed(commands));
  }

  lemma RateBound(sent: nat, time: real)
    requires sent as real * EMIT_SECONDS <= time + EMIT_SECONDS + EPSILON
    ensures sent as real <= (time + EPSILON) / EMIT_SECONDS + 1.0
  {
  }

  lemma WaitsNonNegative(q: LanePhase)
    requires GoodLaneState(q.p.g, q.lanes)
    ensures forall j :: 0 <= j < |q.lanes.lanes| ==> 0.0 <= q.lanes.lanes[j].nextEmitIn
  {
    forall j | 0 <= j < |q.lanes.lanes| ensures 0.0 <= q.lanes.lanes[j].nextEmitIn {
      assert GoodLane(q.p.g.board, q.p.g.territories.Keys, q.lanes.lanes[j]);
    }
  }
}
