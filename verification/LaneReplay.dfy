/** The replay of a recorded lane battle: structural checks, the 20 ms clock, and what the ignored
    orders are worth. */
module LaneReplay {
  import opened Text
  import opened World
  import opened DispatchRoute
  import opened BattleRules
  import opened Production
  import opened ReplayRules
  import opened ReplayLaws
  import opened LaneRules
  import opened LaneLaws
  import opened LanePlan
  import opened LaneChoice
  import opened LaneBattle
  import opened LaneEngine

  datatype LaneKind = OpenKind | CutKind | UnknownKind

  datatype LaneAction = LaneAction(sequence: int, at: real, kind: LaneKind, source: Id, target: Id)

  datatype LaneError = TooManyOrders | BadSequence | BadKind | BadTime | BadTower

  // ----- Structural checks

  predicate OrderInTime(actions: seq<LaneAction>, i: nat)
    requires i < |actions|
  {
    && 0.0 <= actions[i].at <= TIME_LIMIT
    && (if i == 0 then 0.0 else actions[i - 1].at) <= actions[i].at
  }

  function FirstBadOrder(towers: set<Id>, actions: seq<LaneAction>, i: nat): Option<LaneError>
    requires i <= |actions|
    decreases |actions| - i
  {
    if i == |actions| then None
    else if actions[i].sequence != i then Some(BadSequence)
    else if actions[i].kind == UnknownKind then Some(BadKind)
    else if !OrderInTime(actions, i) then Some(BadTime)
    else if actions[i].source !in towers || actions[i].target !in towers then Some(BadTower)
    else FirstBadOrder(towers, actions, i + 1)
  }

  function BadRecord(towers: set<Id>, actions: seq<LaneAction>): Option<LaneError> {
    if |actions| > MAX_ACTIONS then Some(TooManyOrders) else FirstBadOrder(towers, actions, 0)
  }

  ghost predicate GoodOrder(towers: set<Id>, actions: seq<LaneAction>, i: nat)
    requires i < |actions|
  {
    && actions[i].sequence == i && actions[i].kind != UnknownKind && OrderInTime(actions, i)
    && actions[i].source in towers && actions[i].target in towers
  }

  lemma {:induction false} NoBadOrderFrom(towers: set<Id>, actions: seq<LaneAction>, i: nat)
    requires i <= |actions|
    ensures FirstBadOrder(towers, actions, i) == None <==> forall j :: i <= j < |actions| ==>
      GoodOrder(towers, actions, j)
    decreases |actions| - i
  {
    hide OrderInTime;
    if i < |actions| {
      NoBadOrderFrom(towers, actions, i + 1);
      assert FirstBadOrder(towers, actions, i) == None <==>
        GoodOrder(towers, actions, i) && FirstBadOrder(towers, actions, i + 1) == None;
    }
  }

  /** A record is replayed exactly when it has at most 120 orders, numbered in order, of known kinds,
      in time order, between towers of the battlefield. */
  lemma LaneRecordAccepted(towers: set<Id>, actions: seq<LaneAction>)
    ensures BadRecord(towers, actions) == None <==>
      |actions| <= MAX_ACTIONS && forall i :: 0 <= i < |actions| ==> GoodOrder(towers, actions, i)
  {
    NoBadOrderFrom(towers, actions, 0);
  }

  // ----- The clock

  datatype LaneClock = LaneClock(e: Engine, tick: int)

  function Game(c: LaneClock): GameState {
    c.e.q.p.g
  }

  ghost function RunTo(c: LaneClock, d: Difficulty, target: int): LaneClock
    decreases target - c.tick
  {
    if Game(c).status == Playing && c.tick < target then RunTo(LaneClock(EngineStep(c.e, d, TICK), c.tick + 1), d,
      target)
    else c
  }

  const LAST_TICK := 4505

  // ----- Orders

  /** Whether the order counts: the lane runs afterwards, or was there to be cut. */
  predicate Counts(e: Engine, a: LaneAction) {
    match a.kind
    case OpenKind =>
      At(e.q.p.g.territories, a.source).owner == Player && a.source != a.target
      && HasLane(PlayerOpen(e.q.p.g, e.q.lanes, a.source, a.target).lanes, Player, a.source, a.target)
    case _ => HasLane(e.q.lanes.lanes, Player, a.source, a.target)
  }

  function Ordered(e: Engine, a: LaneAction): Engine {
    match a.kind
    case OpenKind => e.(q := e.q.(lanes := PlayerOpen(e.q.p.g, e.q.lanes, a.source, a.target)))
    case _ => e.(q := e.q.(lanes := CutLane(e.q.lanes, Player, a.source, a.target)))
  }

  ghost function At20ms(c: LaneClock, d: Difficulty, a: LaneAction): LaneClock {
    RunTo(c, d, TargetTick(a.at))
  }

  ghost predicate Effective(c: LaneClock, d: Difficulty, a: LaneAction) {
    Game(At20ms(c, d, a)).status == Playing && Counts(At20ms(c, d, a).e, a)
  }

  ghost function PlayOrder(c: LaneClock, d: Difficulty, a: LaneAction): LaneClock {
    var r := At20ms(c, d, a);
    if Game(r).status == Playing then r.(e := Ordered(r.e, a)) else r
  }

  ghost function PlayOrders(c: LaneClock, d: Difficulty, actions: seq<LaneAction>): LaneClock
    decreases |actions|
  {
    if actions == [] then c else PlayOrders(PlayOrder(c, d, actions[0]), d, actions[1..])
  }

  ghost function Effects(c: LaneClock, d: Difficulty, actions: seq<LaneAction>): nat
    decreases |actions|
  {
    if actions == [] then 0
    else (if Effective(c, d, actions[0]) then 1 else 0) + Effects(PlayOrder(c, d, actions[0]), d, actions[1..])
  }

  function FirstClock(opening: GameState, d: Difficulty): LaneClock {
    LaneClock(Engine(LanePhase(Phase(opening, map[]), NO_LANES), BotStartSeconds(d)), 0)
  }

  ghost function ReplayedClock(opening: GameState, d: Difficulty, actions: seq<LaneAction>): LaneClock {
    RunTo(PlayOrders(FirstClock(opening, d), d, actions), d, LAST_TICK)
  }

  // ----- The replay keeps the invariant of a lane battle and always ends in a verdict

  ghost predicate GoodClock(c: LaneClock) {
    && GoodLaneState(Game(c), c.e.q.lanes) && 0 <= c.tick && Game(c).limit == TIME_LIMIT
    && Game(c).elapsed == c.tick as real * TICK && (Game(c).status == Playing ==> c.tick < 4500)
  }

  lemma LaneStepTime(q: LanePhase, delta: real)
    requires q.p.g.status == Playing
    ensures
      var h, k := LaneStep(q, delta).p.g, Step(q.p.g, q.p.acc, delta).g;
      && h.limit == q.p.g.limit && h.elapsed == k.elapsed && (k.status != Playing ==> h.status == k.status)
  {
    hide Step, Arrivals, Departures, LaneVerdict;
    StepFrame(q.p.g, q.p.acc, delta);
  }

  lemma EngineStepTime(e: Engine, d: Difficulty)
    requires GoodBattle(e.q.p.g) && e.q.p.g.status == Playing
    ensures
      var h := EngineStep(e, d, TICK).q.p.g;
      && h.limit == e.q.p.g.limit && h.elapsed == Tick(e.q.p.g, TICK).elapsed
        && (h.elapsed >= h.limit ==> h.status != Playing)
  {
    hide LaneStep, Step, Planned, Tick;
    LaneStepTime(e.q, TICK);
    StepFrame(e.q.p.g, e.q.p.acc, TICK);
  }

  lemma EngineStepGood(c: LaneClock, d: Difficulty)
    requires GoodClock(c) && Game(c).status == Playing
    ensures GoodClock(LaneClock(EngineStep(c.e, d, TICK), c.tick + 1))
  {
    hide EngineStep, GoodLanes, DistinctLanes, IdsBelow, SourcesOwned, WithinPaths, GoodSoldiers, OnGrid;
    EngineStepKeeps(c.e, d, TICK);
    EngineStepTime(c.e, d);
    GridTick(c.tick + 1);
    TickIsGrid(Game(c), TICK);
    assert Game(c).elapsed + TICK == (c.tick + 1) as real * TICK;
  }

  lemma {:induction false} RunToGood(c: LaneClock, d: Difficulty, target: int)
    requires GoodClock(c)
    ensures GoodClock(RunTo(c, d, target))
    ensures Game(RunTo(c, d, target)).status == Playing ==> RunTo(c, d, target).tick >= target
    decreases target - c.tick
  {
    hide GoodClock, EngineStep;
    if Game(c).status == Playing && c.tick < target {
      EngineStepGood(c, d);
      RunToGood(LaneClock(EngineStep(c.e, d, TICK), c.tick + 1), d, target);
    }
  }

  lemma {:induction false} RunExact(c: LaneClock, d: Difficulty, target: int)
    ensures
      var r := RunTo(c, d, target);
      Game(r).status == Playing ==> r.tick == Max(c.tick, target)
    decreases target - c.tick
  {
    hide EngineStep;
    if Game(c).status == Playing && c.tick < target {
      RunExact(LaneClock(EngineStep(c.e, d, TICK), c.tick + 1), d, target);
    }
  }

  /** A lane replay brought forward to a time shows it while it is undecided, less than one step behind and
      not ahead. */
  lemma RunShows(c: LaneClock, d: Difficulty, until: real)
    requires GoodClock(c) && Game(c).elapsed <= until
    ensures
      var r := RunTo(c, d, TargetTick(until));
      Game(r).status == Playing ==> until - 0.02 < Game(r).elapsed <= until + 0.00000000002
  {
    hide RunTo, TargetTick, GoodLaneState;
    RunToGood(c, d, TargetTick(until));
    RunExact(c, d, TargetTick(until));
    TickShows(until);
    assert c.tick as real * 0.02 <= until;
    assert c.tick <= TargetTick(until);
  }

  lemma PlayOrderGood(c: LaneClock, d: Difficulty, a: LaneAction)
    requires GoodClock(c)
    ensures GoodClock(PlayOrder(c, d, a))
  {
    hide RunTo, GoodLaneState, OpenLane, CutLane, TargetTick;
    RunToGood(c, d, TargetTick(a.at));
    var r := At20ms(c, d, a);
    OpenLaneKeeps(Game(r), r.e.q.lanes, Player, a.source, a.target);
    CutLaneKeeps(Game(r), r.e.q.lanes, Player, a.source, a.target);
  }

  lemma {:induction false} PlayOrdersGood(c: LaneClock, d: Difficulty, actions: seq<LaneAction>)
    requires GoodClock(c)
    ensures GoodClock(PlayOrders(c, d, actions))
    decreases |actions|
  {
    hide GoodClock, PlayOrder;
    if actions != [] {
      PlayOrderGood(c, d, actions[0]);
      PlayOrdersGood(PlayOrder(c, d, actions[0]), d, actions[1..]);
    }
  }

  /** A lane battle starts at time zero with the 90 second limit, without armies or lanes. */
  ghost predicate LaneOpening(opening: GameState) {
    GoodBattle(opening) && opening.elapsed == 0.0 && opening.limit == TIME_LIMIT
  }

  lemma FirstClockGood(opening: GameState, d: Difficulty)
    requires LaneOpening(opening)
    ensures GoodClock(FirstClock(opening, d))
  {
  }

  /** Whatever was recorded, the lane battle is decided when the replay ends: the draw the replay
      falls back to is never needed. */
  lemma LaneReplayDecides(opening: GameState, d: Difficulty, actions: seq<LaneAction>)
    requires LaneOpening(opening)
    ensures
      var c := ReplayedClock(opening, d, actions);
      Game(c).status != Playing && GoodLaneState(Game(c), c.e.q.lanes)
  {
    hide RunTo, PlayOrders, GoodLaneState;
    FirstClockGood(opening, d);
    PlayOrdersGood(FirstClock(opening, d), d, actions);
    RunToGood(PlayOrders(FirstClock(opening, d), d, actions), d, LAST_TICK);
  }

  // ----- Ignored orders might as well not have been recorded

  lemma IgnoredChangesNothing(e: Engine, a: LaneAction)
    requires !Counts(e, a)
    ensures Ordered(e, a) == e
  {
    hide FindRoute, LanesFrom, MaxLanes;
    var s := e.q.lanes;
    WithoutAll(s.lanes, Player, a.source, a.target);
    var added := NewLane(e.q.p.g, s, Player, a.source, a.target);
    if added.Some? {
      HasLaneAppend(s.lanes, added.value, Player, a.source, a.target);
    }
  }

  lemma {:induction false} RunToTwice(c: LaneClock, d: Difficulty, s: int, t: int)
    requires s <= t
    ensures RunTo(RunTo(c, d, s), d, t) == RunTo(c, d, t)
    decreases s - c.tick
  {
    hide EngineStep;
    if Game(c).status == Playing && c.tick < s {
      RunToTwice(LaneClock(EngineStep(c.e, d, TICK), c.tick + 1), d, s, t);
    }
  }

  ghost function Useful(c: LaneClock, d: Difficulty, actions: seq<LaneAction>): seq<LaneAction>
    decreases |actions|
  {
    if actions == [] then []
    else
      (if Effective(c, d, actions[0]) then [actions[0]] else []) +
      Useful(PlayOrder(c, d, actions[0]), d, actions[1..])
  }

  /** The orders come no earlier than tick `from`, in tick order, by the last tick. */
  ghost predicate InTickOrder(actions: seq<LaneAction>, from: int) {
    && from <= LAST_TICK
    && (forall i :: 0 <= i < |actions| ==> from <= TargetTick(actions[i].at) <= LAST_TICK)
    && forall i, j :: 0 <= i < j < |actions| ==> TargetTick(actions[i].at) <= TargetTick(actions[j].at)
  }

  lemma IneffectivePlay(c: LaneClock, d: Difficulty, a: LaneAction)
    requires !Effective(c, d, a)
    ensures PlayOrder(c, d, a) == At20ms(c, d, a)
  {
    hide RunTo, Ordered, Counts;
    var r := At20ms(c, d, a);
    if Game(r).status == Playing {
      IgnoredChangesNothing(r.e, a);
    }
  }

  /** `b` is behind `c`, which has been brought forward to `from`. */
  lemma {:induction false} UsefulFrom(c: LaneClock, b: LaneClock, d: Difficulty, from: int, actions: seq<LaneAction>)
    requires InTickOrder(actions, from) && (c == b || c == RunTo(b, d, from))
    ensures
      var useful := Useful(c, d, actions);
      && RunTo(PlayOrders(c, d, actions), d, LAST_TICK) == RunTo(PlayOrders(b, d, useful), d, LAST_TICK)
      && |useful| == Effects(c, d, actions) == Effects(b, d, useful)
    decreases |actions|
  {
    hide RunTo, Effective, TargetTick, PlayOrder;
    if actions == [] {
      RunToTwice(b, d, from, LAST_TICK);
    } else {
      var a, rest := actions[0], actions[1..];
      var tick := TargetTick(a.at);
      RunToTwice(b, d, from, tick);
      assert InTickOrder(rest, tick);
      var after := PlayOrder(c, d, a);
      var useful := Useful(after, d, rest);
      if Effective(c, d, a) {
        SameStart(c, b, d, a);
        UsefulFrom(after, after, d, tick, rest);
        assert ([a] + useful)[1..] == useful;
      } else {
        IneffectivePlay(c, d, a);
        UsefulFrom(after, b, d, tick, rest);
        assert [] + useful == useful;
      }
    }
  }

  lemma SameStart(c: LaneClock, b: LaneClock, d: Difficulty, a: LaneAction)
    requires RunTo(c, d, TargetTick(a.at)) == RunTo(b, d, TargetTick(a.at))
    ensures PlayOrder(c, d, a) == PlayOrder(b, d, a) && (Effective(c, d, a) <==> Effective(b, d, a))
  {
    hide RunTo, TargetTick;
  }

  lemma TicksAscend(actions: seq<LaneAction>)
    requires forall i :: 0 <= i < |actions| ==> OrderInTime(actions, i)
    ensures InTickOrder(actions, 0)
  {
    hide TargetTick;
    assert TargetTick(0.0) == 0 && TargetTick(TIME_LIMIT) <= LAST_TICK by { TickEnds(); }
    forall i | 0 <= i < |actions| ensures 0 <= TargetTick(actions[i].at) <= LAST_TICK {
      assert OrderInTime(actions, i);
      TargetTickMonotone(0.0, actions[i].at);
      TargetTickMonotone(actions[i].at, TIME_LIMIT);
    }
    forall i, j | 0 <= i < j < |actions| ensures TargetTick(actions[i].at) <= TargetTick(actions[j].at) {
      OrderTimesAscend(actions, i, j);
      TargetTickMonotone(actions[i].at, actions[j].at);
    }
  }

  lemma TickEnds()
    ensures TargetTick(0.0) == 0 && TargetTick(TIME_LIMIT) == 4500
  {
  }

  lemma {:induction false} OrderTimesAscend(actions: seq<LaneAction>, i: nat, j: nat)
    requires i <= j < |actions| && forall k :: 0 <= k < |actions| ==> OrderInTime(actions, k)
    ensures actions[i].at <= actions[j].at
    decreases j
  {
    if i < j {
      OrderTimesAscend(actions, i, j - 1);
      assert OrderInTime(actions, j);
    }
  }

  // ----- What recorded orders do

  /** The order counts: its lane already runs or may be opened from an own tower, or it runs and is cut. */
  ghost predicate OrderCounts(e: Engine, a: LaneAction) {
    if a.kind == OpenKind then
      && At(e.q.p.g.territories, a.source).owner == Player && a.source != a.target
      && (HasRunning(Player, e.q.lanes.lanes, a.source, a.target)
          || MayOpen(e.q.p.g, e.q.lanes.lanes, a.source, a.target))
    else HasRunning(Player, e.q.lanes.lanes, a.source, a.target)
  }

  /** The lanes afterwards are those before that do not run from the source to the target, in order. */
  ghost predicate Dropped(before: seq<Lane>, after: seq<Lane>, owner: Team, source: Id, target: Id) {
    exists kept: seq<nat> :: KeptAre(before, after, owner, source, target, kept)
  }

  ghost predicate KeptAre(before: seq<Lane>, after: seq<Lane>, owner: Team, source: Id, target: Id, kept: seq<nat>) {
    && |kept| == |after| && (forall i: nat :: i in kept <==> i < |before| && !Runs(before[i], owner, source, target))
    && (forall j :: 0 <= j < |kept| ==> kept[j] < |before| && after[j] == before[kept[j]])
    && forall j, k :: 0 <= j < k < |kept| ==> kept[j] < kept[k]
  }

  lemma {:induction false} WithoutKeepsOthers(lanes: seq<Lane>, owner: Team, source: Id, target: Id)
    returns (kept: seq<nat>)
    ensures KeptAre(lanes, Without(lanes, owner, source, target), owner, source, target, kept)
  {
    hide Runs, KeptAre;
    kept := [];
    if lanes == [] {
      KeptNone(owner, source, target);
      assert Without(lanes, owner, source, target) == [];
    } else {
      var front, last := lanes[..|lanes| - 1], lanes[|lanes| - 1];
      assert lanes == front + [last];
      kept := WithoutKeepsOthers(front, owner, source, target);
      KeptMore(front, last, Without(front, owner, source, target), owner, source, target, kept);
      kept := if Runs(last, owner, source, target) then kept else kept + [|front|];
      assert Without(lanes, owner, source, target) == Without(front, owner, source, target) +
        (if Runs(last, owner, source, target) then [] else [last]);
      assert Without(front, owner, source, target) + [] == Without(front, owner, source, target);
    }
  }

  lemma KeptNone(owner: Team, source: Id, target: Id)
    ensures KeptAre([], [], owner, source, target, [])
  {
  }

  lemma KeptMore(front: seq<Lane>, last: Lane, after: seq<Lane>, owner: Team, source: Id, target: Id, kept: seq<nat>)
    requires KeptAre(front, after, owner, source, target, kept)
    ensures if Runs(last, owner, source, target) then KeptAre(front + [last], after, owner, source, target, kept)
      else KeptAre(front + [last], after + [last], owner, source, target, kept + [|front|])
  {
    hide Runs;
    var before := front + [last];
    assert forall i :: 0 <= i < |front| ==> before[i] == front[i];
    assert before[|front|] == last;
    assert forall j :: 0 <= j < |kept| ==> kept[j] in kept;
    if !Runs(last, owner, source, target) {
      var more := kept + [|front|];
      forall i: nat ensures i in more <==> i < |before| && !Runs(before[i], owner, source, target) {
        assert i in more <==> i in kept || i == |front|;
      }
    }
  }

  /** What an order makes of the lanes: one new lane with the next id if it may be opened, one lane less if
      it runs, and nothing else. */
  ghost predicate OrderDone(e: Engine, f: Engine, a: LaneAction) {
    var g, s, t := e.q.p.g, e.q.lanes, f.q.lanes;
    && f == e.(q := e.q.(lanes := t))
    && if a.kind == OpenKind then
         if MayOpen(g, s.lanes, a.source, a.target) then
           t == s.(lanes := s.lanes + [Lane(s.nextLaneId, Player, a.source, a.target,
             FindRoute(g, a.source, a.target, Player).value, 0.0)], nextLaneId := s.nextLaneId + 1)
         else t == s
       else t == s.(lanes := t.lanes) && Dropped(s.lanes, t.lanes, Player, a.source, a.target)
  }

  lemma OrderIff(e: Engine, a: LaneAction)
    ensures Counts(e, a) <==> OrderCounts(e, a)
    ensures OrderDone(e, Ordered(e, a), a)
  {
    hide FindRoute, MayOpen;
    RunningIff(e.q.lanes.lanes, a.source, a.target);
    if a.kind == OpenKind {
      OpenIff(e.q.p.g, e.q.lanes, a.source, a.target);
      RunningIff(PlayerOpen(e.q.p.g, e.q.lanes, a.source, a.target).lanes, a.source, a.target);
      OpenRuns(e.q.p.g, e.q.lanes, a.source, a.target);
    } else {
      var kept := WithoutKeepsOthers(e.q.lanes.lanes, Player, a.source, a.target);
    }
  }

  lemma RunningIff(lanes: seq<Lane>, source: Id, target: Id)
    ensures HasRunning(Player, lanes, source, target) <==> HasLane(lanes, Player, source, target)
  {
  }

  lemma OpenRuns(g: GameState, s: LaneState, source: Id, target: Id)
    ensures
      var lanes := PlayerOpen(g, s, source, target).lanes;
      HasLane(lanes, Player, source, target) <==>
        HasLane(s.lanes, Player, source, target) || MayOpen(g, s.lanes, source, target)
  {
    hide FindRoute;
    OpenIff(g, s, source, target);
    if MayOpen(g, s.lanes, source, target) {
      HasLaneAppend(s.lanes, PlayerOpen(g, s, source, target).lanes[|s.lanes|], Player, source, target);
    }
  }

  /** From one state of the replay to the next: the engine runs to the tick of the order, which is then
      carried out if the battle is undecided. */
  ghost predicate OrderPlayed(c: LaneClock, f: LaneClock, d: Difficulty, a: LaneAction) {
    var at := RunTo(c, d, TargetTick(a.at));
    f.tick == at.tick && if Game(at).status == Playing then OrderDone(at.e, f.e, a) else f == at
  }

  /** A history of the replay: its states before and after each order. */
  ghost predicate OrderHistory(d: Difficulty, actions: seq<LaneAction>, states: seq<LaneClock>) {
    |states| == |actions| + 1
    && forall i :: 0 <= i < |actions| ==> OrderPlayed(states[i], states[i + 1], d, actions[i])
  }

  /** How many orders of a history count. */
  ghost function OrdersCounted(d: Difficulty, actions: seq<LaneAction>, states: seq<LaneClock>): nat
    requires |states| == |actions| + 1
    decreases |actions|
  {
    if actions == [] then 0
    else
      var at := RunTo(states[0], d, TargetTick(actions[0].at));
      (if Game(at).status == Playing && OrderCounts(at.e, actions[0]) then 1 else 0)
      + OrdersCounted(d, actions[1..], states[1..])
  }

  ghost predicate OrderedFrom(c: LaneClock, d: Difficulty, actions: seq<LaneAction>, f: LaneClock, count: nat) {
    exists states :: OrderHistory(d, actions, states) && states[0] == c && states[|actions|] == f
      && count == OrdersCounted(d, actions, states)
  }

  lemma OrderPlays(c: LaneClock, d: Difficulty, a: LaneAction)
    ensures OrderPlayed(c, PlayOrder(c, d, a), d, a)
    ensures
      var at := RunTo(c, d, TargetTick(a.at));
      Effective(c, d, a) <==> Game(at).status == Playing && OrderCounts(at.e, a)
  {
    hide RunTo, TargetTick, Ordered, Counts, OrderCounts, OrderDone;
    OrderIff(At20ms(c, d, a).e, a);
  }

  /** Every replay of orders has such a history. */
  lemma {:induction false} LaneHistory(c: LaneClock, d: Difficulty, actions: seq<LaneAction>)
    ensures OrderedFrom(c, d, actions, PlayOrders(c, d, actions), Effects(c, d, actions))
    decreases |actions|
  {
    hide PlayOrder, Effective, OrderPlayed, OrderCounts, RunTo, TargetTick;
    if actions == [] {
      assert OrderHistory(d, actions, [c]);
    } else {
      var next, rest := PlayOrder(c, d, actions[0]), actions[1..];
      OrderPlays(c, d, actions[0]);
      LaneHistory(next, d, rest);
      var later :| OrderHistory(d, rest, later) && later[0] == next && later[|rest|] == PlayOrders(next, d, rest)
        && Effects(next, d, rest) == OrdersCounted(d, rest, later);
      var states := [c] + later;
      assert states[1..] == later;
      forall i | 0 <= i < |actions| ensures OrderPlayed(states[i], states[i + 1], d, actions[i]) {
        if i > 0 {
          assert rest[i - 1] == actions[i] && later[i - 1] == states[i] && later[i] == states[i + 1];
        }
      }
      assert OrderHistory(d, actions, states);
    }
  }

  // ----- Renumbering the orders that are left

  function Numbered(actions: seq<LaneAction>): (r: seq<LaneAction>)
    ensures |r| == |actions|
  {
    seq(|actions|, i requires 0 <= i < |actions| => actions[i].(sequence := i))
  }

  ghost predicate SameLaneOrders(x: seq<LaneAction>, y: seq<LaneAction>) {
    |x| == |y| && forall i :: 0 <= i < |x| ==> x[i].(sequence := 0) == y[i].(sequence := 0)
  }

  lemma {:induction false} LaneNumbersDontMatter(c: LaneClock, d: Difficulty, x: seq<LaneAction>, y: seq<LaneAction>)
    requires SameLaneOrders(x, y)
    ensures PlayOrders(c, d, x) == PlayOrders(c, d, y) && Effects(c, d, x) == Effects(c, d, y)
    decreases |x|
  {
    hide Effective, PlayOrder;
    if x != [] {
      SameOrderPlayed(c, d, x[0], y[0]);
      LaneNumbersDontMatter(PlayOrder(c, d, x[0]), d, x[1..], y[1..]);
    }
  }

  lemma SameOrderPlayed(c: LaneClock, d: Difficulty, a: LaneAction, b: LaneAction)
    requires a.(sequence := 0) == b.(sequence := 0)
    ensures PlayOrder(c, d, a) == PlayOrder(c, d, b) && (Effective(c, d, a) <==> Effective(c, d, b))
  {
    hide RunTo, PlayerOpen, CutLane, HasLane, TargetTick;
  }

  /** Orders of known kinds between towers, in time order from `from` on. */
  ghost predicate OrdersFrom(towers: set<Id>, actions: seq<LaneAction>, from: real) {
    && (forall i :: 0 <= i < |actions| ==>
          && from <= actions[i].at <= TIME_LIMIT && actions[i].kind != UnknownKind
          && actions[i].source in towers && actions[i].target in towers)
    && forall i, j :: 0 <= i < j < |actions| ==> actions[i].at <= actions[j].at
  }

  lemma {:induction false} UsefulInOrder(c: LaneClock, d: Difficulty, towers: set<Id>, actions: seq<LaneAction>,
    from: real)
    requires OrdersFrom(towers, actions, from)
    ensures |Useful(c, d, actions)| <= |actions| && OrdersFrom(towers, Useful(c, d, actions), from)
    decreases |actions|
  {
    hide PlayOrder, Effective;
    if actions != [] {
      var a := actions[0];
      assert OrdersFrom(towers, actions[1..], a.at);
      UsefulInOrder(PlayOrder(c, d, a), d, towers, actions[1..], a.at);
    }
  }

  lemma NumberedAccepted(towers: set<Id>, actions: seq<LaneAction>)
    requires |actions| <= MAX_ACTIONS && OrdersFrom(towers, actions, 0.0)
    ensures BadRecord(towers, Numbered(actions)) == None
  {
    LaneRecordAccepted(towers, Numbered(actions));
  }

  lemma AcceptedInOrder(towers: set<Id>, actions: seq<LaneAction>)
    requires BadRecord(towers, actions) == None
    ensures |actions| <= MAX_ACTIONS && OrdersFrom(towers, actions, 0.0)
    ensures forall i :: 0 <= i < |actions| ==> OrderInTime(actions, i)
  {
    LaneRecordAccepted(towers, actions);
    forall i | 0 <= i < |actions|
      ensures OrderInTime(actions, i) && 0.0 <= actions[i].at <= TIME_LIMIT && actions[i].kind != UnknownKind
      ensures actions[i].source in towers && actions[i].target in towers
    {
      assert GoodOrder(towers, actions, i);
    }
    forall i, j | 0 <= i < j < |actions| ensures actions[i].at <= actions[j].at {
      OrderTimesAscend(actions, i, j);
    }
  }

  /** Deleting every order that did not count and renumbering the rest gives an accepted record with
      the same final battle, in which every order counts. */
  lemma PrunedLaneReplaySame(opening: GameState, d: Difficulty, actions: seq<LaneAction>)
    requires BadRecord(opening.territories.Keys, actions) == None
    ensures
      var pruned := Numbered(Useful(FirstClock(opening, d), d, actions));
      && BadRecord(opening.territories.Keys, pruned) == None
      && ReplayedClock(opening, d, pruned) == ReplayedClock(opening, d, actions)
      && Effects(FirstClock(opening, d), d, pruned) == |pruned| == Effects(FirstClock(opening, d), d, actions)
  {
    hide RunTo, PlayOrders, Useful, Effects, OrdersFrom, OrderInTime, InTickOrder;
    var towers, start := opening.territories.Keys, FirstClock(opening, d);
    AcceptedInOrder(towers, actions);
    TicksAscend(actions);
    UsefulFrom(start, start, d, 0, actions);
    UsefulInOrder(start, d, towers, actions, 0.0);
    var useful := Useful(start, d, actions);
    NumberedAccepted(towers, useful);
    LaneNumbersDontMatter(start, d, useful, Numbered(useful));
  }

  // ----- The loops

  method ValidateLaneActions(towers: set<Id>, actions: seq<LaneAction>) returns (error: Option<LaneError>)
    ensures error == BadRecord(towers, actions)
  {
    if |actions| > MAX_ACTIONS {
      return Some(TooManyOrders);
    }
    var previous := 0.0;
    for i := 0 to |actions|
      invariant previous == if i == 0 then 0.0 else actions[i - 1].at
      invariant FirstBadOrder(towers, actions, i) == FirstBadOrder(towers, actions, 0)
    {
      var a := actions[i];
      if a.sequence != i {
        return Some(BadSequence);
      }
      if a.kind != OpenKind && a.kind != CutKind {
        return Some(BadKind);
      }
      if a.at < 0.0 || a.at > TIME_LIMIT || a.at < previous {
        return Some(BadTime);
      }
      if a.source !in towers {
        return Some(BadTower);
      }
      if a.target !in towers {
        return Some(BadTower);
      }
      previous := a.at;
    }
    return None;
  }

  method StepToTick(engine: LaneEngine, tick: int, target: int) returns (reached: int)
    modifies engine, engine.battle
    ensures LaneClock(engine.Now(), reached) == RunTo(LaneClock(old(engine.Now()), tick), engine.difficulty, target)
  {
    hide EngineStep;
    reached := tick;
    while engine.battle.status == Playing && reached < target
      invariant RunTo(LaneClock(engine.Now(), reached), engine.difficulty, target) ==
                RunTo(LaneClock(old(engine.Now()), tick), engine.difficulty, target)
      decreases target - reached
    {
      engine.Step(TICK);
      reached := reached + 1;
    }
  }

  method ApplyOrder(engine: LaneEngine, a: LaneAction) returns (applied: bool)
    modifies engine`lanes
    ensures engine.Now() == Ordered(old(engine.Now()), a) && applied == Counts(old(engine.Now()), a)
  {
    hide HasLane, OpenLane, CutLane;
    if a.kind == OpenKind {
      applied := engine.Open(a.source, a.target);
    } else {
      applied := engine.Cut(a.source, a.target);
    }
  }

  lemma {:induction false} DecidedOrders(c: LaneClock, d: Difficulty, actions: seq<LaneAction>)
    requires Game(c).status != Playing
    ensures PlayOrders(c, d, actions) == c && Effects(c, d, actions) == 0
    decreases |actions|
  {
    hide EngineStep, Ordered;
    if actions != [] {
      DecidedOrders(c, d, actions[1..]);
    }
  }

  /** The record is rejected for its first structural violation; otherwise the battle is replayed. */
  method ReplayLaneBattle(opening: GameState, difficulty: Difficulty, actions: seq<LaneAction>)
    returns (r: Result<(GameState, nat), LaneError>)
    ensures match BadRecord(opening.territories.Keys, actions)
            case Some(e) => r == Err(e)
            case None => r == Ok((Game(ReplayedClock(opening, difficulty, actions)),
                                  Effects(FirstClock(opening, difficulty), difficulty, actions)))
    ensures r.Ok? ==> exists last ::
      && OrderedFrom(FirstClock(opening, difficulty), difficulty, actions, last, r.value.1)
      && r.value.0 == Game(RunTo(last, difficulty, LAST_TICK))
  {
    hide RunTo, TargetTick, Ordered, Counts, OrderedFrom;
    LaneHistory(FirstClock(opening, difficulty), difficulty, actions);
    var error := ValidateLaneActions(opening.territories.Keys, actions);
    if error.Some? {
      return Err(error.value);
    }
    ghost var first := FirstClock(opening, difficulty);
    var engine := new LaneEngine(difficulty, opening);
    var tick, processed: nat := 0, 0;
    for i := 0 to |actions|
      invariant fresh(engine) && fresh(engine.battle) && engine.difficulty == difficulty
      invariant PlayOrders(LaneClock(engine.Now(), tick), difficulty, actions[i..]) ==
        PlayOrders(first, difficulty, actions)
      invariant processed + Effects(LaneClock(engine.Now(), tick), difficulty, actions[i..]) ==
        Effects(first, difficulty, actions)
    {
      assert actions[i..][1..] == actions[i + 1..];
      ghost var before := LaneClock(engine.Now(), tick);
      tick := StepToTick(engine, tick, TargetTick(actions[i].at));
      if engine.battle.status != Playing {
        DecidedOrders(LaneClock(engine.Now(), tick), difficulty, actions[i + 1..]);
        break;
      }
      var applied := ApplyOrder(engine, actions[i]);
      if applied {
        processed := processed + 1;
      }
    }
    tick := StepToTick(engine, tick, LAST_TICK);
    return Ok((engine.battle.View(), processed));
  }

  // ----- When the bot plans

  function BotStart(d: Difficulty): real {
    match d
    case Easy => 10.0
    case Normal => 8.0
    case Hard => 2.0
  }

  function BotPeriod(d: Difficulty): real {
    match d
    case Easy => 8.0
    case Normal => 6.0
    case Hard => 4.5
  }

  /** The bot has planned `n` times: at its start and every period since, and has nothing due. */
  ghost predicate BotPlanned(c: LaneClock, d: Difficulty, n: nat) {
    && c.e.nextBot == BotStart(d) + n as real * BotPeriod(d)
    && (n > 0 ==> c.e.nextBot - BotPeriod(d) - EPSILON <= Game(c).elapsed)
    && (Game(c).status == Playing ==> Game(c).elapsed < c.e.nextBot - EPSILON)
  }

  ghost predicate BotOnTime(c: LaneClock, d: Difficulty) {
    exists n: nat :: BotPlanned(c, d, n)
  }

  lemma EngineStepOnTime(c: LaneClock, d: Difficulty)
    requires GoodClock(c) && Game(c).status == Playing && BotOnTime(c, d)
    ensures BotOnTime(LaneClock(EngineStep(c.e, d, TICK), c.tick + 1), d)
  {
    hide LaneStep, Planned, OnGrid, GoodLaneState;
    var n: nat :| BotPlanned(c, d, n);
    var q, next := LaneStep(c.e.q, TICK), LaneClock(EngineStep(c.e, d, TICK), c.tick + 1);
    EngineStepGood(c, d);
    assert Game(next).elapsed == Game(c).elapsed + TICK by { assert (c.tick + 1) as real * TICK ==
      c.tick as real * TICK + TICK; }
    if BotDue(q, c.e.nextBot) {
      assert (n + 1) as real * BotPeriod(d) == n as real * BotPeriod(d) + BotPeriod(d);
      assert BotPlanned(next, d, n + 1);
    } else {
      assert BotPlanned(next, d, n);
    }
  }

  lemma {:induction false} RunToOnTime(c: LaneClock, d: Difficulty, target: int)
    requires GoodClock(c) && BotOnTime(c, d)
    ensures BotOnTime(RunTo(c, d, target), d)
    decreases target - c.tick
  {
    hide GoodClock, EngineStep, BotOnTime;
    if Game(c).status == Playing && c.tick < target {
      EngineStepGood(c, d);
      EngineStepOnTime(c, d);
      RunToOnTime(LaneClock(EngineStep(c.e, d, TICK), c.tick + 1), d, target);
    }
  }

  /** Whatever the player orders, the bot of a lane replay plans first after 10, 8 or 2 seconds and then
      every 8, 6 or 4.5, as its difficulty has it. */
  lemma {:induction false} BotPlansOnTime(c: LaneClock, d: Difficulty, actions: seq<LaneAction>)
    requires GoodClock(c) && BotOnTime(c, d)
    ensures BotOnTime(PlayOrders(c, d, actions), d)
    decreases |actions|
  {
    hide GoodClock, RunTo, BotPlanned;
    if actions != [] {
      var r := At20ms(c, d, actions[0]);
      RunToOnTime(c, d, TargetTick(actions[0].at));
      RunToGood(c, d, TargetTick(actions[0].at));
      PlayOrderGood(c, d, actions[0]);
      OrderKeepsSchedule(r, d, actions[0]);
      BotPlansOnTime(PlayOrder(c, d, actions[0]), d, actions[1..]);
    }
  }

  lemma OrderKeepsSchedule(c: LaneClock, d: Difficulty, a: LaneAction)
    requires BotOnTime(c, d)
    ensures BotOnTime(c.(e := Ordered(c.e, a)), d)
  {
    hide PlayerOpen, CutLane;
    var n: nat :| BotPlanned(c, d, n);
    assert BotPlanned(c.(e := Ordered(c.e, a)), d, n);
  }

  lemma FirstOnTime(opening: GameState, d: Difficulty)
    requires LaneOpening(opening)
    ensures BotOnTime(FirstClock(opening, d), d)
  {
    assert BotPlanned(FirstClock(opening, d), d, 0);
  }
}
