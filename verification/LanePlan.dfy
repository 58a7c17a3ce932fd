/** The bot's lane planner: which lanes to cut and which to open, and why every such order can be
    carried out. */
module LanePlan {
  import opened Text
  import opened Sorting
  import opened World
  import opened Routes
  import opened DispatchRoute
  import opened BattleRules
  import opened TacticalRules
  import opened LaneRules
  import opened LaneLaws

  const EMIT_RATE := 5.0
  const RESCUE_MAX_HOLD := 8

  datatype Order = Order(source: Id, target: Id)

  function Regeneration(t: Territory): real {
    if t.owner == Neutral then 0.0 else t.productionRate * ProductionMultiplier(t.kind)
  }

  // ----- Cuts

  /** The lane has done its work, or cannot win. */
  predicate ShouldCut(g: GameState, team: Team, l: Lane) {
    && l.owner == team && l.target in g.territories && l.source in g.territories
    && var t := g.territories[l.target];
       || (t.owner == team && t.units >= Min(t.maxUnits - 1, 14))
       || (t.owner != team && EMIT_RATE <= Regeneration(t) + 0.1)
  }

  function Cuts(g: GameState, team: Team, lanes: seq<Lane>): seq<Order> {
    if lanes == [] then []
    else
      var last := lanes[|lanes| - 1];
      Cuts(g, team, lanes[..|lanes| - 1]) + (if ShouldCut(g, team, last) then [Order(last.source, last.target)] else [])
  }

  /** The team's lanes that are not cut. */
  function Active(team: Team, cuts: seq<Order>, lanes: seq<Lane>): seq<Lane> {
    if lanes == [] then []
    else
      var last := lanes[|lanes| - 1];
      Active(team, cuts, lanes[..|lanes| - 1]) +
      (if last.owner == team && Order(last.source, last.target) !in cuts then [last] else [])
  }

  // ----- Opens

  function AttackedBy(team: Team, lanes: seq<Lane>, target: Id): nat {
    if lanes == [] then 0
    else
      var last := lanes[|lanes| - 1];
      AttackedBy(team, lanes[..|lanes| - 1], target) + (if last.owner != team && last.target == target then 1 else 0)
  }

  function Targeted(active: seq<Lane>, target: Id): nat {
    if active == [] then 0
    else Targeted(active[..|active| - 1], target) + (if active[|active| - 1].target == target then 1 else 0)
  }

  /** The situation the planner looks at. */
  datatype Scene = Scene(g: GameState, team: Team, lanes: seq<Lane>, active: seq<Lane>)

  /** Whether the source already runs a lane to the target, counting only lanes that stay. */
  predicate HasOwn(c: Scene, source: Id, target: Id) {
    Joins(c.active, source, target)
  }

  predicate Joins(lanes: seq<Lane>, source: Id, target: Id) {
    exists i :: 0 <= i < |lanes| && lanes[i].source == source && lanes[i].target == target
  }

  predicate CanRescue(c: Scene, source: Id, target: Id) {
    var s, t := At(c.g.territories, source), At(c.g.territories, target);
    && t.owner == c.team && target != source && AttackedBy(c.team, c.lanes, target) > 0
    && t.units < RESCUE_MAX_HOLD && s.units >= 12 && Targeted(c.active, target) == 0
    && !HasOwn(c, source, target) && FindRoute(c.g, source, target, c.team).Some?
  }

  predicate Weaker(g: GameState, x: Id, y: Id) {
    var a, b := At(g.territories, x).units, At(g.territories, y).units;
    a < b || (a == b && x != y && AtMost(x, y))
  }

  /** The weakest tower the source can rescue. */
  function Rescuee(c: Scene, source: Id, ids: seq<Id>): Option<Id> {
    if ids == [] then None
    else
      var best := Rescuee(c, source, ids[..|ids| - 1]);
      var id := ids[|ids| - 1];
      if CanRescue(c, source, id) && (best == None || Weaker(c.g, id, best.value)) then Some(id) else best
  }

  predicate CanAttack(c: Scene, source: Id, target: Id) {
    var t := At(c.g.territories, target);
    && t.owner != c.team && !HasOwn(c, source, target) && Targeted(c.active, target) < 2
    && EMIT_RATE > Regeneration(t) + 0.2 && FindRoute(c.g, source, target, c.team).Some?
  }

  datatype Scored = Scored(target: Id, score: real)

  predicate ScoredLe(x: Scored, y: Scored) {
    x.score < y.score || (x.score == y.score && AtMost(x.target, y.target))
  }

  function AttackScore(c: Scene, source: Id, target: Id): real {
    var t := At(c.g.territories, target);
    t.units as real + (if t.owner != Neutral then 3.0 else 0.0) + c.g.board.distance(source, target) / 45.0
    - (if AttackedBy(c.team, c.lanes, target) > 0 then 2.0 else 0.0)
  }

  function Options(c: Scene, source: Id, ids: seq<Id>): seq<Scored> {
    if ids == [] then []
    else
      var id := ids[|ids| - 1];
      Options(c, source, ids[..|ids| - 1]) + (if CanAttack(c, source, id) then [Scored(id, AttackScore(c, source, id))]
        else [])
  }

  function Attackee(c: Scene, source: Id, ids: seq<Id>): Option<Id> {
    var sorted := Sort(ScoredLe, Options(c, source, ids));
    if sorted == [] then None else Some(sorted[0].target)
  }

  predicate HasFreePath(c: Scene, source: Id) {
    var s := At(c.g.territories, source);
    s.owner == c.team && s.units >= 4 && LanesFrom(c.active, c.team, source) < MaxLanes(c.g, source)
  }

  /** At most one new lane for a source: a rescue if there is one, else its best attack. */
  function OpenFrom(c: Scene, ids: seq<Id>, source: Id): Option<Order> {
    if !HasFreePath(c, source) then None
    else
      match Rescuee(c, source, ids)
      case Some(id) => Some(Order(source, id))
      case None =>
        match Attackee(c, source, ids)
        case Some(id) => Some(Order(source, id))
        case None => None
  }

  function Opens(c: Scene, ids: seq<Id>, sources: seq<Id>): seq<Order> {
    if sources == [] then []
    else
      Opens(c, ids, sources[..|sources| - 1]) +
      (match OpenFrom(c, ids, sources[|sources| - 1])
       case Some(o) => [o]
       case None => [])
  }

  datatype LaneOrders = LaneOrders(open: seq<Order>, cut: seq<Order>)

  function PlanLanes(g: GameState, s: LaneState, team: Team, ids: seq<Id>): LaneOrders {
    var cuts := Cuts(g, team, s.lanes);
    var scene := Scene(g, team, s.lanes, Active(team, cuts, s.lanes));
    LaneOrders(Opens(scene, ids, ids), cuts)
  }

  // ----- Carrying a plan out

  function CutAll(s: LaneState, team: Team, orders: seq<Order>): LaneState {
    if orders == [] then s
    else
      var o := orders[|orders| - 1];
      CutLane(CutAll(s, team, orders[..|orders| - 1]), team, o.source, o.target)
  }

  function OpenAll(g: GameState, s: LaneState, team: Team, orders: seq<Order>): LaneState {
    if orders == [] then s
    else
      var o := orders[|orders| - 1];
      OpenLane(g, OpenAll(g, s, team, orders[..|orders| - 1]), team, o.source, o.target)
  }

  // ----- Legal opens

  /** The order would add a lane: the target is new for the source, and a route exists. */
  predicate Legal(c: Scene, o: Order) {
    HasFreePath(c, o.source) && !HasOwn(c, o.source, o.target) && FindRoute(c.g, o.source, o.target, c.team).Some?
  }

  lemma {:induction false} RescueeLegal(c: Scene, source: Id, ids: seq<Id>)
    ensures Rescuee(c, source, ids).Some? ==> CanRescue(c, source, Rescuee(c, source, ids).value)
  {
    hide CanRescue, Weaker;
    if ids != [] {
      RescueeLegal(c, source, ids[..|ids| - 1]);
    }
  }

  /** The weakest of the towers the source can rescue, the smaller id among equals; None exactly when
      it can rescue none. */
  lemma {:induction false} RescueeIsWeakest(c: Scene, source: Id, ids: seq<Id>)
    ensures
      match Rescuee(c, source, ids)
      case None => forall id :: id in ids ==> !CanRescue(c, source, id)
      case Some(best) =>
        best in ids && CanRescue(c, source, best)
        && forall id :: id in ids && CanRescue(c, source, id) ==> id == best || Weaker(c.g, best, id)
  {
    hide CanRescue, AtMost;
    if ids != [] {
      var front, last := ids[..|ids| - 1], ids[|ids| - 1];
      assert ids == front + [last];
      RescueeIsWeakest(c, source, front);
      TextOrder();
      assert forall x: string, y: string :: AtMost(x, y) || AtMost(y, x);
      assert forall x: string, y: string, z: string :: AtMost(x, y) && AtMost(y, z) ==> AtMost(x, z);
    }
  }

  lemma {:induction false} OptionsLegal(c: Scene, source: Id, ids: seq<Id>)
    ensures forall o :: o in Options(c, source, ids) ==> CanAttack(c, source, o.target)
  {
    hide CanAttack, AttackScore;
    if ids != [] {
      OptionsLegal(c, source, ids[..|ids| - 1]);
    }
  }

  lemma OpenFromLegal(c: Scene, ids: seq<Id>, source: Id)
    ensures OpenFrom(c, ids, source).Some? ==>
      OpenFrom(c, ids, source).value.source == source && Legal(c, OpenFrom(c, ids, source).value)
  {
    hide HasFreePath, HasOwn, FindRoute, Options, Rescuee;
    RescueeLegal(c, source, ids);
    OptionsLegal(c, source, ids);
    var options := Options(c, source, ids);
    var sorted := Sort(ScoredLe, options);
    SameElements(sorted, options);
    assert sorted != [] ==> sorted[0] in sorted;
  }

  /** Legal opens from distinct sources. */
  ghost predicate LegalOpens(c: Scene, orders: seq<Order>) {
    && (forall i :: 0 <= i < |orders| ==> Legal(c, orders[i]))
    && forall i, j :: 0 <= i < j < |orders| ==> orders[i].source != orders[j].source
  }

  lemma {:induction false} OpensLegal(c: Scene, ids: seq<Id>, sources: seq<Id>)
    requires Simple(sources)
    ensures LegalOpens(c, Opens(c, ids, sources))
    ensures forall i :: 0 <= i < |Opens(c, ids, sources)| ==> Opens(c, ids, sources)[i].source in sources
  {
    hide OpenFrom, Legal;
    if sources != [] {
      var front, last := sources[..|sources| - 1], sources[|sources| - 1];
      assert sources == front + [last];
      OpensLegal(c, ids, front);
      OpenFromLegal(c, ids, last);
    }
  }

  // ----- After the cuts

  function Remaining(team: Team, cuts: seq<Order>, lanes: seq<Lane>): seq<Lane> {
    if lanes == [] then []
    else
      var last := lanes[|lanes| - 1];
      Remaining(team, cuts, lanes[..|lanes| - 1]) +
      (if last.owner == team && Order(last.source, last.target) in cuts then [] else [last])
  }

  lemma WithoutAppend(lanes: seq<Lane>, l: Lane, owner: Team, source: Id, target: Id)
    ensures Without(lanes + [l], owner, source, target) ==
            Without(lanes, owner, source, target) + (if Runs(l, owner, source, target) then [] else [l])
  {
    assert (lanes + [l])[..|lanes|] == lanes;
  }

  lemma {:induction false} WithoutRemaining(team: Team, cuts: seq<Order>, o: Order, lanes: seq<Lane>)
    ensures Without(Remaining(team, cuts, lanes), team, o.source, o.target) == Remaining(team, cuts + [o], lanes)
  {
    hide Without;
    if lanes == [] {
      WithoutNone(team, o);
    } else {
      var front, last := lanes[..|lanes| - 1], lanes[|lanes| - 1];
      WithoutRemaining(team, cuts, o, front);
      var r := Remaining(team, cuts, front);
      WithoutAppend(r, last, team, o.source, o.target);
      assert r + [] == r;
      assert Order(last.source, last.target) in cuts + [o] <==>
        Order(last.source, last.target) in cuts || Order(last.source, last.target) == o;
    }
  }

  lemma WithoutNone(team: Team, o: Order)
    ensures Without([], team, o.source, o.target) == []
  {
  }

  lemma {:induction false} NothingCut(team: Team, lanes: seq<Lane>)
    ensures Remaining(team, [], lanes) == lanes
  {
    if lanes != [] {
      NothingCut(team, lanes[..|lanes| - 1]);
    }
  }

  lemma {:induction false} CutAllRemaining(s: LaneState, team: Team, orders: seq<Order>)
    ensures CutAll(s, team, orders) == s.(lanes := Remaining(team, orders, s.lanes))
  {
    if orders == [] {
      NothingCut(team, s.lanes);
    } else {
      var front, o := orders[..|orders| - 1], orders[|orders| - 1];
      CutAllRemaining(s, team, front);
      WithoutRemaining(team, front, o, s.lanes);
      assert orders == front + [o];
    }
  }

  function OwnLanes(lanes: seq<Lane>, team: Team): nat {
    if lanes == [] then 0
      else OwnLanes(lanes[..|lanes| - 1], team) + (if lanes[|lanes| - 1].owner == team then 1 else 0)
  }

  lemma OwnLanesAppend(lanes: seq<Lane>, l: Lane, team: Team)
    ensures OwnLanes(lanes + [l], team) == OwnLanes(lanes, team) + (if l.owner == team then 1 else 0)
  {
    assert (lanes + [l])[..|lanes|] == lanes;
  }

  /** The team's lanes among those remaining are the active ones. */
  lemma {:induction false} RemainingActive(team: Team, cuts: seq<Order>, lanes: seq<Lane>, source: Id, target: Id)
    ensures
      var r, a := Remaining(team, cuts, lanes), Active(team, cuts, lanes);
      && OwnLanes(r, team) == |a| && LanesFrom(r, team, source) == LanesFrom(a, team, source)
      && (HasLane(r, team, source, target) <==> Joins(a, source, target))
  {
    hide OwnLanes, LanesFrom, HasLane, Joins;
    if lanes == [] {
      NoLanesCount(team, source, target);
    } else {
      var front, last := lanes[..|lanes| - 1], lanes[|lanes| - 1];
      RemainingActive(team, cuts, front, source, target);
      var r, a := Remaining(team, cuts, front), Active(team, cuts, front);
      assert r + [] == r && a + [] == a;
      OwnLanesAppend(r, last, team);
      LanesFromAppend(r, last, team, source);
      LanesFromAppend(a, last, team, source);
      HasLaneAppend(r, last, team, source, target);
      JoinsAppend(a, last, source, target);
    }
  }

  lemma NoLanesCount(team: Team, source: Id, target: Id)
    ensures OwnLanes([], team) == 0 && LanesFrom([], team, source) == 0
    ensures !HasLane([], team, source, target) && !Joins([], source, target)
  {
  }

  lemma HasLaneAppend(lanes: seq<Lane>, l: Lane, owner: Team, source: Id, target: Id)
    ensures HasLane(lanes + [l], owner, source, target) <==>
      HasLane(lanes, owner, source, target) || Runs(l, owner, source, target)
  {
    var all := lanes + [l];
    assert all[|lanes|] == l;
    assert forall i :: 0 <= i < |lanes| ==> all[i] == lanes[i];
  }

  lemma JoinsAppend(lanes: seq<Lane>, l: Lane, source: Id, target: Id)
    ensures Joins(lanes + [l], source, target) <==>
      Joins(lanes, source, target) || (l.source == source && l.target == target)
  {
    var all := lanes + [l];
    assert all[|lanes|] == l;
    assert forall i :: 0 <= i < |lanes| ==> all[i] == lanes[i];
  }

  /** Every cut names exactly one running lane, so the cuts remove as many lanes as they are. */
  lemma {:induction false} CutsRemove(g: GameState, team: Team, lanes: seq<Lane>, cuts: seq<Order>, upTo: nat)
    requires upTo <= |lanes| && DistinctLanes(lanes) && cuts == Cuts(g, team, lanes)
    ensures OwnLanes(Remaining(team, cuts, lanes[..upTo]), team) + |Cuts(g, team, lanes[..upTo])| ==
      OwnLanes(lanes[..upTo], team)
    decreases upTo
  {
    hide ShouldCut, OwnLanes;
    if upTo == 0 {
      NoLanesCount(team, "", "");
    } else {
      var front, last := lanes[..upTo - 1], lanes[upTo - 1];
      CutsRemove(g, team, lanes, cuts, upTo - 1);
      assert lanes[..upTo] == front + [last];
      assert lanes[..upTo][..upTo - 1] == front;
      assert lanes[..|lanes|] == lanes;
      if last.owner == team {
        CutIffListed(g, team, lanes, |lanes|, upTo - 1);
      } else {
        OnlyOwnCut(g, team, last);
      }
      OwnLanesAppend(front, last, team);
      var r := Remaining(team, cuts, front);
      assert r + [] == r;
      OwnLanesAppend(r, last, team);
    }
  }

  lemma OnlyOwnCut(g: GameState, team: Team, l: Lane)
    ensures ShouldCut(g, team, l) ==> l.owner == team
  {
  }

  lemma {:induction false} CutIffListed(g: GameState, team: Team, lanes: seq<Lane>, upTo: nat, k: nat)
    requires k < |lanes| && upTo <= |lanes| && DistinctLanes(lanes) && lanes[k].owner == team
    ensures Order(lanes[k].source, lanes[k].target) in Cuts(g, team, lanes[..upTo]) <==>
      k < upTo && ShouldCut(g, team, lanes[k])
    decreases upTo
  {
    if upTo > 0 {
      assert lanes[..upTo][..upTo - 1] == lanes[..upTo - 1];
      CutIffListed(g, team, lanes, upTo - 1, k);
      var last := lanes[upTo - 1];
      if k != upTo - 1 && ShouldCut(g, team, last) {
        DistinctPair(lanes, k, upTo - 1);
      }
    }
  }

  lemma DistinctPair(lanes: seq<Lane>, j: nat, k: nat)
    requires j < |lanes| && k < |lanes| && j != k && DistinctLanes(lanes)
    ensures !Runs(lanes[k], lanes[j].owner, lanes[j].source, lanes[j].target)
  {
    if k < j {
      assert !Runs(lanes[j], lanes[k].owner, lanes[k].source, lanes[k].target);
    }
  }

  // ----- After the opens

  /** Each legal open adds exactly one lane of the team, the one ordered. */
  lemma {:induction false} OpenAllAdds(c: Scene, s: LaneState, orders: seq<Order>)
    requires LegalOpens(c, orders)
    requires forall source :: LanesFrom(s.lanes, c.team, source) == LanesFrom(c.active, c.team, source)
    requires forall source, target :: HasLane(s.lanes, c.team, source, target) <==> HasOwn(c, source, target)
    ensures
      var r := OpenAll(c.g, s, c.team, orders);
      && |r.lanes| == |s.lanes| + |orders| && r.lanes[..|s.lanes|] == s.lanes
      && (forall i :: 0 <= i < |orders| ==> Runs(r.lanes[|s.lanes| + i], c.team, orders[i].source, orders[i].target))
      && (forall source :: (forall i :: 0 <= i < |orders| ==> orders[i].source != source) ==>
            LanesFrom(r.lanes, c.team, source) == LanesFrom(s.lanes, c.team, source))
      && OwnLanes(r.lanes, c.team) == OwnLanes(s.lanes, c.team) + |orders|
  {
    hide Legal, HasOwn, LanesFrom, OwnLanes, HasLane, NewLane;
    if orders != [] {
      var front, o := orders[..|orders| - 1], orders[|orders| - 1];
      assert LegalOpens(c, front);
      OpenAllAdds(c, s, front);
      var r := OpenAll(c.g, s, c.team, front);
      NoneYet(c, s, r, front, o);
      LegalAdds(c, s, r, o);
      var added := NewLane(c.g, r, c.team, o.source, o.target).value;
      OwnLanesAppend(r.lanes, added, c.team);
      forall source | forall i :: 0 <= i < |orders| ==> orders[i].source != source
        ensures LanesFrom(r.lanes + [added], c.team, source) == LanesFrom(s.lanes, c.team, source)
      {
        LanesFromAppend(r.lanes, added, c.team, source);
        assert orders[|orders| - 1].source != source;
        assert forall i :: 0 <= i < |front| ==> front[i] == orders[i];
      }
    }
  }

  /** Opens from other sources have not given the source a lane to the target. */
  lemma NoneYet(c: Scene, s: LaneState, r: LaneState, front: seq<Order>, o: Order)
    requires |r.lanes| == |s.lanes| + |front| && r.lanes[..|s.lanes|] == s.lanes
    requires forall i :: 0 <= i < |front| ==> Runs(r.lanes[|s.lanes| + i], c.team, front[i].source, front[i].target)
    requires forall i :: 0 <= i < |front| ==> front[i].source != o.source
    ensures HasLane(r.lanes, c.team, o.source, o.target) ==> HasLane(s.lanes, c.team, o.source, o.target)
  {
    forall k | |s.lanes| <= k < |r.lanes| ensures !Runs(r.lanes[k], c.team, o.source, o.target) {
      assert Runs(r.lanes[|s.lanes| + (k - |s.lanes|)], c.team, front[k - |s.lanes|].source,
        front[k - |s.lanes|].target);
    }
    forall k | 0 <= k < |s.lanes| ensures r.lanes[k] == s.lanes[k] {
      assert r.lanes[..|s.lanes|][k] == s.lanes[k];
    }
  }

  lemma LegalAdds(c: Scene, s: LaneState, r: LaneState, o: Order)
    requires Legal(c, o)
    requires LanesFrom(r.lanes, c.team, o.source) == LanesFrom(s.lanes, c.team, o.source) ==
      LanesFrom(c.active, c.team, o.source)
    requires HasLane(s.lanes, c.team, o.source, o.target) <==> HasOwn(c, o.source, o.target)
    requires HasLane(r.lanes, c.team, o.source, o.target) ==> HasLane(s.lanes, c.team, o.source, o.target)
    ensures
      var l := NewLane(c.g, r, c.team, o.source, o.target);
      l.Some? && Runs(l.value, c.team, o.source, o.target) && l.value.owner == c.team && l.value.source == o.source
  {
    hide FindRoute, LanesFrom, MaxLanes;
  }

  /** Every order of a plan is carried out: each cut removes one lane and each open adds exactly the
      lane it names, at most one per source. */
  lemma PlanIsExecutable(g: GameState, s: LaneState, team: Team, ids: seq<Id>)
    requires DistinctLanes(s.lanes) && Simple(ids)
    ensures
      var plan := PlanLanes(g, s, team, ids);
      var cut := CutAll(s, team, plan.cut);
      var done := OpenAll(g, cut, team, plan.open);
      && OwnLanes(cut.lanes, team) == OwnLanes(s.lanes, team) - |plan.cut|
      && OwnLanes(done.lanes, team) == OwnLanes(s.lanes, team) - |plan.cut| + |plan.open|
      && |done.lanes| == |cut.lanes| + |plan.open| && done.lanes[..|cut.lanes|] == cut.lanes
      && (forall i :: 0 <= i < |plan.open| ==>
        Runs(done.lanes[|cut.lanes| + i], team, plan.open[i].source, plan.open[i].target))
      && (forall i, j :: 0 <= i < j < |plan.open| ==> plan.open[i].source != plan.open[j].source)
  {
    hide Cuts, Opens, Legal, OwnLanes, LanesFrom, CutAll, OpenAll;
    var plan := PlanLanes(g, s, team, ids);
    var cut := CutAll(s, team, plan.cut);
    var scene := Scene(g, team, s.lanes, Active(team, plan.cut, s.lanes));
    CutAllRemaining(s, team, plan.cut);
    CutsRemove(g, team, s.lanes, plan.cut, |s.lanes|);
    assert s.lanes[..|s.lanes|] == s.lanes;
    OpensLegal(scene, ids, ids);
    forall source, target
      ensures HasLane(cut.lanes, team, source, target) <==> HasOwn(scene, source, target)
    {
      RemainingActive(team, plan.cut, s.lanes, source, target);
    }
    forall source ensures LanesFrom(cut.lanes, team, source) == LanesFrom(scene.active, team, source) {
      RemainingActive(team, plan.cut, s.lanes, source, "");
    }
    OpenAllAdds(scene, cut, plan.open);
  }
}
