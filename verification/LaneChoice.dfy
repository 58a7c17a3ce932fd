/** What the lane planner decides, said without its loops: which lanes it cuts, and the one lane it opens
    from each tower with a free path. */
module LaneChoice {
  import opened Text
  import opened Sorting
  import opened World
  import opened Routes
  import opened DispatchRoute
  import opened BattleRules
  import opened TacticalRules
  import opened LaneRules
  import opened LanePlan

  // ----- Lanes that go and lanes that stay

  /** Units a second; a neutral tower produces none. */
  function Output(t: Territory): real {
    if t.owner == Neutral then 0.0 else t.productionRate * (if t.kind == Barracks then 1.25 else 1.0)
  }

  /** The team's own target is all but full or holds fourteen, or the other side's one produces nearly as
      fast as the lane streams. */
  ghost predicate NoLongerWorth(g: GameState, team: Team, source: Id, target: Id) {
    && source in g.territories && target in g.territories
    && var t := g.territories[target];
       if t.owner == team then t.units >= t.maxUnits - 1 || t.units >= 14
       else t.owner != Neutral && Output(t) >= 4.9
  }

  ghost predicate Stays(g: GameState, team: Team, l: Lane) {
    l.owner == team && !NoLongerWorth(g, team, l.source, l.target)
  }

  ghost predicate HasRunning(team: Team, lanes: seq<Lane>, source: Id, target: Id) {
    exists i :: 0 <= i < |lanes| && Runs(lanes[i], team, source, target)
  }

  /** Cut is exactly every lane of the team that is no longer worth it. */
  ghost predicate CutsRight(g: GameState, team: Team, lanes: seq<Lane>, cut: seq<Order>) {
    forall source, target :: Order(source, target) in cut <==>
      HasRunning(team, lanes, source, target) && NoLongerWorth(g, team, source, target)
  }

  lemma ShouldCutIff(g: GameState, team: Team, l: Lane)
    ensures ShouldCut(g, team, l) <==> l.owner == team && NoLongerWorth(g, team, l.source, l.target)
  {
    if l.target in g.territories {
      OutputIs(g.territories[l.target]);
    }
  }

  lemma OutputIs(t: Territory)
    ensures Regeneration(t) == Output(t)
  {
    assert ProductionMultiplier(t.kind) == if t.kind == Barracks then 1.25 else 1.0;
  }

  lemma {:induction false} CutsAre(g: GameState, team: Team, lanes: seq<Lane>)
    ensures CutsRight(g, team, lanes, Cuts(g, team, lanes))
  {
    hide ShouldCut, NoLongerWorth;
    if lanes != [] {
      var front, last := lanes[..|lanes| - 1], lanes[|lanes| - 1];
      assert lanes == front + [last];
      CutsAre(g, team, front);
      ShouldCutIff(g, team, last);
      forall source, target ensures HasRunning(team, lanes, source, target) <==>
        HasRunning(team, front, source, target) || Runs(last, team, source, target)
      {
        RunningMore(team, front, last, source, target);
      }
    }
  }

  lemma RunningMore(team: Team, front: seq<Lane>, last: Lane, source: Id, target: Id)
    ensures HasRunning(team, front + [last], source, target) <==>
      HasRunning(team, front, source, target) || Runs(last, team, source, target)
  {
    hide Runs;
    var lanes := front + [last];
    assert lanes[|front|] == last;
    if i :| 0 <= i < |front| && Runs(front[i], team, source, target) {
      assert lanes[i] == front[i];
    }
  }

  // ----- Counting the lanes that stay

  ghost function StayingTo(g: GameState, team: Team, lanes: seq<Lane>, target: Id): set<nat> {
    set i | 0 <= i < |lanes| && Stays(g, team, lanes[i]) && lanes[i].target == target
  }

  ghost function StayingFrom(g: GameState, team: Team, lanes: seq<Lane>, source: Id): set<nat> {
    set i | 0 <= i < |lanes| && Stays(g, team, lanes[i]) && lanes[i].source == source
  }

  /** Only the lanes that stay are active. */
  ghost predicate CutsKnown(g: GameState, team: Team, cuts: seq<Order>, lanes: seq<Lane>) {
    forall i :: 0 <= i < |lanes| && lanes[i].owner == team ==>
      (Order(lanes[i].source, lanes[i].target) in cuts <==> NoLongerWorth(g, team, lanes[i].source, lanes[i].target))
  }

  lemma StayingMore(g: GameState, team: Team, front: seq<Lane>, last: Lane, id: Id)
    ensures StayingTo(g, team, front + [last], id) == StayingTo(g, team, front, id)
      + (if Stays(g, team, last) && last.target == id then {|front|} else {})
    ensures StayingFrom(g, team, front + [last], id) == StayingFrom(g, team, front, id)
      + (if Stays(g, team, last) && last.source == id then {|front|} else {})
  {
    hide Stays;
    var lanes := front + [last];
    assert lanes[|front|] == last && forall i :: 0 <= i < |front| ==> lanes[i] == front[i];
  }

  lemma ActiveMore(g: GameState, team: Team, cuts: seq<Order>, front: seq<Lane>, last: Lane)
    requires CutsKnown(g, team, cuts, front + [last])
    ensures CutsKnown(g, team, cuts, front)
    ensures Active(team, cuts, front + [last]) == Active(team, cuts, front) +
      (if Stays(g, team, last) then [last] else [])
  {
    hide NoLongerWorth;
    var lanes := front + [last];
    assert lanes[..|front|] == front && lanes[|front|] == last;
    assert forall i :: 0 <= i < |front| ==> lanes[i] == front[i];
  }

  lemma CountsMore(active: seq<Lane>, last: Lane, team: Team, id: Id)
    ensures Targeted(active + [last], id) == Targeted(active, id) + (if last.target == id then 1 else 0)
    ensures LanesFrom(active + [last], team, id) ==
      LanesFrom(active, team, id) + (if last.owner == team && last.source == id then 1 else 0)
  {
    assert (active + [last])[..|active|] == active;
  }

  lemma {:induction false} ActiveCounts(g: GameState, team: Team, cuts: seq<Order>, lanes: seq<Lane>, id: Id)
    requires CutsKnown(g, team, cuts, lanes)
    ensures
      var active := Active(team, cuts, lanes);
      && Targeted(active, id) == |StayingTo(g, team, lanes, id)|
      && LanesFrom(active, team, id) == |StayingFrom(g, team, lanes, id)|
  {
    if lanes == [] {
      assert StayingTo(g, team, lanes, id) == {} && StayingFrom(g, team, lanes, id) == {};
    } else {
      hide NoLongerWorth, StayingTo, StayingFrom, CutsKnown, Active, Targeted, LanesFrom;
      var front, last := lanes[..|lanes| - 1], lanes[|lanes| - 1];
      assert lanes == front + [last];
      ActiveMore(g, team, cuts, front, last);
      ActiveCounts(g, team, cuts, front, id);
      StayingMore(g, team, front, last, id);
      StayingBelow(g, team, front, id);
      var active := Active(team, cuts, front);
      CountsMore(active, last, team, id);
      assert active + [] == active;
    }
  }

  lemma StayingBelow(g: GameState, team: Team, lanes: seq<Lane>, id: Id)
    ensures |lanes| !in StayingTo(g, team, lanes, id) && |lanes| !in StayingFrom(g, team, lanes, id)
  {
  }

  /** A lane of another team runs to the tower. */
  ghost predicate UnderAttack(team: Team, lanes: seq<Lane>, target: Id) {
    exists i :: 0 <= i < |lanes| && lanes[i].owner != team && lanes[i].target == target
  }

  lemma {:induction false} AttackedIff(team: Team, lanes: seq<Lane>, target: Id)
    ensures AttackedBy(team, lanes, target) > 0 <==> UnderAttack(team, lanes, target)
  {
    if lanes != [] {
      var front, last := lanes[..|lanes| - 1], lanes[|lanes| - 1];
      assert lanes == front + [last];
      AttackedIff(team, front, target);
      assert lanes[|front|] == last;
      if i :| 0 <= i < |front| && front[i].owner != team && front[i].target == target {
        assert lanes[i] == front[i];
      }
    }
  }

  ghost predicate StaysBetween(g: GameState, team: Team, lanes: seq<Lane>, source: Id, target: Id) {
    exists i :: 0 <= i < |lanes| && Stays(g, team, lanes[i]) && lanes[i].source == source && lanes[i].target == target
  }

  lemma {:induction false} JoinsIff(g: GameState, team: Team, cuts: seq<Order>, lanes: seq<Lane>, source: Id,
    target: Id)
    requires CutsKnown(g, team, cuts, lanes)
    ensures Joins(Active(team, cuts, lanes), source, target) <==> StaysBetween(g, team, lanes, source, target)
  {
    hide NoLongerWorth;
    if lanes != [] {
      var front, last := lanes[..|lanes| - 1], lanes[|lanes| - 1];
      assert lanes == front + [last];
      assert CutsKnown(g, team, cuts, front);
      JoinsIff(g, team, cuts, front, source, target);
      assert lanes[|front|] == last;
      StaysBetweenMore(g, team, front, last, source, target);
      JoinsMore(Active(team, cuts, front), last, source, target);
      var active := Active(team, cuts, front);
      assert Active(team, cuts, lanes) == if Stays(g, team, last) then active + [last] else active;
    }
  }

  lemma StaysBetweenMore(g: GameState, team: Team, front: seq<Lane>, last: Lane, source: Id, target: Id)
    ensures StaysBetween(g, team, front + [last], source, target) <==>
      StaysBetween(g, team, front, source, target) || (Stays(g, team, last) && last.source == source
        && last.target == target)
  {
    hide Stays;
    var lanes := front + [last];
    assert lanes[|front|] == last;
    if i :| 0 <= i < |front| && Stays(g, team, front[i]) && front[i].source == source && front[i].target == target {
      assert lanes[i] == front[i];
    }
  }

  lemma JoinsMore(active: seq<Lane>, last: Lane, source: Id, target: Id)
    ensures Joins(active + [last], source, target) <==>
      Joins(active, source, target) || (last.source == source && last.target == target)
  {
    var all := active + [last];
    assert all[|active|] == last;
    if i :| 0 <= i < |active| && active[i].source == source && active[i].target == target {
      assert all[i] == active[i];
    }
  }

  // ----- What can be opened

  /** Four units or more, and fewer lanes that stay than the tier allows, one at least. */
  ghost predicate FreePath(g: GameState, team: Team, lanes: seq<Lane>, source: Id) {
    && source in g.territories
    && var s := g.territories[source];
       s.owner == team && s.units >= 4 && |StayingFrom(g, team, lanes, source)| < (if s.tier > 0 then s.tier else 1)
  }

  /** An own tower under attack with fewer than eight units and no help on the way, and twelve units or
      more to send from. */
  ghost predicate CanHelp(g: GameState, team: Team, lanes: seq<Lane>, source: Id, target: Id) {
    && source in g.territories && target in g.territories && target != source
    && g.territories[target].owner == team && g.territories[target].units < 8 && g.territories[source].units >= 12
    && UnderAttack(team, lanes, target) && StayingTo(g, team, lanes, target) == {}
    && FindRoute(g, source, target, team).Some?
  }

  /** A tower that is not the team's, produces less than 4.8 a second, and has at most one lane of the
      team's on it already, none of them from the source. */
  ghost predicate CanStorm(g: GameState, team: Team, lanes: seq<Lane>, source: Id, target: Id) {
    && source in g.territories && target in g.territories && g.territories[target].owner != team
    && Output(g.territories[target]) < 4.8
    && |StayingTo(g, team, lanes, target)| < 2 && !StaysBetween(g, team, lanes, source, target)
    && FindRoute(g, source, target, team).Some?
  }

  /** Few units, nobody's, near, and under attack already are in its favour. */
  ghost function Resistance(g: GameState, team: Team, lanes: seq<Lane>, source: Id, target: Id): real
    requires target in g.territories
  {
    var t := g.territories[target];
    t.units as real + (if t.owner == Neutral then 0.0 else 3.0) + g.board.distance(source, target) / 45.0
    - (if UnderAttack(team, lanes, target) then 2.0 else 0.0)
  }

  /** The weakest own tower that can be helped, the smaller id among equals. */
  ghost predicate HelpsWeakest(g: GameState, team: Team, lanes: seq<Lane>, source: Id, target: Id) {
    && CanHelp(g, team, lanes, source, target)
    && forall x :: CanHelp(g, team, lanes, source, x) ==>
         || g.territories[target].units < g.territories[x].units
         || (g.territories[target].units == g.territories[x].units && AtMost(target, x))
  }

  /** The foreign tower of least resistance, the smaller id among equals. */
  ghost predicate StormsLeast(g: GameState, team: Team, lanes: seq<Lane>, source: Id, target: Id) {
    && CanStorm(g, team, lanes, source, target)
    && forall x :: CanStorm(g, team, lanes, source, x) ==>
         || Resistance(g, team, lanes, source, target) < Resistance(g, team, lanes, source, x)
         || (Resistance(g, team, lanes, source, target) == Resistance(g, team, lanes, source, x) && AtMost(target, x))
  }

  /** The target of a source with a free path: who needs help most, or else who resists least. */
  ghost predicate Chosen(g: GameState, team: Team, lanes: seq<Lane>, source: Id, target: Id) {
    if exists x :: CanHelp(g, team, lanes, source, x) then HelpsWeakest(g, team, lanes, source, target)
    else StormsLeast(g, team, lanes, source, target)
  }

  ghost predicate HasChoice(g: GameState, team: Team, lanes: seq<Lane>, source: Id) {
    exists x :: CanHelp(g, team, lanes, source, x) || CanStorm(g, team, lanes, source, x)
  }

  /** Opened is exactly one lane from every tower with a free path and a choice, to its chosen target. */
  ghost predicate OpensRight(g: GameState, team: Team, lanes: seq<Lane>, open: seq<Order>) {
    && (forall o :: o in open ==> FreePath(g, team, lanes, o.source) && Chosen(g, team, lanes, o.source, o.target))
    && (forall source :: FreePath(g, team, lanes, source) && HasChoice(g, team, lanes, source) ==>
          exists target :: Order(source, target) in open)
    && forall i, j :: 0 <= i < j < |open| ==> open[i].source != open[j].source
  }

  // ----- The planner's choices

  ghost predicate SceneOf(c: Scene, g: GameState, team: Team, lanes: seq<Lane>) {
    && c.g == g && c.team == team && c.lanes == lanes
    && exists cuts :: CutsKnown(g, team, cuts, lanes) && c.active == Active(team, cuts, lanes)
  }

  lemma HelpIff(c: Scene, source: Id, target: Id)
    requires SceneOf(c, c.g, c.team, c.lanes) && source in c.g.territories && target in c.g.territories
    ensures CanRescue(c, source, target) <==> CanHelp(c.g, c.team, c.lanes, source, target)
  {
    hide FindRoute, AttackedBy, Targeted, StayingTo, UnderAttack, CutsKnown, Joins;
    AttackedIff(c.team, c.lanes, target);
    var cuts :| CutsKnown(c.g, c.team, cuts, c.lanes) && c.active == Active(c.team, cuts, c.lanes);
    ActiveCounts(c.g, c.team, cuts, c.lanes, target);
    NoneBetween(c.active, source, target);
  }

  lemma {:induction false} NoneBetween(active: seq<Lane>, source: Id, target: Id)
    ensures Targeted(active, target) == 0 ==> !Joins(active, source, target)
  {
    if active != [] {
      var front, last := active[..|active| - 1], active[|active| - 1];
      assert active == front + [last];
      NoneBetween(front, source, target);
      JoinsMore(front, last, source, target);
    }
  }

  lemma StormIff(c: Scene, source: Id, target: Id)
    requires SceneOf(c, c.g, c.team, c.lanes) && source in c.g.territories && target in c.g.territories
    ensures CanAttack(c, source, target) <==> CanStorm(c.g, c.team, c.lanes, source, target)
    ensures AttackScore(c, source, target) == Resistance(c.g, c.team, c.lanes, source, target)
  {
    hide FindRoute, AttackedBy, Targeted, StayingTo, UnderAttack, CutsKnown, Joins, StaysBetween, Regeneration, Output;
    AttackedIff(c.team, c.lanes, target);
    OutputIs(c.g.territories[target]);
    var cuts :| CutsKnown(c.g, c.team, cuts, c.lanes) && c.active == Active(c.team, cuts, c.lanes);
    ActiveCounts(c.g, c.team, cuts, c.lanes, target);
    JoinsIff(c.g, c.team, cuts, c.lanes, source, target);
  }

  lemma PathIff(c: Scene, source: Id)
    requires SceneOf(c, c.g, c.team, c.lanes) && source in c.g.territories
    ensures HasFreePath(c, source) <==> FreePath(c.g, c.team, c.lanes, source)
  {
    hide LanesFrom, StayingFrom, CutsKnown;
    var cuts :| CutsKnown(c.g, c.team, cuts, c.lanes) && c.active == Active(c.team, cuts, c.lanes);
    ActiveCounts(c.g, c.team, cuts, c.lanes, source);
  }

  lemma {:induction false} OptionsAre(c: Scene, source: Id, ids: seq<Id>)
    ensures forall o :: o in Options(c, source, ids) <==>
      o.target in ids && CanAttack(c, source, o.target) && o.score == AttackScore(c, source, o.target)
  {
    hide CanAttack, AttackScore;
    if ids != [] {
      OptionsAre(c, source, ids[..|ids| - 1]);
      assert ids == ids[..|ids| - 1] + [ids[|ids| - 1]];
    }
  }

  lemma ScoredTotal()
    ensures TotalOrder(ScoredLe)
  {
    hide AtMost;
    TextOrder();
    assert forall x: string, y: string :: AtMost(x, y) || AtMost(y, x);
    assert forall x: string, y: string, z: string :: AtMost(x, y) && AtMost(y, z) ==> AtMost(x, z);
  }

  /** The attack of least score, the smaller id among equals; none exactly when nothing can be attacked. */
  lemma AttackeeIsLeast(c: Scene, source: Id, ids: seq<Id>)
    ensures
      match Attackee(c, source, ids)
      case None => forall id :: id in ids ==> !CanAttack(c, source, id)
      case Some(best) =>
        && best in ids && CanAttack(c, source, best)
        && forall id :: id in ids && CanAttack(c, source, id) ==>
             ScoredLe(Scored(best, AttackScore(c, source, best)), Scored(id, AttackScore(c, source, id)))
  {
    hide CanAttack, AttackScore, Options, ScoredLe;
    OptionsAre(c, source, ids);
    ScoredTotal();
    var options := Options(c, source, ids);
    SortSorted(ScoredLe, options);
    var sorted := Sort(ScoredLe, options);
    if sorted == [] {
      forall id | id in ids ensures !CanAttack(c, source, id) {
        assert Scored(id, AttackScore(c, source, id)) !in options;
      }
    } else {
      assert sorted[0] in sorted;
      forall id | id in ids && CanAttack(c, source, id)
        ensures ScoredLe(sorted[0], Scored(id, AttackScore(c, source, id)))
      {
        var o := Scored(id, AttackScore(c, source, id));
        assert o in options;
        var k :| 0 <= k < |sorted| && sorted[k] == o;
        assert ScoredLe(sorted[0], sorted[0]);
      }
    }
  }

  lemma OpenFromIs(c: Scene, ids: seq<Id>, source: Id)
    requires SceneOf(c, c.g, c.team, c.lanes) && source in c.g.territories
    requires forall id :: id in ids <==> id in c.g.territories
    ensures
      match OpenFrom(c, ids, source)
      case None => !FreePath(c.g, c.team, c.lanes, source) || !HasChoice(c.g, c.team, c.lanes, source)
      case Some(o) =>
        o.source == source && FreePath(c.g, c.team, c.lanes, source) && Chosen(c.g, c.team, c.lanes, source, o.target)
  {
    hide SceneOf, HasFreePath, FreePath, Rescuee, Attackee, CanRescue, CanAttack, CanHelp, CanStorm, AttackScore,
      Resistance;
    hide AtMost;
    PathIff(c, source);
    RescueeIsWeakest(c, source, ids);
    AttackeeIsLeast(c, source, ids);
    forall id | id in ids
      ensures CanRescue(c, source, id) <==> CanHelp(c.g, c.team, c.lanes, source, id)
      ensures CanAttack(c, source, id) <==> CanStorm(c.g, c.team, c.lanes, source, id)
      ensures AttackScore(c, source, id) == Resistance(c.g, c.team, c.lanes, source, id)
    {
      HelpIff(c, source, id);
      StormIff(c, source, id);
    }
    forall id ensures CanHelp(c.g, c.team, c.lanes, source, id) || CanStorm(c.g, c.team, c.lanes, source, id) ==>
      id in ids {
      OnlyTowers(c.g, c.team, c.lanes, source, id);
    }
    AtMostItself();
  }

  lemma AtMostItself()
    ensures forall id: Id :: AtMost(id, id)
  {
    forall id: Id ensures AtMost(id, id) {
      AtMostTotal(id, id);
    }
  }

  lemma OnlyTowers(g: GameState, team: Team, lanes: seq<Lane>, source: Id, target: Id)
    ensures CanHelp(g, team, lanes, source, target) || CanStorm(g, team, lanes, source, target) ==>
      target in g.territories
  {
  }

  lemma {:induction false} OpensAre(c: Scene, ids: seq<Id>, sources: seq<Id>)
    requires Simple(sources)
    ensures
      var open := Opens(c, ids, sources);
      && (forall o :: o in open ==> o.source in sources && OpenFrom(c, ids, o.source) == Some(o))
      && (forall source :: source in sources && OpenFrom(c, ids, source).Some? ==>
        OpenFrom(c, ids, source).value in open)
      && forall i, j :: 0 <= i < j < |open| ==> open[i].source != open[j].source
  {
    hide OpenFrom;
    if sources != [] {
      var front, last := sources[..|sources| - 1], sources[|sources| - 1];
      assert sources == front + [last] && last !in front;
      OpensAre(c, ids, front);
      OpenFromSource(c, ids, last);
      var before := Opens(c, ids, front);
      assert forall i :: 0 <= i < |before| ==> before[i] in before;
    }
  }

  lemma OpenFromSource(c: Scene, ids: seq<Id>, source: Id)
    ensures OpenFrom(c, ids, source).Some? ==> OpenFrom(c, ids, source).value.source == source
  {
    hide HasFreePath, Rescuee, Attackee;
  }

  /** The whole plan: what is cut and what is opened. */
  ghost predicate PlanRight(g: GameState, lanes: seq<Lane>, team: Team, plan: LaneOrders) {
    CutsRight(g, team, lanes, plan.cut) && OpensRight(g, team, lanes, plan.open)
  }

  lemma PlanIs(g: GameState, s: LaneState, team: Team)
    ensures PlanRight(g, s.lanes, team, PlanLanes(g, s, team, SortedIds(g.territories.Keys)))
  {
    hide SortedIds, Cuts, Active, Opens, OpenFrom, FreePath, HasChoice, Chosen, NoLongerWorth;
    var ids := SortedIds(g.territories.Keys);
    SortedIdsList(g.territories.Keys);
    CutsAre(g, team, s.lanes);
    var cuts := Cuts(g, team, s.lanes);
    CutsKnow(g, team, cuts, s.lanes);
    var c := Scene(g, team, s.lanes, Active(team, cuts, s.lanes));
    assert SceneOf(c, g, team, s.lanes);
    OpensAre(c, ids, ids);
    forall source | source in ids
      ensures
        match OpenFrom(c, ids, source)
        case None => !FreePath(g, team, s.lanes, source) || !HasChoice(g, team, s.lanes, source)
        case Some(o) =>
          && o.source == source && FreePath(g, team, s.lanes, source)
          && Chosen(g, team, s.lanes, source, o.target)
    {
      OpenFromIs(c, ids, source);
    }
    var open := Opens(c, ids, ids);
    forall source | FreePath(g, team, s.lanes, source) && HasChoice(g, team, s.lanes, source)
      ensures exists target :: Order(source, target) in open
    {
      PathTower(g, team, s.lanes, source);
      var o := OpenFrom(c, ids, source).value;
      assert Order(source, o.target) == o && o in open;
    }
  }

  lemma PathTower(g: GameState, team: Team, lanes: seq<Lane>, source: Id)
    ensures FreePath(g, team, lanes, source) ==> source in g.territories
  {
  }

  lemma CutsKnow(g: GameState, team: Team, cuts: seq<Order>, lanes: seq<Lane>)
    requires CutsRight(g, team, lanes, cuts)
    ensures CutsKnown(g, team, cuts, lanes)
  {
    hide NoLongerWorth;
    forall i | 0 <= i < |lanes| && lanes[i].owner == team
      ensures HasRunning(team, lanes, lanes[i].source, lanes[i].target)
    {
      assert Runs(lanes[i], team, lanes[i].source, lanes[i].target);
    }
  }
}
