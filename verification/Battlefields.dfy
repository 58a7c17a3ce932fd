/** Which battlefields are accepted, and what that guarantees: a mirror of the towers and, where road
    texts tell roads apart, of the roads. */
module Battlefields {
  import opened Text
  import opened Sorting
  import opened World
  import opened Routes
  import opened Roles
  import opened TacticalRules

  datatype Mode = OneVsOne | TwoVsTwo | OtherMode

  datatype Terrain = Terrain(
    id: Id, x: real, y: real, radius: real, owner: Team, units: int, maxUnits: int, rate: real, tier: int, kind: Kind)

  datatype Battlefield = Battlefield(id: Id, mode: Mode, terrains: seq<Terrain>, roads: seq<(Id, Id)>)

  datatype Fault =
    EmptyBattlefieldId | EmptyId | DuplicateId | BadBases | BadFortress | BadMode | NoNeutral | RoadEndpoint | SelfRoad
    | DuplicateRoad | OutOfBounds | BasesOffAxis | NoCounterpart | ManyCounterparts | OwnerMismatch | AttributeMismatch
    | SelfMirroredRoad | RoadNotMirrored

  const TOLERANCE := 0.0001

  // ----- Ids

  predicate Named(ts: seq<Terrain>, id: Id) {
    exists i :: 0 <= i < |ts| && ts[i].id == id
  }

  function IdFault(ts: seq<Terrain>, i: nat): Option<Fault>
    requires i < |ts|
  {
    if ts[i].id == "" then Some(EmptyId) else if Named(ts[..i], ts[i].id) then Some(DuplicateId) else None
  }

  // ----- Bases

  function Owned(ts: seq<Terrain>, team: Team): seq<Terrain> {
    if ts == [] then []
    else Owned(ts[..|ts| - 1], team) + (if ts[|ts| - 1].owner == team then [ts[|ts| - 1]] else [])
  }

  function Ids(ts: seq<Terrain>): (r: seq<Id>)
    ensures |r| == |ts| && forall i :: 0 <= i < |r| ==> r[i] == ts[i].id
  {
    seq(|ts|, i requires 0 <= i < |ts| => ts[i].id)
  }

  predicate AllFortresses(ts: seq<Terrain>) {
    forall i :: 0 <= i < |ts| ==> ts[i].tier == 3 && ts[i].kind == Fortress
  }

  function BasesFault(b: Battlefield): Option<Fault> {
    var player, enemy := Owned(b.terrains, Player), Owned(b.terrains, Enemy);
    match b.mode
    case OneVsOne => if Ids(player) != ["p_base"] || Ids(enemy) != ["e_base"] then Some(BadBases) else None
    case TwoVsTwo =>
      if Sort(AtMost, Ids(player)) != ["a_base_e", "a_base_w"]
        || Sort(AtMost, Ids(enemy)) != ["b_base_e", "b_base_w"] then
        Some(BadBases)
      else if !AllFortresses(player + enemy) then Some(BadFortress)
      else None
    case OtherMode => Some(BadMode)
  }

  // ----- Roads

  function RoadKey(x: Id, y: Id): string {
    if AtMost(x, y) then x + "<->" + y else y + "<->" + x
  }

  predicate KeySeen(roads: seq<(Id, Id)>, key: string) {
    exists i :: 0 <= i < |roads| && RoadKey(roads[i].0, roads[i].1) == key
  }

  function RoadFault(b: Battlefield, i: nat): Option<Fault>
    requires i < |b.roads|
  {
    var (x, y) := b.roads[i];
    if !Named(b.terrains, x) || !Named(b.terrains, y) then Some(RoadEndpoint)
    else if x == y then Some(SelfRoad)
    else if KeySeen(b.roads[..i], RoadKey(x, y)) then Some(DuplicateRoad)
    else None
  }

  // ----- Bounds and symmetry

  predicate InBounds(t: Terrain) {
    t.x - t.radius >= 15.0 && t.x + t.radius <= 385.0 && t.y - t.radius >= 70.0 && t.y + t.radius <= 650.0
  }

  function BoundsFault(b: Battlefield, i: nat): Option<Fault>
    requires i < |b.terrains|
  {
    if InBounds(b.terrains[i]) then None else Some(OutOfBounds)
  }

  /** `u` stands where `t` lands when the board is turned by half a turn. */
  predicate Opposite(t: Terrain, u: Terrain) {
    Abs(u.x - (400.0 - t.x)) < TOLERANCE && Abs(u.y - (720.0 - t.y)) < TOLERANCE
  }

  function Matches(ts: seq<Terrain>, t: Terrain): seq<Terrain> {
    if ts == [] then []
    else Matches(ts[..|ts| - 1], t) + (if Opposite(t, ts[|ts| - 1]) then [ts[|ts| - 1]] else [])
  }

  function AxisFault(b: Battlefield): Option<Fault> {
    var player, enemy := Owned(b.terrains, Player), Owned(b.terrains, Enemy);
    if b.mode == OneVsOne && player != [] && enemy != []
      && !(player[0].x == enemy[0].x && player[0].y + enemy[0].y == 720.0)
    then Some(BasesOffAxis)
    else None
  }

  predicate SameAttributes(t: Terrain, u: Terrain) {
    t.tier == u.tier && t.kind == u.kind && t.units == u.units && t.maxUnits == u.maxUnits && t.rate == u.rate
      && t.radius == u.radius
  }

  function SymmetryFault(b: Battlefield, i: nat): Option<Fault>
    requires i < |b.terrains|
  {
    var t := b.terrains[i];
    var matches := Matches(b.terrains, t);
    if matches == [] then Some(NoCounterpart)
    else if |matches| > 1 then Some(ManyCounterparts)
    else if matches[0].owner != MapTeam(t.owner, Enemy) then Some(OwnerMismatch)
    else if !SameAttributes(t, matches[0]) then Some(AttributeMismatch)
    else None
  }

  function Lookup(ts: seq<Terrain>, id: Id): Option<Terrain> {
    if ts == [] then None
    else if ts[|ts| - 1].id == id then Some(ts[|ts| - 1])
    else Lookup(ts[..|ts| - 1], id)
  }

  /** The id of the first tower opposite the named one; the id itself when there is none. */
  function Mirror(b: Battlefield, id: Id): Id {
    match Lookup(b.terrains, id)
    case None => id
    case Some(t) => if Matches(b.terrains, t) == [] then id else Matches(b.terrains, t)[0].id
  }

  function ClosureFault(b: Battlefield, i: nat): Option<Fault>
    requires i < |b.roads|
  {
    var (x, y) := b.roads[i];
    var key := RoadKey(Mirror(b, x), Mirror(b, y));
    if b.mode == TwoVsTwo && key == RoadKey(x, y) then Some(SelfMirroredRoad)
    else if !KeySeen(b.roads, key) then Some(RoadNotMirrored)
    else None
  }

  // ----- The checks, one after the other

  function FirstIdFault(b: Battlefield, i: nat): Option<Fault>
    requires i <= |b.terrains|
    decreases |b.terrains| - i
  {
    if i == |b.terrains| then None
    else if IdFault(b.terrains, i).Some? then IdFault(b.terrains, i) else FirstIdFault(b, i + 1)
  }

  function FirstRoadFault(b: Battlefield, i: nat): Option<Fault>
    requires i <= |b.roads|
    decreases |b.roads| - i
  {
    if i == |b.roads| then None
    else if RoadFault(b, i).Some? then RoadFault(b, i) else FirstRoadFault(b, i + 1)
  }

  function FirstBoundsFault(b: Battlefield, i: nat): Option<Fault>
    requires i <= |b.terrains|
    decreases |b.terrains| - i
  {
    if i == |b.terrains| then None
    else if BoundsFault(b, i).Some? then BoundsFault(b, i) else FirstBoundsFault(b, i + 1)
  }

  function FirstSymmetryFault(b: Battlefield, i: nat): Option<Fault>
    requires i <= |b.terrains|
    decreases |b.terrains| - i
  {
    if i == |b.terrains| then None
    else if SymmetryFault(b, i).Some? then SymmetryFault(b, i) else FirstSymmetryFault(b, i + 1)
  }

  function FirstClosureFault(b: Battlefield, i: nat): Option<Fault>
    requires i <= |b.roads|
    decreases |b.roads| - i
  {
    if i == |b.roads| then None
    else if ClosureFault(b, i).Some? then ClosureFault(b, i) else FirstClosureFault(b, i + 1)
  }

  function Or(a: Option<Fault>, b: Option<Fault>): Option<Fault> {
    if a.Some? then a else b
  }

  function NeutralFault(b: Battlefield): Option<Fault> {
    if Owned(b.terrains, Neutral) == [] then Some(NoNeutral) else None
  }

  /** The first thing wrong with a battlefield; None when it is accepted. */
  function Validate(b: Battlefield): Option<Fault> {
    if b.id == "" then Some(EmptyBattlefieldId)
    else
      Or(FirstIdFault(b, 0),
      Or(BasesFault(b),
      Or(NeutralFault(b),
      Or(FirstRoadFault(b, 0),
      Or(FirstBoundsFault(b, 0),
      Or(AxisFault(b),
      Or(FirstSymmetryFault(b, 0), FirstClosureFault(b, 0))))))))
  }

  // ----- Acceptance, declaratively

  ghost predicate DistinctIds(ts: seq<Terrain>) {
    forall i, j :: 0 <= i < j < |ts| ==> ts[i].id != ts[j].id
  }

  /** Every tower has exactly one tower opposite, owned by the other side and otherwise alike. */
  ghost predicate Mirrored(b: Battlefield) {
    forall i :: 0 <= i < |b.terrains| ==> MirroredAt(b, i)
  }

  ghost predicate MirroredAt(b: Battlefield, i: nat)
    requires i < |b.terrains|
  {
    var t := b.terrains[i];
    var ms := Matches(b.terrains, t);
    |ms| == 1 && ms[0].owner == MapTeam(t.owner, Enemy) && SameAttributes(t, ms[0])
  }

  /** Roads join two different towers, each pair once by its text. */
  ghost predicate GoodRoads(b: Battlefield) {
    && (forall i :: 0 <= i < |b.roads| ==>
      b.roads[i].0 != b.roads[i].1 && Named(b.terrains, b.roads[i].0) && Named(b.terrains, b.roads[i].1))
    && forall i, j :: 0 <= i < j < |b.roads| ==>
      RoadKey(b.roads[i].0, b.roads[i].1) != RoadKey(b.roads[j].0, b.roads[j].1)
  }

  /** The text of every road's mirror image is the text of a road, in 2v2 of another one. */
  ghost predicate TextsClosed(b: Battlefield) {
    forall i :: 0 <= i < |b.roads| ==> TextMirrored(b, i)
  }

  ghost predicate TextMirrored(b: Battlefield, i: nat)
    requires i < |b.roads|
  {
    exists j :: 0 <= j < |b.roads| && TextMirrors(b, i, j)
  }

  predicate TextMirrors(b: Battlefield, i: nat, j: nat)
    requires i < |b.roads| && j < |b.roads|
  {
    && RoadKey(b.roads[j].0, b.roads[j].1) == RoadKey(Mirror(b, b.roads[i].0), Mirror(b, b.roads[i].1))
    && (b.mode == TwoVsTwo ==> RoadKey(b.roads[j].0, b.roads[j].1) != RoadKey(b.roads[i].0, b.roads[i].1))
  }

  ghost function HeldIds(ts: seq<Terrain>, team: Team): set<Id> {
    set i | 0 <= i < |ts| && ts[i].owner == team :: ts[i].id
  }

  /** Each side starts with exactly its bases; the four of a 2v2 are fortresses of tier three. */
  ghost predicate GoodBases(b: Battlefield) {
    var ts := b.terrains;
    match b.mode
    case OneVsOne => HeldIds(ts, Player) == {"p_base"} && HeldIds(ts, Enemy) == {"e_base"}
    case TwoVsTwo =>
      && HeldIds(ts, Player) == {"a_base_e", "a_base_w"} && HeldIds(ts, Enemy) == {"b_base_e", "b_base_w"}
      && forall i :: 0 <= i < |ts| && ts[i].owner != Neutral ==> ts[i].tier == 3 && ts[i].kind == Fortress
    case OtherMode => false
  }

  /** The two bases of a 1v1 face each other along the vertical axis. */
  ghost predicate OnAxis(b: Battlefield) {
    var ts := b.terrains;
    b.mode == OneVsOne ==> forall i, j ::
      0 <= i < |ts| && 0 <= j < |ts| && ts[i].owner == Player && ts[j].owner == Enemy ==>
      ts[i].x == ts[j].x && ts[i].y + ts[j].y == 720.0
  }

  lemma {:induction false} NoIdFault(b: Battlefield, i: nat)
    requires i <= |b.terrains|
    ensures FirstIdFault(b, i) == None <==> forall k :: i <= k < |b.terrains| ==> IdFault(b.terrains, k) == None
    decreases |b.terrains| - i
  {
    hide IdFault;
    if i < |b.terrains| {
      NoIdFault(b, i + 1);
    }
  }

  lemma {:induction false} NoRoadFault(b: Battlefield, i: nat)
    requires i <= |b.roads|
    ensures FirstRoadFault(b, i) == None <==> forall k :: i <= k < |b.roads| ==> RoadFault(b, k) == None
    decreases |b.roads| - i
  {
    hide RoadFault;
    if i < |b.roads| {
      NoRoadFault(b, i + 1);
    }
  }

  lemma {:induction false} NoBoundsFault(b: Battlefield, i: nat)
    requires i <= |b.terrains|
    ensures FirstBoundsFault(b, i) == None <==> forall k :: i <= k < |b.terrains| ==> InBounds(b.terrains[k])
    decreases |b.terrains| - i
  {
    hide InBounds;
    if i < |b.terrains| {
      NoBoundsFault(b, i + 1);
    }
  }

  lemma {:induction false} NoSymmetryFault(b: Battlefield, i: nat)
    requires i <= |b.terrains|
    ensures FirstSymmetryFault(b, i) == None <==> forall k :: i <= k < |b.terrains| ==> MirroredAt(b, k)
    decreases |b.terrains| - i
  {
    hide Matches, SameAttributes, MapTeam;
    if i < |b.terrains| {
      NoSymmetryFault(b, i + 1);
      assert SymmetryFault(b, i) == None <==> MirroredAt(b, i);
    }
  }

  lemma {:induction false} NoClosureFault(b: Battlefield, i: nat)
    requires i <= |b.roads|
    ensures FirstClosureFault(b, i) == None <==> forall k :: i <= k < |b.roads| ==> ClosureFault(b, k) == None
    decreases |b.roads| - i
  {
    hide ClosureFault;
    if i < |b.roads| {
      NoClosureFault(b, i + 1);
    }
  }

  lemma IdsIff(ts: seq<Terrain>)
    ensures (forall k :: 0 <= k < |ts| ==> IdFault(ts, k) == None) <==>
      DistinctIds(ts) && forall k :: 0 <= k < |ts| ==> ts[k].id != ""
  {
    if forall k :: 0 <= k < |ts| ==> IdFault(ts, k) == None {
      forall i, j | 0 <= i < j < |ts| ensures ts[i].id != ts[j].id {
        assert IdFault(ts, j) == None && ts[..j][i] == ts[i];
      }
      forall k | 0 <= k < |ts| ensures ts[k].id != "" {
        assert IdFault(ts, k) == None;
      }
    }
  }

  lemma RoadsIff(b: Battlefield)
    ensures (forall k :: 0 <= k < |b.roads| ==> RoadFault(b, k) == None) <==> GoodRoads(b)
  {
    hide RoadKey, Named;
    var roads := b.roads;
    if forall k :: 0 <= k < |roads| ==> RoadFault(b, k) == None {
      forall i, j | 0 <= i < j < |roads| ensures RoadKey(roads[i].0, roads[i].1) != RoadKey(roads[j].0, roads[j].1) {
        assert RoadFault(b, j) == None && roads[..j][i] == roads[i];
      }
      forall k | 0 <= k < |roads| ensures roads[k].0 != roads[k].1 && Named(b.terrains, roads[k].0)
        && Named(b.terrains, roads[k].1) {
        assert RoadFault(b, k) == None;
      }
    }
  }

  lemma {:induction false} OwnedAre(ts: seq<Terrain>, team: Team)
    ensures forall u :: u in Owned(ts, team) <==> u in ts && u.owner == team
  {
    if ts != [] {
      OwnedAre(ts[..|ts| - 1], team);
      assert ts == ts[..|ts| - 1] + [ts[|ts| - 1]];
    }
  }

  lemma {:induction false} OwnedDistinct(ts: seq<Terrain>, team: Team)
    requires DistinctIds(ts)
    ensures Distinct(Ids(Owned(ts, team)))
  {
    if ts != [] {
      var front, last := ts[..|ts| - 1], ts[|ts| - 1];
      OwnedDistinct(front, team);
      OwnedAre(front, team);
      var held, all := Owned(front, team), Owned(ts, team);
      forall i, j | 0 <= i < j < |all| ensures Ids(all)[i] != Ids(all)[j] {
        if j < |held| {
          assert Ids(held)[i] != Ids(held)[j];
        } else {
          assert held[i] in front;
        }
      }
    }
  }

  /** The side's ids are these exactly when the list of them has these elements. */
  lemma HeldIdsAre(ts: seq<Terrain>, team: Team)
    ensures forall id :: id in HeldIds(ts, team) <==> id in Ids(Owned(ts, team))
  {
    OwnedAre(ts, team);
    var owned := Owned(ts, team);
    forall id ensures id in HeldIds(ts, team) <==> id in Ids(owned) {
      if id in HeldIds(ts, team) {
        var i :| 0 <= i < |ts| && ts[i].owner == team && ts[i].id == id;
        assert ts[i] in owned;
        var k :| 0 <= k < |owned| && owned[k] == ts[i];
        assert Ids(owned)[k] == id;
      }
      if id in Ids(owned) {
        var k :| 0 <= k < |owned| && Ids(owned)[k] == id;
        assert owned[k] in ts;
      }
    }
  }

  lemma OneId(ids: seq<Id>, a: Id)
    requires Distinct(ids)
    ensures ids == [a] <==> forall id :: id in ids <==> id in {a}
  {
    if forall id :: id in ids <==> id in {a} {
      assert ids != [] by { assert a in ids; }
      assert ids[0] in ids;
      assert |ids| >= 2 ==> ids[1] in ids && ids[0] != ids[1];
    }
  }

  lemma ThirdDiffers(ids: seq<Id>, a: Id, c: Id)
    requires Distinct(ids)
    ensures |ids| > 2 ==> exists id :: id in ids && id != a && id != c
  {
    if |ids| > 2 {
      assert ids[0] != ids[1] && ids[0] != ids[2] && ids[1] != ids[2];
      var k := if ids[0] != a && ids[0] != c then 0 else if ids[1] != a && ids[1] != c then 1 else 2;
      assert ids[k] in ids;
    }
  }

  lemma PairOnce(ids: seq<Id>, a: Id, c: Id)
    requires Distinct(ids) && a != c && forall id :: id in ids <==> id in {a, c}
    ensures ids == [a, c] || ids == [c, a]
  {
    ThirdDiffers(ids, a, c);
    assert a in ids && c in ids;
    var i :| 0 <= i < |ids| && ids[i] == a;
    var j :| 0 <= j < |ids| && ids[j] == c;
    assert ids[0] in ids && ids[1] in ids;
  }

  lemma TwoIds(ids: seq<Id>, a: Id, c: Id)
    requires Distinct(ids) && AtMost(a, c) && !AtMost(c, a)
    ensures Sort(AtMost, ids) == [a, c] <==> forall id :: id in ids <==> id in {a, c}
  {
    hide AtMost, Sort;
    SameElements(Sort(AtMost, ids), ids);
    assert Sort(AtMost, ids) == [a, c] ==> forall id :: id in ids <==> id in [a, c];
    if forall id :: id in ids <==> id in {a, c} {
      hide Distinct;
      PairOnce(ids, a, c);
      assert multiset([a, c]) == multiset([c, a]);
      SortedPair(a, c, ids);
    }
  }

  lemma SortedPair(a: Id, c: Id, ids: seq<Id>)
    requires multiset([a, c]) == multiset(Sort(AtMost, ids)) && AtMost(a, c) && !AtMost(c, a)
    ensures Sort(AtMost, ids) == [a, c]
  {
    hide AtMost, Sort;
    TextOrder();
    SortSorted(AtMost, ids);
    SortedUnique(AtMost, [a, c], Sort(AtMost, ids));
  }

  lemma BaseNames()
    ensures AtMost("a_base_e", "a_base_w") && !AtMost("a_base_w", "a_base_e")
    ensures AtMost("b_base_e", "b_base_w") && !AtMost("b_base_w", "b_base_e")
  {
    assert !AtMost("w", "e") && AtMost("e", "w");
    assert "a_base_e" == "a_base_" + "e" && "a_base_w" == "a_base_" + "w";
    assert "b_base_e" == "b_base_" + "e" && "b_base_w" == "b_base_" + "w";
    SharedHead("a_base_", "e", "w");
    SharedHead("a_base_", "w", "e");
    SharedHead("b_base_", "e", "w");
    SharedHead("b_base_", "w", "e");
  }

  lemma FortressesIff(ts: seq<Terrain>)
    ensures AllFortresses(Owned(ts, Player) + Owned(ts, Enemy)) <==>
      forall i :: 0 <= i < |ts| && ts[i].owner != Neutral ==> ts[i].tier == 3 && ts[i].kind == Fortress
  {
    OwnedAre(ts, Player);
    OwnedAre(ts, Enemy);
    var bases := Owned(ts, Player) + Owned(ts, Enemy);
    assert forall u :: u in bases <==> u in ts && u.owner != Neutral;
    if AllFortresses(bases) {
      forall i | 0 <= i < |ts| && ts[i].owner != Neutral ensures ts[i].tier == 3 && ts[i].kind == Fortress {
        assert ts[i] in bases;
      }
    }
    if forall i :: 0 <= i < |ts| && ts[i].owner != Neutral ==> ts[i].tier == 3 && ts[i].kind == Fortress {
      forall k | 0 <= k < |bases| ensures bases[k].tier == 3 && bases[k].kind == Fortress {
        assert bases[k] in bases;
      }
    }
  }

  lemma BasesIff(b: Battlefield)
    requires DistinctIds(b.terrains)
    ensures BasesFault(b) == None <==> GoodBases(b)
  {
    hide AtMost, Sort, AllFortresses, DistinctIds, Owned, HeldIds, Ids;
    var player, enemy := Ids(Owned(b.terrains, Player)), Ids(Owned(b.terrains, Enemy));
    OwnedDistinct(b.terrains, Player);
    OwnedDistinct(b.terrains, Enemy);
    HeldIdsAre(b.terrains, Player);
    HeldIdsAre(b.terrains, Enemy);
    if b.mode == OneVsOne {
      OneId(player, "p_base");
      OneId(enemy, "e_base");
    } else if b.mode == TwoVsTwo {
      BaseNames();
      TwoIds(player, "a_base_e", "a_base_w");
      TwoIds(enemy, "b_base_e", "b_base_w");
      FortressesIff(b.terrains);
    }
  }

  lemma AxisIff(b: Battlefield)
    requires BasesFault(b) == None
    ensures AxisFault(b) == None <==> OnAxis(b)
  {
    hide Owned;
    var ts := b.terrains;
    var player, enemy := Owned(ts, Player), Owned(ts, Enemy);
    OwnedAre(ts, Player);
    OwnedAre(ts, Enemy);
    if b.mode == OneVsOne {
      assert |player| == 1 && |enemy| == 1 by { assert |Ids(player)| == 1 && |Ids(enemy)| == 1; }
      assert player[0] in player && enemy[0] in enemy;
      forall i | 0 <= i < |ts| ensures
        (ts[i].owner == Player ==> ts[i] == player[0]) && (ts[i].owner == Enemy ==> ts[i] == enemy[0])
      {
        assert ts[i] in ts;
      }
      var i :| 0 <= i < |ts| && ts[i] == player[0];
      var j :| 0 <= j < |ts| && ts[j] == enemy[0];
    }
  }

  lemma ClosureIff(b: Battlefield)
    ensures (forall i :: 0 <= i < |b.roads| ==> ClosureFault(b, i) == None) <==> TextsClosed(b)
  {
    hide RoadKey, Mirror;
    forall i | 0 <= i < |b.roads| ensures ClosureFault(b, i) == None <==> TextMirrored(b, i) {
      if ClosureFault(b, i) == None {
        var key := RoadKey(Mirror(b, b.roads[i].0), Mirror(b, b.roads[i].1));
        var j :| 0 <= j < |b.roads| && RoadKey(b.roads[j].0, b.roads[j].1) == key;
        assert TextMirrors(b, i, j);
      }
    }
  }

  lemma NeutralIff(ts: seq<Terrain>)
    ensures Owned(ts, Neutral) != [] <==> exists k :: 0 <= k < |ts| && ts[k].owner == Neutral
  {
    OwnedAre(ts, Neutral);
    if Owned(ts, Neutral) != [] {
      assert Owned(ts, Neutral)[0] in ts;
    }
    if k :| 0 <= k < |ts| && ts[k].owner == Neutral {
      assert ts[k] in Owned(ts, Neutral);
    }
  }

  /** Exactly which battlefields are accepted. */
  lemma AcceptedIff(b: Battlefield)
    ensures Validate(b) == None <==>
      && b.id != "" && DistinctIds(b.terrains) && (forall k :: 0 <= k < |b.terrains| ==> b.terrains[k].id != "")
      && GoodBases(b) && (exists k :: 0 <= k < |b.terrains| && b.terrains[k].owner == Neutral) && GoodRoads(b)
      && (forall k :: 0 <= k < |b.terrains| ==> InBounds(b.terrains[k]))
      && OnAxis(b) && Mirrored(b) && TextsClosed(b)
  {
    hide DistinctIds, BasesFault, GoodBases, Owned, GoodRoads, InBounds, AxisFault, OnAxis, MirroredAt, ClosureFault,
      TextsClosed;
    hide IdFault, RoadFault;
    NoIdFault(b, 0);
    IdsIff(b.terrains);
    if DistinctIds(b.terrains) {
      BasesIff(b);
    }
    if BasesFault(b) == None {
      AxisIff(b);
    }
    NeutralIff(b.terrains);
    NoRoadFault(b, 0);
    RoadsIff(b);
    NoBoundsFault(b, 0);
    NoSymmetryFault(b, 0);
    NoClosureFault(b, 0);
    ClosureIff(b);
  }

  // ----- The mirror of the towers

  lemma {:induction false} MatchesAre(ts: seq<Terrain>, t: Terrain)
    ensures forall u :: u in Matches(ts, t) <==> u in ts && Opposite(t, u)
  {
    hide Opposite;
    if ts != [] {
      MatchesAre(ts[..|ts| - 1], t);
      assert ts == ts[..|ts| - 1] + [ts[|ts| - 1]];
    }
  }

  lemma OppositeBothWays(t: Terrain, u: Terrain)
    ensures Opposite(t, u) <==> Opposite(u, t)
  {
  }

  lemma {:induction false} LookupFinds(ts: seq<Terrain>, t: Terrain)
    requires DistinctIds(ts) && t in ts
    ensures Lookup(ts, t.id) == Some(t)
  {
    var last := ts[|ts| - 1];
    var i :| 0 <= i < |ts| && ts[i] == t;
    if i < |ts| - 1 {
      assert t in ts[..|ts| - 1] && t.id != last.id;
      LookupFinds(ts[..|ts| - 1], t);
    }
  }

  lemma MirrorOf(b: Battlefield, t: Terrain) returns (u: Terrain)
    requires DistinctIds(b.terrains) && Mirrored(b) && t in b.terrains
    ensures u in b.terrains && Matches(b.terrains, t) == [u] && Mirror(b, t.id) == u.id && Matches(b.terrains, u) == [t]
    ensures u.owner == MapTeam(t.owner, Enemy) && SameAttributes(t, u)
  {
    hide Opposite, SameAttributes, MapTeam;
    var i :| 0 <= i < |b.terrains| && b.terrains[i] == t;
    assert MirroredAt(b, i);
    u := Matches(b.terrains, t)[0];
    MatchesAre(b.terrains, t);
    LookupFinds(b.terrains, t);
    assert u in Matches(b.terrains, t);
    OppositeBothWays(t, u);
    var j :| 0 <= j < |b.terrains| && b.terrains[j] == u;
    assert MirroredAt(b, j);
    MatchesAre(b.terrains, u);
    assert t in Matches(b.terrains, u);
  }

  /** Every accepted battlefield has a mirror: an involution of its towers that exchanges the sides
      and keeps all other attributes. */
  lemma MirrorIsInvolution(b: Battlefield, t: Terrain)
    requires Validate(b) == None && t in b.terrains
    ensures Mirror(b, Mirror(b, t.id)) == t.id
    ensures
      var u := Lookup(b.terrains, Mirror(b, t.id));
      && u.Some? && u.value in b.terrains && Opposite(t, u.value)
      && u.value.owner == MapTeam(t.owner, Enemy) && SameAttributes(t, u.value)
  {
    hide Validate, Matches, Opposite, SameAttributes, MapTeam, Lookup, Mirror;
    AcceptedIff(b);
    var u := MirrorOf(b, t);
    var v := MirrorOf(b, u);
    assert v == t;
    LookupFinds(b.terrains, u);
    MatchesAre(b.terrains, t);
    assert u in Matches(b.terrains, t);
  }

  // ----- The mirror of the roads

  predicate Linked(b: Battlefield, x: Id, y: Id) {
    exists i :: 0 <= i < |b.roads| && (b.roads[i] == (x, y) || b.roads[i] == (y, x))
  }

  predicate SamePair(p: (Id, Id), q: (Id, Id)) {
    p == q || p == (q.1, q.0)
  }

  /** The mirror carries roads to roads and non-roads to non-roads. */
  ghost predicate RoadsMirrored(b: Battlefield) {
    forall x, y :: Named(b.terrains, x) && Named(b.terrains, y) ==>
      (Linked(b, x, y) <==> Linked(b, Mirror(b, x), Mirror(b, y)))
  }

  /** A road with the text of a road's mirror image is that mirror image. */
  ghost predicate KeysTell(b: Battlefield) {
    forall i, j :: 0 <= i < |b.roads| && 0 <= j < |b.roads| ==> KeysTellAt(b, i, j)
  }

  ghost predicate KeysTellAt(b: Battlefield, i: nat, j: nat)
    requires i < |b.roads| && j < |b.roads|
  {
    var m := (Mirror(b, b.roads[i].0), Mirror(b, b.roads[i].1));
    RoadKey(b.roads[j].0, b.roads[j].1) == RoadKey(m.0, m.1) ==> SamePair(b.roads[j], m)
  }

  lemma RoadKeyUnordered(x: Id, y: Id)
    ensures RoadKey(x, y) == RoadKey(y, x)
  {
    AtMostTotal(x, y);
  }

  lemma NamedTerrain(b: Battlefield, x: Id) returns (t: Terrain)
    requires Named(b.terrains, x)
    ensures t in b.terrains && t.id == x
  {
    var i :| 0 <= i < |b.terrains| && b.terrains[i].id == x;
    t := b.terrains[i];
  }

  lemma MirrorNamed(b: Battlefield, x: Id)
    requires Validate(b) == None && Named(b.terrains, x)
    ensures Named(b.terrains, Mirror(b, x)) && Mirror(b, Mirror(b, x)) == x
  {
    hide Validate, Matches, Mirror;
    var t := NamedTerrain(b, x);
    AcceptedIff(b);
    var u := MirrorOf(b, t);
    MirrorIsInvolution(b, t);
    var i :| 0 <= i < |b.terrains| && b.terrains[i] == u;
  }

  lemma RoadImage(b: Battlefield, x: Id, y: Id)
    requires GoodRoads(b) && TextsClosed(b) && KeysTell(b) && Linked(b, x, y)
    ensures Linked(b, Mirror(b, x), Mirror(b, y))
  {
    hide Mirror, RoadKey, GoodRoads;
    var i :| 0 <= i < |b.roads| && (b.roads[i] == (x, y) || b.roads[i] == (y, x));
    assert TextMirrored(b, i);
    var j :| 0 <= j < |b.roads| && TextMirrors(b, i, j);
    assert KeysTellAt(b, i, j);
  }

  lemma RoadsNamed(b: Battlefield, x: Id, y: Id)
    requires GoodRoads(b) && Linked(b, x, y)
    ensures Named(b.terrains, x) && Named(b.terrains, y)
  {
    hide RoadKey, Named;
  }

  /** The mirror of an accepted battlefield is an automorphism of its roads exactly when no road has
      the text of another road's mirror image. */
  lemma RoadsMirroredIff(b: Battlefield)
    requires Validate(b) == None
    ensures RoadsMirrored(b) <==> KeysTell(b)
  {
    hide Validate, Mirror, Matches, RoadKey, Named, KeysTellAt, Road;
    AcceptedIff(b);
    if KeysTell(b) {
      forall x, y | Named(b.terrains, x) && Named(b.terrains, y)
        ensures Linked(b, x, y) <==> Linked(b, Mirror(b, x), Mirror(b, y))
      {
        MirrorNamed(b, x);
        MirrorNamed(b, y);
        if Linked(b, x, y) {
          RoadImage(b, x, y);
        }
        if Linked(b, Mirror(b, x), Mirror(b, y)) {
          RoadImage(b, Mirror(b, x), Mirror(b, y));
        }
      }
    }
    if RoadsMirrored(b) {
      forall i, j | 0 <= i < |b.roads| && 0 <= j < |b.roads| ensures KeysTellAt(b, i, j) {
        ImageTells(b, i, j);
      }
    }
  }

  lemma SameKeySameRoad(b: Battlefield, k: nat, j: nat)
    requires GoodRoads(b) && k < |b.roads| && j < |b.roads|
    requires RoadKey(b.roads[k].0, b.roads[k].1) == RoadKey(b.roads[j].0, b.roads[j].1)
    ensures k == j
  {
    hide RoadKey, Named;
  }

  lemma ImageTells(b: Battlefield, i: nat, j: nat)
    requires GoodRoads(b) && RoadsMirrored(b) && i < |b.roads| && j < |b.roads|
    ensures KeysTellAt(b, i, j)
  {
    hide Mirror, RoadKey, GoodRoads, Named;
    var (x, y) := b.roads[i];
    assert Linked(b, x, y);
    RoadsNamed(b, x, y);
    var m := (Mirror(b, x), Mirror(b, y));
    var k :| 0 <= k < |b.roads| && (b.roads[k] == m || b.roads[k] == (m.1, m.0));
    RoadKeyUnordered(m.0, m.1);
    if RoadKey(b.roads[j].0, b.roads[j].1) == RoadKey(m.0, m.1) {
      SameKeySameRoad(b, k, j);
    }
  }

  // ----- Texts that tell roads apart

  /** The separator occurs in the text at position `k`. */
  predicate ArrowAt(s: string, k: nat) {
    k + 3 <= |s| && s[k] == '<' && s[k + 1] == '-' && s[k + 2] == '>'
  }

  predicate HasArrow(s: string) {
    exists k :: 0 <= k < |s| && ArrowAt(s, k)
  }

  lemma FirstArrow(x: string, y: string, k: nat)
    requires !HasArrow(x) && k < |x|
    ensures !ArrowAt(x + "<->" + y, k) && ArrowAt(x + "<->" + y, |x|)
  {
    var s := x + "<->" + y;
    assert s[|x|] == '<' && s[|x| + 1] == '-' && s[|x| + 2] == '>';
    assert forall i :: 0 <= i < |x| ==> s[i] == x[i];
    assert k + 3 <= |x| ==> (ArrowAt(s, k) <==> ArrowAt(x, k));
  }

  lemma SplitUnique(x: string, y: string, v: string, w: string)
    requires !HasArrow(x) && !HasArrow(v) && x + "<->" + y == v + "<->" + w
    ensures x == v && y == w
  {
    var s := x + "<->" + y;
    assert ArrowAt(s, |x|) && ArrowAt(s, |v|) by {
      assert s[|x|] == '<' && s[|x| + 1] == '-' && s[|x| + 2] == '>';
      assert (v + "<->" + w)[|v|] == '<' && (v + "<->" + w)[|v| + 1] == '-' && (v + "<->" + w)[|v| + 2] == '>';
    }
    if |v| < |x| {
      FirstArrow(x, y, |v|);
    } else if |x| < |v| {
      FirstArrow(v, w, |x|);
    }
    assert |x| == |v|;
    assert x == s[..|x|] && v == (v + "<->" + w)[..|v|];
    assert y == s[|x| + 3..] && w == (v + "<->" + w)[|v| + 3..];
  }

  ghost predicate PlainIds(b: Battlefield) {
    forall i :: 0 <= i < |b.terrains| ==> !HasArrow(b.terrains[i].id)
  }

  /** Ids free of the separator are enough: then the mirror is an automorphism of the roads. */
  lemma PlainIdsTell(b: Battlefield)
    requires Validate(b) == None && PlainIds(b)
    ensures KeysTell(b) && RoadsMirrored(b)
  {
    hide Validate, Mirror, Matches, HasArrow, AtMost, RoadsMirrored;
    AcceptedIff(b);
    forall i, j | 0 <= i < |b.roads| && 0 <= j < |b.roads| ensures KeysTellAt(b, i, j) {
      var m := (Mirror(b, b.roads[i].0), Mirror(b, b.roads[i].1));
      MirrorNamed(b, b.roads[i].0);
      MirrorNamed(b, b.roads[i].1);
      PlainPair(b, b.roads[j].0, b.roads[j].1, m.0, m.1);
    }
    RoadsMirroredIff(b);
  }

  lemma PlainPair(b: Battlefield, x: Id, y: Id, v: Id, w: Id)
    requires PlainIds(b) && Named(b.terrains, x) && Named(b.terrains, y) && Named(b.terrains, v) && Named(b.terrains, w)
    ensures RoadKey(x, y) == RoadKey(v, w) ==> SamePair((x, y), (v, w))
  {
    hide AtMost, HasArrow;
    if RoadKey(x, y) == RoadKey(v, w) {
      var (a, c) := if AtMost(x, y) then (x, y) else (y, x);
      var (p, q) := if AtMost(v, w) then (v, w) else (w, v);
      SplitUnique(a, c, p, q);
    }
  }

  /** In an accepted 2v2 battlefield no road is its own mirror image. */
  lemma NoSelfMirroredRoad(b: Battlefield, x: Id, y: Id)
    requires Validate(b) == None && b.mode == TwoVsTwo && Linked(b, x, y)
    ensures !SamePair((x, y), (Mirror(b, x), Mirror(b, y)))
  {
    hide Validate, Mirror, Matches, RoadKey, GoodRoads, KeySeen;
    AcceptedIff(b);
    var i :| 0 <= i < |b.roads| && (b.roads[i] == (x, y) || b.roads[i] == (y, x));
    assert TextMirrored(b, i);
    var j :| 0 <= j < |b.roads| && TextMirrors(b, i, j);
    RoadKeyUnordered(x, y);
    RoadKeyUnordered(Mirror(b, x), Mirror(b, y));
  }

  // ----- Texts that do not

  lemma {:induction false} MatchesOne(ts: seq<Terrain>, t: Terrain, i: nat)
    requires i < |ts| && Opposite(t, ts[i]) && forall j :: 0 <= j < |ts| && j != i ==> !Opposite(t, ts[j])
    ensures Matches(ts, t) == [ts[i]]
  {
    hide Opposite;
    var front := ts[..|ts| - 1];
    if i == |ts| - 1 {
      MatchesNone(front, t);
    } else {
      MatchesOne(front, t, i);
    }
  }

  lemma {:induction false} MatchesNone(ts: seq<Terrain>, t: Terrain)
    requires forall j :: 0 <= j < |ts| ==> !Opposite(t, ts[j])
    ensures Matches(ts, t) == []
  {
    hide Opposite;
    if ts != [] {
      MatchesNone(ts[..|ts| - 1], t);
    }
  }

  function Tower(id: Id, x: real, y: real, owner: Team): Terrain {
    Terrain(id, x, y, 20.0, owner, 10, 50, 1.0, 1, Plain)
  }

  /** Six towers and one road, from x to y<->z. Its mirror image runs from x<->y to z and has the
      same text. */
  const TWISTED := Battlefield("twisted", OneVsOne, [
    Tower("p_base", 200.0, 600.0, Player), Tower("e_base", 200.0, 120.0, Enemy),
    Tower("x", 100.0, 300.0, Neutral), Tower("x<->y", 300.0, 420.0, Neutral),
    Tower("y<->z", 100.0, 420.0, Neutral), Tower("z", 300.0, 300.0, Neutral)], [("x", "y<->z")])

  lemma TwistedMirror(i: nat, j: nat)
    requires i < 6 && j == (if i % 2 == 0 then i + 1 else i - 1)
    ensures Matches(TWISTED.terrains, TWISTED.terrains[i]) == [TWISTED.terrains[j]] && MirroredAt(TWISTED, i)
  {
    hide Matches;
    MatchesOne(TWISTED.terrains, TWISTED.terrains[i], j);
  }

  lemma TwistedBases()
    ensures GoodBases(TWISTED) && OnAxis(TWISTED)
  {
    var ts := TWISTED.terrains;
    assert ts[0].id == "p_base" && ts[1].id == "e_base";
    assert HeldIds(ts, Player) == {"p_base"} && HeldIds(ts, Enemy) == {"e_base"};
  }

  lemma TwistedLookup(i: nat)
    requires i < 6
    ensures DistinctIds(TWISTED.terrains) && Lookup(TWISTED.terrains, TWISTED.terrains[i].id) ==
      Some(TWISTED.terrains[i])
  {
    LookupFinds(TWISTED.terrains, TWISTED.terrains[i]);
  }

  lemma TwistedTowers()
    ensures DistinctIds(TWISTED.terrains) && TWISTED.terrains[2].owner == Neutral
    ensures forall k :: 0 <= k < |TWISTED.terrains| ==> TWISTED.terrains[k].id != "" && InBounds(TWISTED.terrains[k])
  {
  }

  lemma TwistedMirrors()
    ensures Mirrored(TWISTED) && Mirror(TWISTED, "x") == "x<->y" && Mirror(TWISTED, "y<->z") == "z"
  {
    hide Matches, Lookup, Opposite, MirroredAt, DistinctIds;
    TwistedMirror(2, 3);
    TwistedMirror(4, 5);
    TwistedLookup(2);
    TwistedLookup(4);
    forall i | 0 <= i < 6 ensures MirroredAt(TWISTED, i) {
      TwistedMirror(i, if i % 2 == 0 then i + 1 else i - 1);
    }
  }

  lemma TwistedAccepted()
    ensures Validate(TWISTED) == None
    ensures Mirror(TWISTED, "x") == "x<->y" && Mirror(TWISTED, "y<->z") == "z"
  {
    hide Validate, DistinctIds, GoodBases, GoodRoads, InBounds, OnAxis, Mirrored, Mirror, RoadKey;
    TwistedTowers();
    TwistedMirrors();
    TwistedBases();
    TwistedTexts();
    TwistedRoads();
    assert TextMirrors(TWISTED, 0, 0);
    AcceptedIff(TWISTED);
  }

  lemma TwistedTexts()
    ensures RoadKey("x", "y<->z") == RoadKey("x<->y", "z") == "x<->y<->z"
  {
  }

  lemma TwistedRoads()
    ensures GoodRoads(TWISTED)
  {
    assert TWISTED.terrains[2].id == "x" && TWISTED.terrains[4].id == "y<->z";
  }

  /** Without such a condition the mirror need not be one of the roads: this battlefield is accepted,
      and its only road has no mirror image. */
  lemma TwistedRoadUnmirrored()
    ensures Validate(TWISTED) == None
    ensures Linked(TWISTED, "x", "y<->z") && !Linked(TWISTED, Mirror(TWISTED, "x"), Mirror(TWISTED, "y<->z"))
  {
    TwistedAccepted();
    assert TWISTED.roads[0] == ("x", "y<->z");
  }
}
