/** The loops of the battlefield validator, proved to report the first fault. */
module BattlefieldChecks {
  import opened Text
  import opened Sorting
  import opened World
  import opened Battlefields

  method CheckIds(b: Battlefield) returns (fault: Option<Fault>, byId: map<Id, Terrain>)
    ensures fault == FirstIdFault(b, 0)
    ensures fault == None ==> forall id :: Lookup(b.terrains, id) == if id in byId then Some(byId[id]) else None
  {
    hide Named;
    var ts := b.terrains;
    byId := map[];
    NobodyNamed();
    assert ts[..0] == [];
    for i := 0 to |ts|
      invariant FirstIdFault(b, i) == FirstIdFault(b, 0)
      invariant forall id :: Lookup(ts[..i], id) == if id in byId then Some(byId[id]) else None
      invariant forall id :: id in byId <==> Named(ts[..i], id)
    {
      assert ts[..i + 1][..i] == ts[..i];
      NamedMore(ts, i);
      if ts[i].id == "" {
        return Some(EmptyId), byId;
      }
      if ts[i].id in byId {
        return Some(DuplicateId), byId;
      }
      byId := byId[ts[i].id := ts[i]];
    }
    assert ts[..|ts|] == ts;
    return None, byId;
  }

  lemma NobodyNamed()
    ensures forall id :: !Named([], id)
  {
  }

  lemma NamedMore(ts: seq<Terrain>, i: nat)
    requires i < |ts|
    ensures forall id :: Named(ts[..i + 1], id) <==> Named(ts[..i], id) || id == ts[i].id
  {
    var front, all := ts[..i], ts[..i + 1];
    forall id ensures Named(all, id) <==> Named(front, id) || id == ts[i].id {
      assert all[i] == ts[i] && forall k :: 0 <= k < i ==> front[k] == all[k];
    }
  }

  method OwnedBy(ts: seq<Terrain>, team: Team) returns (owned: seq<Terrain>)
    ensures owned == Owned(ts, team)
  {
    owned := [];
    for i := 0 to |ts|
      invariant owned == Owned(ts[..i], team)
    {
      assert ts[..i + 1][..i] == ts[..i] && owned + [] == owned;
      if ts[i].owner == team {
        owned := owned + [ts[i]];
      }
    }
    assert ts[..|ts|] == ts;
  }

  method IdsOf(ts: seq<Terrain>) returns (ids: seq<Id>)
    ensures ids == Ids(ts)
  {
    ids := [];
    for i := 0 to |ts|
      invariant |ids| == i && forall k :: 0 <= k < i ==> ids[k] == ts[k].id
    {
      ids := ids + [ts[i].id];
    }
  }

  method OnlyBase(ts: seq<Terrain>, id: Id) returns (ok: bool)
    ensures ok <==> Ids(ts) == [id]
  {
    return |ts| == 1 && ts[0].id == id;
  }

  method TwoBases(ts: seq<Terrain>, first: Id, second: Id) returns (ok: bool)
    ensures ok <==> Sort(AtMost, Ids(ts)) == [first, second]
  {
    hide Sort, AtMost;
    var ids := IdsOf(ts);
    var sorted := Sort(AtMost, ids);
    ok := |sorted| == 2 && sorted[0] == first && sorted[1] == second;
  }

  method CheckFortresses(spawns: seq<Terrain>) returns (ok: bool)
    ensures ok <==> AllFortresses(spawns)
  {
    for i := 0 to |spawns|
      invariant forall k :: 0 <= k < i ==> spawns[k].tier == 3 && spawns[k].kind == Fortress
    {
      if spawns[i].tier != 3 || spawns[i].kind != Fortress {
        return false;
      }
    }
    return true;
  }

  method CheckBases(b: Battlefield, player: seq<Terrain>, enemy: seq<Terrain>) returns (fault: Option<Fault>)
    requires player == Owned(b.terrains, Player) && enemy == Owned(b.terrains, Enemy)
    ensures fault == BasesFault(b)
  {
    hide Owned, Sort, AtMost, Ids, AllFortresses;
    match b.mode {
      case OneVsOne =>
        var playerOk := OnlyBase(player, "p_base");
        var enemyOk := OnlyBase(enemy, "e_base");
        return if playerOk && enemyOk then None else Some(BadBases);
      case TwoVsTwo =>
        var playerOk := TwoBases(player, "a_base_e", "a_base_w");
        var enemyOk := TwoBases(enemy, "b_base_e", "b_base_w");
        if !playerOk || !enemyOk {
          return Some(BadBases);
        }
        var fortresses := CheckFortresses(player + enemy);
        return if fortresses then None else Some(BadFortress);
      case OtherMode =>
        return Some(BadMode);
    }
  }

  method CheckRoads(b: Battlefield, byId: map<Id, Terrain>) returns (fault: Option<Fault>, seen: set<string>)
    requires forall id :: id in byId <==> Named(b.terrains, id)
    ensures fault == FirstRoadFault(b, 0)
    ensures fault == None ==> forall key :: key in seen <==> KeySeen(b.roads, key)
  {
    hide Named, RoadKey;
    seen := {};
    NoKeys();
    assert b.roads[..0] == [];
    for i := 0 to |b.roads|
      invariant FirstRoadFault(b, i) == FirstRoadFault(b, 0)
      invariant forall key :: key in seen <==> KeySeen(b.roads[..i], key)
    {
      var (x, y) := b.roads[i];
      KeysMore(b.roads, i);
      if x !in byId || y !in byId {
        return Some(RoadEndpoint), seen;
      }
      if x == y {
        return Some(SelfRoad), seen;
      }
      var key := RoadKey(x, y);
      if key in seen {
        return Some(DuplicateRoad), seen;
      }
      seen := seen + {key};
    }
    assert b.roads[..|b.roads|] == b.roads;
    return None, seen;
  }

  lemma NoKeys()
    ensures forall key :: !KeySeen([], key)
  {
  }

  lemma KeysMore(roads: seq<(Id, Id)>, i: nat)
    requires i < |roads|
    ensures forall key :: KeySeen(roads[..i + 1], key) <==>
      KeySeen(roads[..i], key) || key == RoadKey(roads[i].0, roads[i].1)
  {
    hide RoadKey;
    var front, all := roads[..i], roads[..i + 1];
    forall key ensures KeySeen(all, key) <==> KeySeen(front, key) || key == RoadKey(roads[i].0, roads[i].1) {
      assert all[i] == roads[i] && forall k :: 0 <= k < i ==> front[k] == all[k];
    }
  }

  method CheckBounds(b: Battlefield) returns (fault: Option<Fault>)
    ensures fault == FirstBoundsFault(b, 0)
  {
    for i := 0 to |b.terrains|
      invariant FirstBoundsFault(b, i) == FirstBoundsFault(b, 0)
    {
      var t := b.terrains[i];
      if t.x - t.radius < 15.0 || t.x + t.radius > 385.0 || t.y - t.radius < 70.0 || t.y + t.radius > 650.0 {
        return Some(OutOfBounds);
      }
    }
    return None;
  }

  /** The first opposite tower and how many there are. */
  method UniqueCounterpart(b: Battlefield, t: Terrain) returns (found: Option<Terrain>, count: nat)
    ensures count == |Matches(b.terrains, t)|
    ensures found == if count == 0 then None else Some(Matches(b.terrains, t)[0])
  {
    var ts := b.terrains;
    var rotX, rotY := 400.0 - t.x, 720.0 - t.y;
    found, count := None, 0;
    for i := 0 to |ts|
      invariant count == |Matches(ts[..i], t)|
      invariant found == if count == 0 then None else Some(Matches(ts[..i], t)[0])
    {
      assert ts[..i + 1][..i] == ts[..i];
      if Abs(ts[i].x - rotX) < TOLERANCE && Abs(ts[i].y - rotY) < TOLERANCE {
        count := count + 1;
        if count == 1 {
          found := Some(ts[i]);
        }
      }
    }
    assert ts[..|ts|] == ts;
  }

  method CheckSymmetry(b: Battlefield) returns (fault: Option<Fault>)
    ensures fault == FirstSymmetryFault(b, 0)
  {
    hide Matches;
    for i := 0 to |b.terrains|
      invariant FirstSymmetryFault(b, i) == FirstSymmetryFault(b, 0)
    {
      var t := b.terrains[i];
      var other, count := UniqueCounterpart(b, t);
      if other == None {
        return Some(NoCounterpart);
      }
      if count > 1 {
        return Some(ManyCounterparts);
      }
      var u := other.value;
      if (t.owner == Player && u.owner != Enemy) || (t.owner == Enemy && u.owner != Player)
        || (t.owner == Neutral && u.owner != Neutral) {
        return Some(OwnerMismatch);
      }
      if t.tier != u.tier || t.kind != u.kind || t.units != u.units || t.maxUnits != u.maxUnits || t.rate != u.rate
        || t.radius != u.radius {
        return Some(AttributeMismatch);
      }
    }
    return None;
  }

  method MirrorId(b: Battlefield, byId: map<Id, Terrain>, id: Id) returns (mirror: Id)
    requires forall x :: Lookup(b.terrains, x) == if x in byId then Some(byId[x]) else None
    ensures mirror == Mirror(b, id)
  {
    hide Matches, Lookup;
    if id !in byId {
      return id;
    }
    var found, count := UniqueCounterpart(b, byId[id]);
    return if found.Some? then found.value.id else id;
  }

  method CheckClosure(b: Battlefield, byId: map<Id, Terrain>, seen: set<string>) returns (fault: Option<Fault>)
    requires forall x :: Lookup(b.terrains, x) == if x in byId then Some(byId[x]) else None
    requires forall key :: key in seen <==> KeySeen(b.roads, key)
    ensures fault == FirstClosureFault(b, 0)
  {
    hide Mirror, RoadKey, KeySeen, Lookup;
    for i := 0 to |b.roads|
      invariant FirstClosureFault(b, i) == FirstClosureFault(b, 0)
    {
      var (x, y) := b.roads[i];
      var a := MirrorId(b, byId, x);
      var c := MirrorId(b, byId, y);
      if b.mode == TwoVsTwo && RoadKey(a, c) == RoadKey(x, y) {
        return Some(SelfMirroredRoad);
      }
      if RoadKey(a, c) !in seen {
        return Some(RoadNotMirrored);
      }
    }
    return None;
  }

  lemma {:induction false} LookupNamed(ts: seq<Terrain>, id: Id)
    ensures Lookup(ts, id).Some? <==> Named(ts, id)
  {
    if ts != [] {
      var front := ts[..|ts| - 1];
      LookupNamed(front, id);
      assert ts == front + [ts[|ts| - 1]];
      assert forall k :: 0 <= k < |front| ==> front[k] == ts[k];
    }
  }

  method ValidateBattlefieldDefinition(b: Battlefield) returns (fault: Option<Fault>)
    ensures fault == Validate(b)
  {
    hide FirstIdFault, BasesFault, Owned, FirstRoadFault, FirstBoundsFault, FirstSymmetryFault, FirstClosureFault,
      Lookup, Named, KeySeen;
    if b.id == "" {
      return Some(EmptyBattlefieldId);
    }
    var byId;
    fault, byId := CheckIds(b);
    if fault.Some? {
      return;
    }
    var player := OwnedBy(b.terrains, Player);
    var enemy := OwnedBy(b.terrains, Enemy);
    fault := CheckBases(b, player, enemy);
    if fault.Some? {
      return;
    }
    var neutral := OwnedBy(b.terrains, Neutral);
    if |neutral| < 1 {
      return Some(NoNeutral);
    }
    forall id ensures id in byId <==> Named(b.terrains, id) {
      LookupNamed(b.terrains, id);
    }
    var seen;
    fault, seen := CheckRoads(b, byId);
    if fault.Some? {
      return;
    }
    fault := CheckBounds(b);
    if fault.Some? {
      return;
    }
    if b.mode == OneVsOne && player != [] && enemy != [] {
      if player[0].x != enemy[0].x || player[0].y + enemy[0].y != 720.0 {
        return Some(BasesOffAxis);
      }
    }
    fault := CheckSymmetry(b);
    if fault.Some? {
      return;
    }
    fault := CheckClosure(b, byId, seen);
  }
}
