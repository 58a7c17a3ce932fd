/** When and where the bot spends its one ability, said without its loops. */
module AbilityChoice {
  import opened Text
  import opened Sorting
  import opened World
  import opened BattleRules
  import opened OrderLaws
  import opened TacticalRules
  import opened TacticalChoice

  /** Under v4 rules, in an undecided battle of 15 seconds or more, with the ability not yet used. */
  predicate Ready(g: GameState, team: Team) {
    g.rules == 4 && g.status == Playing && g.elapsed + 0.000000001 >= 15.0 && !UsedBy(g, team)
  }

  /** An own tower that will be taken, but not if a shield put up now, which lasts for the first arrival
      and seven seconds of fighting, keeps it. */
  ghost predicate Shieldable(g: GameState, team: Team, id: Id) {
    exists first, last :: ShieldKeeps(g, team, id, first, last)
  }

  ghost predicate ShieldKeeps(g: GameState, team: Team, id: Id, first: real, last: real) {
    && id in g.territories && Threatened(g, id, team, first, last) && first <= 7.0 + EPSILON
    && ForecastAt(g, id, if last < 7.0 then last else 7.0, At(g.territories, id).units, true).owner == team
  }

  /** An own tower that will be taken first at `first`, but not with five units more. */
  ghost predicate Feedable(g: GameState, team: Team, id: Id, first: real) {
    exists last :: SupplyKeeps(g, team, id, first, last)
  }

  ghost predicate SupplyKeeps(g: GameState, team: Team, id: Id, first: real, last: real) {
    && id in g.territories && Threatened(g, id, team, first, last)
    && ForecastAt(g, id, last, At(g.territories, id).units + 5, false).owner == team
  }

  /** The one with the most units, the smaller id among equals. */
  ghost predicate ShieldedFirst(g: GameState, team: Team, id: Id) {
    Shieldable(g, team, id) && forall x :: Shieldable(g, team, x) ==>
      || At(g.territories, id).units > At(g.territories, x).units
      || (At(g.territories, id).units == At(g.territories, x).units && AtMost(id, x))
  }

  /** The one reached first, the smaller id among equals. */
  ghost predicate FedFirst(g: GameState, team: Team, id: Id, first: real) {
    Feedable(g, team, id, first) && forall x, due :: Feedable(g, team, x, due) ==>
      first < due || (first == due && AtMost(id, x))
  }

  /** A charge replaces the first move; a shield goes to the strongest tower it saves; a supply to the tower
      it saves that is reached first, or else to the source of the first move. */
  ghost predicate ChosenWell(g: GameState, team: Team, commander: Commander, moves: seq<Move>, choice: Option<Choice>) {
    if !Ready(g, team) then choice == None
    else
      match commander
      case NoCommander => choice == None
      case Vanguard => choice == if moves == [] then None
        else Some(Choice(moves[0].source, moves[0].target, moves[1..]))
      case CrownGuard =>
        if exists id :: Shieldable(g, team, id)
        then exists id :: ShieldedFirst(g, team, id) && choice == Some(Choice(id, id, moves))
        else choice == None
      case Quartermaster =>
        if exists id, first :: Feedable(g, team, id, first)
        then exists id, first :: FedFirst(g, team, id, first) && choice == Some(Choice(id, id, moves))
        else choice == if moves == [] then None else Some(Choice(moves[0].source, moves[0].source, moves))
  }

  lemma {:induction false} ThreatsAre(g: GameState, ids: seq<Id>, team: Team)
    ensures forall t :: t in Threats(g, ids, team) <==>
      t.tower in ids && Threatened(g, t.tower, team, t.firstEta, t.horizon)
  {
    hide ThreatTo, Threatened;
    if ids != [] {
      var front, last := ids[..|ids| - 1], ids[|ids| - 1];
      assert ids == front + [last];
      ThreatsAre(g, front, team);
      ThreatIff(g, last, team);
    }
  }

  lemma StrongestTotal(g: GameState)
    ensures TotalOrder(StrongestFirst(g))
  {
    hide AtMost;
    TextOrder();
    assert forall x: string, y: string :: AtMost(x, y) || AtMost(y, x);
    assert forall x: string, y: string, z: string :: AtMost(x, y) && AtMost(y, z) ==> AtMost(x, z);
  }

  lemma SoonestTotal()
    ensures TotalOrder(SoonestFirst)
  {
    hide AtMost;
    TextOrder();
    assert forall x: string, y: string :: AtMost(x, y) || AtMost(y, x);
    assert forall x: string, y: string, z: string :: AtMost(x, y) && AtMost(y, z) ==> AtMost(x, z);
  }

  lemma HeadLeast(le: (Threat, Threat) -> bool, s: seq<Threat>)
    requires TotalOrder(le)
    ensures Sort(le, s) == [] <==> forall t :: t !in s
    ensures Sort(le, s) != [] ==> Sort(le, s)[0] in s && forall t :: t in s ==> le(Sort(le, s)[0], t)
  {
    SortSorted(le, s);
    var r := Sort(le, s);
    if r != [] {
      assert r[0] in r;
      forall t | t in s ensures le(r[0], t) {
        var k :| 0 <= k < |r| && r[k] == t;
        assert le(r[0], r[0]);
      }
    } else {
      forall t ensures t !in s {
        assert t !in r;
      }
    }
  }

  ghost function Savable(g: GameState, team: Team): seq<Threat> {
    Where(Threats(g, SortedIds(g.territories.Keys), team), t => ShieldSaves(g, team, t))
  }

  ghost function Suppliables(g: GameState, team: Team): seq<Threat> {
    Where(Threats(g, SortedIds(g.territories.Keys), team), t => SupplySaves(g, team, t))
  }

  lemma SavableAre(g: GameState, team: Team)
    ensures forall t :: t in Savable(g, team) <==> ShieldKeeps(g, team, t.tower, t.firstEta, t.horizon)
    ensures forall t :: t in Suppliables(g, team) <==> SupplyKeeps(g, team, t.tower, t.firstEta, t.horizon)
  {
    hide Threatened, ForecastAt, SortedIds, Threats, Where, AtMost;
    ThreatsAre(g, SortedIds(g.territories.Keys), team);
    IdsAscend(g);
  }

  lemma ShieldIs(g: GameState, team: Team)
    ensures
      var saved := Sort(StrongestFirst(g), Savable(g, team));
      if exists id :: Shieldable(g, team, id) then saved != [] && ShieldedFirst(g, team, saved[0].tower)
        else saved == []
  {
    hide ShieldKeeps, AtMost, Sort, Savable;
    SavableAre(g, team);
    StrongestTotal(g);
    HeadLeast(StrongestFirst(g), Savable(g, team));
    forall id ensures Shieldable(g, team, id) <==> exists t :: t in Savable(g, team) && t.tower == id {
      if first, last :| ShieldKeeps(g, team, id, first, last) {
        assert Threat(id, first, last) in Savable(g, team);
      }
    }
    var saved := Sort(StrongestFirst(g), Savable(g, team));
    if saved != [] {
      assert Shieldable(g, team, saved[0].tower);
    }
  }

  lemma FeedIs(g: GameState, team: Team)
    ensures
      var rescued := Sort(SoonestFirst, Suppliables(g, team));
      if exists id, first :: Feedable(g, team, id, first)
      then rescued != [] && FedFirst(g, team, rescued[0].tower, rescued[0].firstEta) else rescued == []
  {
    hide SupplyKeeps, AtMost, Sort, Suppliables;
    SavableAre(g, team);
    SoonestTotal();
    HeadLeast(SoonestFirst, Suppliables(g, team));
    forall id, first
      ensures Feedable(g, team, id, first) <==> exists t ::
        t in Suppliables(g, team) && t.tower == id && t.firstEta == first
    {
      if last :| SupplyKeeps(g, team, id, first, last) {
        assert Threat(id, first, last) in Suppliables(g, team);
      }
    }
    var rescued := Sort(SoonestFirst, Suppliables(g, team));
    if rescued != [] {
      assert Feedable(g, team, rescued[0].tower, rescued[0].firstEta);
    }
  }

  lemma ChoiceIs(g: GameState, team: Team, commander: Commander, moves: seq<Move>)
    ensures ChosenWell(g, team, commander, moves,
      ChooseAbility(g, SortedIds(g.territories.Keys), team, commander, moves))
  {
    hide SortedIds, Threats, Sort, Where, Shieldable, ShieldedFirst, Feedable, FedFirst;
    ShieldIs(g, team);
    FeedIs(g, team);
    assert Ready(g, team) <==> AbilityReady(g, team);
  }
}
