/** Every order the bot plans can be carried out, alone, in sequence, and after its ability. */
module TacticalOrders {
  import opened Text
  import opened Sorting
  import opened World
  import opened Routes
  import opened RouteSearch
  import opened DispatchRoute
  import opened March
  import opened Combat
  import opened BattleRules
  import opened TacticalRules

  // ----- Orders that can be sent one after the other

  predicate Sendable(g: GameState, team: Team, m: Move) {
    && m.source in g.territories && g.territories[m.source].owner == team && g.territories[m.source].units >= 2
    && FindRoute(g, m.source, m.target, team).Some?
  }

  ghost predicate Orders(g: GameState, team: Team, moves: seq<Move>) {
    && (forall i :: 0 <= i < |moves| ==> Sendable(g, team, moves[i]))
    && forall i, j :: 0 <= i < j < |moves| ==> moves[i].source != moves[j].source
  }

  /** The strict replay: the first illegal dispatch aborts it. */
  function SendAll(g: GameState, team: Team, moves: seq<Move>, multiplier: real): Option<GameState>
    decreases |moves|
  {
    if moves == [] then Some(g)
    else match Dispatch(g, moves[0].source, moves[0].target, team, multiplier)
      case Err(_) => None
      case Ok(h) => SendAll(h, team, moves[1..], multiplier)
  }

  /** The lenient replay: an illegal dispatch is ignored. */
  function SendEach(g: GameState, team: Team, moves: seq<Move>, multiplier: real): GameState
    decreases |moves|
  {
    if moves == [] then g
    else match Dispatch(g, moves[0].source, moves[0].target, team, multiplier)
      case Err(_) => SendEach(g, team, moves[1..], multiplier)
      case Ok(h) => SendEach(h, team, moves[1..], multiplier)
  }

  /** The same towers with the same owners. */
  ghost predicate SameOwners(g: GameState, h: GameState) {
    && h.board == g.board && h.rules == g.rules && h.territories.Keys == g.territories.Keys
    && forall id :: id in g.territories ==> h.territories[id].owner == g.territories[id].owner
  }

  lemma SameRoutes(g: GameState, h: GameState, source: Id, target: Id, team: Team)
    requires SameOwners(g, h)
    ensures FindRoute(h, source, target, team) == FindRoute(g, source, target, team)
  {
    hide FriendlyPathsFrom, Neighbors, BestEntry;
    assert Friendly(h.territories, team) == Friendly(g.territories, team);
    ReachablePaths(g.board, Friendly(g.territories, team), source);
  }

  lemma SendableDispatches(g: GameState, team: Team, m: Move, multiplier: real)
    requires Sendable(g, team, m)
    ensures
      var r := Dispatch(g, m.source, m.target, team, multiplier);
      && r.Ok? && SameOwners(g, r.value)
      && forall id :: id in g.territories && id != m.source ==> r.value.territories[id].units == g.territories[id].units
  {
    hide FindRoute, NewArmy;
    RouteEnds(g, m.source, m.target, team);
    RouteLength(g, m.source, m.target, team);
  }

  lemma RouteEnds(g: GameState, source: Id, target: Id, team: Team)
    requires FindRoute(g, source, target, team).Some?
    ensures target in g.territories && source != target
  {
  }

  lemma OrdersSurvive(g: GameState, h: GameState, team: Team, moves: seq<Move>)
    requires Orders(g, team, moves) && SameOwners(g, h)
    requires forall m :: m in moves ==> h.territories[m.source].units >= g.territories[m.source].units
    ensures Orders(h, team, moves)
  {
    hide FindRoute;
    forall i | 0 <= i < |moves| ensures Sendable(h, team, moves[i]) {
      SameRoutes(g, h, moves[i].source, moves[i].target, team);
      assert moves[i] in moves;
    }
  }

  /** Orders with distinct sources all succeed in sequence, so the strict and the lenient replay
      agree on them. */
  lemma {:induction false} OrdersSucceed(g: GameState, team: Team, moves: seq<Move>, multiplier: real)
    requires Orders(g, team, moves)
    ensures SendAll(g, team, moves, multiplier) == Some(SendEach(g, team, moves, multiplier))
    decreases |moves|
  {
    hide Dispatch, Sendable;
    if moves != [] {
      assert Sendable(g, team, moves[0]);
      SendableDispatches(g, team, moves[0], multiplier);
      var h := Dispatch(g, moves[0].source, moves[0].target, team, multiplier).value;
      assert Orders(g, team, moves[1..]);
      OrdersKnown(g, team, moves[1..]);
      OrdersSurvive(g, h, team, moves[1..]);
      OrdersSucceed(h, team, moves[1..], multiplier);
    }
  }

  lemma OrdersKnown(g: GameState, team: Team, moves: seq<Move>)
    requires Orders(g, team, moves)
    ensures forall m :: m in moves ==> m.source in g.territories
  {
    hide FindRoute;
  }

  // ----- Candidates are sendable, from distinct towers

  ghost predicate DistinctSources(senders: seq<Candidate>) {
    forall i, j :: 0 <= i < j < |senders| ==> senders[i].source != senders[j].source
  }

  ghost predicate SendersOk(g: GameState, team: Team, target: Id, senders: seq<Candidate>) {
    DistinctSources(senders) && forall c :: c in senders ==> Sendable(g, team, Move(c.source, target))
  }

  lemma CandidateSendable(g: GameState, source: Id, target: Id, team: Team, multiplier: Positive)
    requires CandidateFrom(g, source, target, team, multiplier).Some?
    ensures CandidateFrom(g, source, target, team, multiplier).value.source == source
    ensures Sendable(g, team, Move(source, target))
  {
    hide SafeToSend, CandidateArmy, ArrivalSeconds;
  }

  lemma {:induction false} SendersAreOk(g: GameState, ids: seq<Id>, target: Id, team: Team, multiplier: Positive)
    requires Simple(ids)
    ensures SendersOk(g, team, target, Senders(g, ids, target, team, multiplier))
    ensures forall c :: c in Senders(g, ids, target, team, multiplier) ==> c.source in ids
  {
    hide CandidateFrom, Sendable;
    if ids != [] {
      var front, last := ids[..|ids| - 1], ids[|ids| - 1];
      assert ids == front + [last];
      SendersAreOk(g, front, target, team, multiplier);
      if CandidateFrom(g, last, target, team, multiplier).Some? {
        CandidateSendable(g, last, target, team, multiplier);
        var c := CandidateFrom(g, last, target, team, multiplier).value;
        assert forall d :: d in Senders(g, front, target, team, multiplier) ==> d.source != c.source;
      }
    }
  }

  lemma {:induction false} InsertDistinct(x: Candidate, s: seq<Candidate>)
    requires DistinctSources(s) && forall c :: c in s ==> c.source != x.source
    ensures DistinctSources(Insert(CandidateLe, x, s))
  {
    hide CandidateLe;
    if s != [] && !CandidateLe(x, s[0]) {
      InsertDistinct(x, s[1..]);
      var r := Insert(CandidateLe, x, s[1..]);
      SameElements(r, s[1..] + [x]);
      forall j | 0 <= j < |r| ensures s[0].source != r[j].source {
        assert r[j] in r;
      }
    }
  }

  lemma {:induction false} SortDistinct(s: seq<Candidate>)
    requires DistinctSources(s)
    ensures DistinctSources(Sort(CandidateLe, s))
    ensures forall c :: c in Sort(CandidateLe, s) <==> c in s
  {
    hide CandidateLe;
    SameElements(Sort(CandidateLe, s), s);
    if s != [] {
      SortDistinct(s[1..]);
      forall c | c in Sort(CandidateLe, s[1..]) ensures c.source != s[0].source {
        assert c in s[1..];
      }
      InsertDistinct(s[0], Sort(CandidateLe, s[1..]));
    }
  }

  lemma CandidatesAreOk(g: GameState, ids: seq<Id>, target: Id, team: Team, multiplier: Positive)
    requires Simple(ids)
    ensures SendersOk(g, team, target, Candidates(g, ids, target, team, multiplier))
  {
    hide Senders, Sendable;
    SendersAreOk(g, ids, target, team, multiplier);
    SortDistinct(Senders(g, ids, target, team, multiplier));
  }

  // ----- The three kinds of plan

  /** Moves chosen so far, and senders still to be considered, none of which has been used. */
  ghost predicate Choosing(g: GameState, team: Team, target: Id, moves: seq<Move>, senders: seq<Candidate>) {
    && Orders(g, team, moves) && SendersOk(g, team, target, senders)
    && forall m, c :: m in moves && c in senders ==> m.source != c.source
  }

  lemma ChooseNext(g: GameState, team: Team, target: Id, moves: seq<Move>, senders: seq<Candidate>)
    requires senders != [] && Choosing(g, team, target, moves, senders)
    ensures Choosing(g, team, target, moves, senders[1..])
    ensures Choosing(g, team, target, moves + [Move(senders[0].source, target)], senders[1..])
  {
    hide Sendable;
    assert senders[0] in senders;
    forall c | c in senders[1..] ensures c in senders && c.source != senders[0].source {
      var k :| 0 <= k < |senders[1..]| && senders[1..][k] == c;
      assert senders[k + 1] == c;
    }
    forall i | 0 <= i < |moves| ensures moves[i].source != senders[0].source {
      assert moves[i] in moves;
    }
  }

  lemma {:induction false} RescueWithOk(g: GameState, threat: Threat, team: Team, units: int, moves: seq<Move>,
    senders: seq<Candidate>)
    requires Choosing(g, team, threat.tower, moves, senders)
    ensures
      var r := RescueWith(g, threat, team, units, moves, senders);
      r.Some? ==> Orders(g, team, r.value) && r.value != []
    decreases |senders|
  {
    hide Choosing, Orders, ForecastAt;
    if senders != [] {
      ChooseNext(g, team, threat.tower, moves, senders);
      var units' := units + senders[0].army.units;
      var moves' := moves + [Move(senders[0].source, threat.tower)];
      RescueWithOk(g, threat, team, units, moves, senders[1..]);
      RescueWithOk(g, threat, team, units', moves', senders[1..]);
      ChosenAreOrders(g, team, threat.tower, moves', senders[1..]);
    }
  }

  lemma ChosenAreOrders(g: GameState, team: Team, target: Id, moves: seq<Move>, senders: seq<Candidate>)
    requires Choosing(g, team, target, moves, senders)
    ensures Orders(g, team, moves)
  {
  }

  lemma {:induction false} ConquerWithOk(g: GameState, t: Territory, id: Id, team: Team, projected: Territory,
    moves: seq<Move>, senders: seq<Candidate>)
    requires Choosing(g, team, id, moves, senders)
    ensures
      var r := ConquerWith(t, id, team, projected, moves, senders);
      r.Some? ==> Orders(g, team, r.value.moves) && r.value.moves != []
    decreases |senders|
  {
    hide Choosing, Orders, Attack, ConquestScore;
    if senders != [] {
      ChooseNext(g, team, id, moves, senders);
      var moves' := moves + [Move(senders[0].source, id)];
      ConquerWithOk(g, t, id, team, Attack(projected, senders[0].army.units, team, false), moves', senders[1..]);
      ChosenAreOrders(g, team, id, moves', senders[1..]);
    }
  }

  lemma StartChoosing(g: GameState, ids: seq<Id>, target: Id, team: Team, multiplier: Positive)
    requires Simple(ids)
    ensures Choosing(g, team, target, [], Candidates(g, ids, target, team, multiplier))
  {
    hide Candidates, Sendable;
    CandidatesAreOk(g, ids, target, team, multiplier);
  }

  lemma {:induction false} RescueOk(g: GameState, ids: seq<Id>, i: nat, team: Team, multiplier: Positive)
    requires Simple(ids) && i <= |ids|
    ensures
      var r := Rescue(g, ids, i, team, multiplier);
      r.Some? ==> Orders(g, team, r.value)
    decreases |ids| - i
  {
    hide Orders, Choosing, RescueWith, ThreatTo, Candidates;
    if i < |ids| {
      RescueOk(g, ids, i + 1, team, multiplier);
      var threat := ThreatTo(g, ids[i], team);
      if threat.Some? {
        ThreatNamesTower(g, ids[i], team);
        StartChoosing(g, ids, ids[i], team, multiplier);
        RescueWithOk(g, threat.value, team, At(g.territories, ids[i]).units, [],
          Candidates(g, ids, ids[i], team, multiplier));
      }
    }
  }

  lemma ThreatNamesTower(g: GameState, id: Id, team: Team)
    ensures ThreatTo(g, id, team).Some? ==>
      ThreatTo(g, id, team).value.tower == id && At(g.territories, id).owner == team
  {
    hide ForecastAt, IncomingAt;
  }

  lemma {:induction false} BestConquestOk(g: GameState, ids: seq<Id>, count: nat, team: Team, multiplier: Positive)
    requires Simple(ids) && count <= |ids|
    ensures
      var r := BestConquest(g, ids, count, team, multiplier);
      r.Some? ==> Orders(g, team, r.value.moves)
  {
    hide Orders, ConquestOf;
    if count > 0 {
      BestConquestOk(g, ids, count - 1, team, multiplier);
      ConquestOk(g, ids, ids[count - 1], team, multiplier);
    }
  }

  lemma ConquestOk(g: GameState, ids: seq<Id>, id: Id, team: Team, multiplier: Positive)
    requires Simple(ids)
    ensures
      var r := ConquestOf(g, ids, id, team, multiplier);
      r.Some? ==> Orders(g, team, r.value.moves)
  {
    hide Orders, Choosing, ConquerWith, ForecastAt, Candidates, Projected;
    var senders := Candidates(g, ids, id, team, multiplier);
    StartChoosing(g, ids, id, team, multiplier);
    if senders != [] {
      ConquerWithOk(g, At(g.territories, id), id, team, Projected(g, id, senders[|senders| - 1].eta), [], senders);
    }
  }

  lemma {:induction false} RearSenderOk(g: GameState, team: Team, senders: seq<Candidate>)
    ensures
      var r := RearSender(g, team, senders);
      r.Some? ==> exists c :: c in senders && c.source == r.value
  {
    if senders != [] {
      RearSenderOk(g, team, senders[1..]);
      assert senders[0] in senders;
    }
  }

  lemma {:induction false} SupplyOk(g: GameState, ids: seq<Id>, i: nat, team: Team, multiplier: Positive)
    requires Simple(ids) && i <= |ids|
    ensures Orders(g, team, TacticalRules.Supply(g, ids, i, team, multiplier))
    decreases |ids| - i
  {
    hide Sendable, WantsSupply, Candidates, RearSender;
    if i < |ids| {
      SupplyOk(g, ids, i + 1, team, multiplier);
      CandidatesAreOk(g, ids, ids[i], team, multiplier);
      RearSenderOk(g, team, Candidates(g, ids, ids[i], team, multiplier));
    }
  }

  /** Every move of a planning tick is legal, and no tower sends twice. */
  lemma TacticalMovesOk(g: GameState, ids: seq<Id>, team: Team, multiplier: Positive)
    requires Simple(ids)
    ensures Orders(g, team, TacticalMoves(g, ids, team, multiplier))
  {
    hide Rescue, BestConquest, TacticalRules.Supply, Sendable;
    RescueOk(g, ids, 0, team, multiplier);
    BestConquestOk(g, ids, |ids|, team, multiplier);
    SupplyOk(g, ids, 0, team, multiplier);
  }

  // ----- The ability

  lemma {:induction false} ThreatsAreOwn(g: GameState, ids: seq<Id>, team: Team)
    ensures forall t :: t in Threats(g, ids, team) ==> At(g.territories, t.tower).owner == team
  {
    hide ThreatTo;
    if ids != [] {
      ThreatsAreOwn(g, ids[..|ids| - 1], team);
      ThreatNamesTower(g, ids[|ids| - 1], team);
    }
  }

  lemma ChoiceTarget(g: GameState, ids: seq<Id>, team: Team, commander: Commander, moves: seq<Move>)
    requires Orders(g, team, moves) && team != Neutral
    requires ChooseAbility(g, ids, team, commander, moves).Some?
    ensures
      var c := ChooseAbility(g, ids, team, commander, moves).value;
      && AbilityReady(g, team) && c.source in g.territories && g.territories[c.source].owner == team
      && (commander == Vanguard ==>
        Sendable(g, team, Move(c.source, c.target)) && moves == [Move(c.source, c.target)] + c.moves)
      && (commander != Vanguard ==> c.target == c.source && c.moves == moves)
      && commander != NoCommander
  {
    hide FindRoute, ShieldSaves, SupplySaves, Threats, AbilityReady, Sort;
    ThreatsAreOwn(g, ids, team);
    var threats := Threats(g, ids, team);
    var saved := Where(threats, t => ShieldSaves(g, team, t));
    var rescued := Where(threats, t => SupplySaves(g, team, t));
    SameElements(Sort(StrongestFirst(g), saved), saved);
    SameElements(Sort(SoonestFirst, rescued), rescued);
    FirstIsMember(Sort(StrongestFirst(g), saved));
    FirstIsMember(Sort(SoonestFirst, rescued));
  }

  lemma FirstIsMember(s: seq<Threat>)
    ensures s != [] ==> s[0] in s
  {
  }

  /** The ability the bot chooses is always accepted, and the moves left after it still all succeed:
      neither replay ever meets an illegal order of the bot. */
  lemma ChoiceAccepted(g: GameState, ids: seq<Id>, team: Team, commander: Commander, moves: seq<Move>, multiplier: real)
    requires Orders(g, team, moves) && team != Neutral
    requires ChooseAbility(g, ids, team, commander, moves).Some?
    ensures
      var c := ChooseAbility(g, ids, team, commander, moves).value;
      var r := ApplyAbility(g, team, commander, c.source, c.target, multiplier);
      r.Some? && Orders(r.value, team, c.moves)
  {
    ChoiceTarget(g, ids, team, commander, moves);
    var c := ChooseAbility(g, ids, team, commander, moves).value;
    if commander == Vanguard {
      ChargeAccepted(g, team, c, moves, multiplier);
    } else {
      SelfAbilityAccepted(g, team, commander, c, multiplier);
    }
  }

  lemma ChargeAccepted(g: GameState, team: Team, c: Choice, moves: seq<Move>, multiplier: real)
    requires Orders(g, team, moves) && AbilityReady(g, team) && Sendable(g, team, Move(c.source, c.target))
    requires moves == [Move(c.source, c.target)] + c.moves
    ensures
      var r := ApplyAbility(g, team, Vanguard, c.source, c.target, multiplier);
      r.Some? && Orders(r.value, team, c.moves)
  {
    hide Dispatch, AbilityReady, FindRoute;
    var m := Move(c.source, c.target);
    SendableDispatches(g, team, m, multiplier * CHARGE_SPEED_MULTIPLIER);
    RouteEnds(g, c.source, c.target, team);
    var sent := Dispatch(g, c.source, c.target, team, multiplier * CHARGE_SPEED_MULTIPLIER).value;
    DispatchAddsArmy(g, c.source, c.target, team, multiplier * CHARGE_SPEED_MULTIPLIER);
    var h := MarkUsed(Boost(sent, team), team);
    assert c.moves == moves[1..];
    assert Orders(g, team, c.moves);
    OrdersKnown(g, team, c.moves);
    forall n | n in c.moves ensures h.territories[n.source].units >= g.territories[n.source].units {
      var k :| 0 <= k < |c.moves| && c.moves[k] == n;
      assert moves[k + 1] == n && moves[0] == m;
    }
    OrdersSurvive(g, h, team, c.moves);
  }

  lemma DispatchAddsArmy(g: GameState, source: Id, target: Id, team: Team, multiplier: real)
    requires Dispatch(g, source, target, team, multiplier).Ok?
    ensures Dispatch(g, source, target, team, multiplier).value.armies != []
  {
    hide FindRoute, NewArmy;
    RouteLength(g, source, target, team);
  }

  lemma SelfAbilityAccepted(g: GameState, team: Team, commander: Commander, c: Choice, multiplier: real)
    requires Orders(g, team, c.moves) && AbilityReady(g, team) && c.target == c.source
    requires c.source in g.territories && g.territories[c.source].owner == team
    requires commander == CrownGuard || commander == Quartermaster
    ensures
      var r := ApplyAbility(g, team, commander, c.source, c.target, multiplier);
      r.Some? && Orders(r.value, team, c.moves)
  {
    hide AbilityReady, FindRoute, Dispatch;
    var h := ApplyAbility(g, team, commander, c.source, c.target, multiplier).value;
    OrdersKnown(g, team, c.moves);
    OrdersSurvive(g, h, team, c.moves);
  }
}
