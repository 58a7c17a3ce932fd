/** The bot's planning loops, proved to compute the decisions of TacticalRules. */
module TacticalBot {
  import opened Text
  import opened Sorting
  import opened World
  import opened Routes
  import opened DispatchRoute
  import opened March
  import opened Combat
  import opened BattleRules
  import opened TacticalRules
  import opened TacticalOrders
  import opened TacticalChoice
  import opened AbilityChoice

  /** The ids come out of the map in no particular order; sorting makes the list deterministic. */
  method TowerIds(territories: map<Id, Territory>) returns (ids: seq<Id>)
    ensures ids == SortedIds(territories.Keys)
  {
    ids := [];
    var left := territories.Keys;
    while left != {}
      invariant left <= territories.Keys
      invariant multiset(ids) == multiset(territories.Keys - left)
      decreases left
    {
      var id :| id in left;
      assert territories.Keys - (left - {id}) == (territories.Keys - left) + {id};
      ids := ids + [id];
      left := left - {id};
    }
    assert territories.Keys - left == territories.Keys;
    SortedIdsUnique(ids, territories.Keys);
    ids := Sort(AtMost, ids);
  }

  method TacticalIncomingAt(g: GameState, id: Id) returns (result: seq<Incoming>)
    ensures result == IncomingAt(g, id)
  {
    result := [];
    for i := 0 to |g.armies|
      invariant result == Approaching(g, id, i)
    {
      var a := g.armies[i];
      if ArmyDestination(a, g.territories) == id {
        var eta := ArmyArrivalSeconds(g.board, a, g.territories);
        result := result + [Incoming(a, i, eta)];
      }
    }
    result := Sort(IncomingLe, result);
  }

  method HostileIncoming(g: GameState, id: Id, team: Team) returns (hostile: seq<Incoming>)
    ensures hostile == HostileTo(team, IncomingAt(g, id))
  {
    hide IncomingAt;
    var incoming := TacticalIncomingAt(g, id);
    hostile := [];
    for i := 0 to |incoming|
      invariant hostile == HostileTo(team, incoming[..i])
    {
      assert incoming[..i + 1][..i] == incoming[..i];
      if incoming[i].army.owner != team {
        hostile := hostile + [incoming[i]];
      }
    }
    assert incoming[..|incoming|] == incoming;
  }

  method TacticalForecast(g: GameState, id: Id, seconds: real, units: int, shielded: bool) returns (t: Territory)
    ensures t == ForecastAt(g, id, seconds, units, shielded)
  {
    hide IncomingAt, Attack;
    var incoming := TacticalIncomingAt(g, id);
    t := At(g.territories, id).(units := units);
    ghost var start := t;
    for i := 0 to |incoming|
      invariant t == Forecast(start, incoming[..i], seconds, shielded)
    {
      assert incoming[..i + 1][..i] == incoming[..i];
      if incoming[i].eta <= seconds + EPSILON {
        t := Attack(t, incoming[i].army.units, incoming[i].army.owner, shielded);
      }
    }
    assert incoming[..|incoming|] == incoming;
  }

  method CanSendSafely(g: GameState, source: Id, team: Team) returns (safe: bool)
    ensures safe == SafeToSend(g, source, team)
  {
    hide ForecastAt, HostileTo, IncomingAt;
    var s := At(g.territories, source);
    var hostile := HostileIncoming(g, source, team);
    safe := true;
    if |hostile| > 0 {
      var after := TacticalForecast(g, source, hostile[|hostile| - 1].eta, s.units - DispatchUnits(s.units), false);
      safe := after.owner == team;
    }
  }

  method TacticalCandidates(g: GameState, target: Id, team: Team, multiplier: Positive) returns (result: seq<Candidate>)
    ensures result == Candidates(g, SortedIds(g.territories.Keys), target, team, multiplier)
  {
    hide CandidateFrom;
    var ids := TowerIds(g.territories);
    result := [];
    for i := 0 to |ids|
      invariant result == Senders(g, ids[..i], target, team, multiplier)
    {
      assert ids[..i + 1][..i] == ids[..i];
      var candidate := TacticalCandidate(g, ids[i], target, team, multiplier);
      if candidate.Some? {
        result := result + [candidate.value];
      }
    }
    assert ids[..|ids|] == ids;
    result := Sort(CandidateLe, result);
  }

  method TacticalCandidate(g: GameState, source: Id, target: Id, team: Team,
    multiplier: Positive) returns (candidate: Option<Candidate>)
    ensures candidate == CandidateFrom(g, source, target, team, multiplier)
  {
    hide FindRoute, SafeToSend;
    var s := At(g.territories, source);
    if s.owner != team || s.units < 4 || source == target {
      return None;
    }
    RouteLength(g, source, target, team);
    var route := FindDispatchRoute(g, source, target, team);
    if route == None {
      return None;
    }
    var safe := CanSendSafely(g, source, team);
    if !safe {
      return None;
    }
    var army := CandidateArmy(g, source, team, multiplier, route.value);
    var eta := ArmyArrivalSeconds(g.board, army, g.territories);
    return Some(Candidate(source, army, eta));
  }

  method ThreatAt(g: GameState, id: Id, team: Team) returns (threat: Option<Threat>)
    ensures threat == ThreatTo(g, id, team)
  {
    hide ForecastAt, IncomingAt, HostileTo;
    var t := At(g.territories, id);
    if t.owner != team {
      return None;
    }
    var hostile := HostileIncoming(g, id, team);
    if |hostile| == 0 {
      return None;
    }
    var horizon := hostile[|hostile| - 1].eta;
    var after := TacticalForecast(g, id, horizon, t.units, false);
    if after.owner == team {
      return None;
    }
    return Some(Threat(id, hostile[0].eta, horizon));
  }

  method PlanRescue(g: GameState, id: Id, team: Team, multiplier: Positive) returns (rescue: Option<seq<Move>>)
    ensures rescue == RescueOf(g, SortedIds(g.territories.Keys), id, team, multiplier)
  {
    hide ThreatTo, Candidates, ForecastAt, SortedIds;
    var threat := ThreatAt(g, id, team);
    if threat == None {
      return None;
    }
    ThreatNamesTower(g, id, team);
    var senders := TacticalCandidates(g, id, team, multiplier);
    var units := At(g.territories, id).units;
    var moves: seq<Move> := [];
    for i := 0 to |senders|
      invariant RescueWith(g, threat.value, team, units, moves, senders[i..]) ==
                RescueOf(g, SortedIds(g.territories.Keys), id, team, multiplier)
    {
      assert senders[i..][1..] == senders[i + 1..];
      var c := senders[i];
      if c.eta >= threat.value.firstEta - EPSILON {
        continue;
      }
      units := units + c.army.units;
      moves := moves + [Move(c.source, id)];
      var after := TacticalForecast(g, id, threat.value.horizon, units, false);
      if after.owner == team {
        return Some(moves);
      }
    }
    return None;
  }

  method PlanConquest(g: GameState, id: Id, team: Team, multiplier: Positive) returns (plan: Option<Plan>)
    ensures plan == ConquestOf(g, SortedIds(g.territories.Keys), id, team, multiplier)
  {
    hide Candidates, ForecastAt, SortedIds, Attack, ConquestScore;
    var t := At(g.territories, id);
    if t.owner == team {
      return None;
    }
    var senders := TacticalCandidates(g, id, team, multiplier);
    if |senders| == 0 {
      return None;
    }
    var lastEta := senders[|senders| - 1].eta;
    var projected := TacticalForecast(g, id, lastEta, t.units, false);
    if projected.owner == team {
      return None;
    }
    if t.owner != Neutral {
      projected := projected.(units := projected.units +
        Ceil(lastEta * t.productionRate * ProductionMultiplier(t.kind)));
    }
    assert projected == Projected(g, id, lastEta);
    assert senders[0..] == senders;
    var moves: seq<Move> := [];
    for i := 0 to |senders|
      invariant ConquerWith(t, id, team, projected, moves, senders[i..]) ==
                ConquestOf(g, SortedIds(g.territories.Keys), id, team, multiplier)
    {
      assert senders[i..][1..] == senders[i + 1..];
      var c := senders[i];
      projected := Attack(projected, c.army.units, team, false);
      moves := moves + [Move(c.source, id)];
      if projected.owner == team {
        return Some(Plan(moves, ConquestScore(t, projected.units, c.eta)));
      }
    }
    return None;
  }

  method TouchesForeign(g: GameState, team: Team, id: Id) returns (frontier: bool)
    ensures frontier == OnFrontier(g, team, id)
  {
    var near := Neighbors(g.board, id);
    for i := 0 to |near|
      invariant !AnyForeign(g, team, near[..i])
    {
      assert near[..i + 1][..i] == near[..i];
      if At(g.territories, near[i]).owner != team {
        ForeignStays(g, team, near, i + 1);
        return true;
      }
    }
    assert near[..|near|] == near;
    return false;
  }

  lemma {:induction false} ForeignStays(g: GameState, team: Team, near: seq<Id>, i: nat)
    requires i <= |near| && AnyForeign(g, team, near[..i])
    ensures AnyForeign(g, team, near)
    decreases |near|
  {
    if i == |near| {
      assert near[..i] == near;
    } else {
      assert near[..|near| - 1][..i] == near[..i];
      ForeignStays(g, team, near[..|near| - 1], i);
    }
  }

  method NeedsSupply(g: GameState, team: Team, id: Id) returns (wanted: bool)
    ensures wanted == WantsSupply(g, team, id)
  {
    hide OnFrontier, IncomingAt, DefenseStrength, Neighbors;
    var t := At(g.territories, id);
    var frontier := TouchesForeign(g, team, id);
    if t.owner != team || !frontier {
      return false;
    }
    var incoming := TacticalIncomingAt(g, id);
    var committed := 0;
    for i := 0 to |incoming|
      invariant committed == Committed(team, incoming[..i])
    {
      assert incoming[..i + 1][..i] == incoming[..i];
      if incoming[i].army.owner == team {
        committed := committed + incoming[i].army.units;
      }
    }
    assert incoming[..|incoming|] == incoming;
    var near := Neighbors(g.board, id);
    var strongest := 0;
    for i := 0 to |near|
      invariant strongest == Strongest(g, team, near[..i])
    {
      assert near[..i + 1][..i] == near[..i];
      var n := At(g.territories, near[i]);
      if n.owner != team {
        strongest := Max(strongest, DefenseStrength(n.units, DefenseQuarters(n.kind, false)));
      }
    }
    assert near[..|near|] == near;
    return DispatchUnits(t.units + committed) <= strongest;
  }

  method PlanSupply(g: GameState, id: Id, team: Team, multiplier: Positive) returns (source: Option<Id>)
    ensures source == RearSender(g, team, Candidates(g, SortedIds(g.territories.Keys), id, team, multiplier))
  {
    hide Candidates, OnFrontier, SortedIds;
    var senders := TacticalCandidates(g, id, team, multiplier);
    for i := 0 to |senders|
      invariant RearSender(g, team, senders[i..]) == RearSender(g, team, senders)
    {
      assert senders[i..][1..] == senders[i + 1..];
      var frontier := TouchesForeign(g, team, senders[i].source);
      if !frontier {
        return Some(senders[i].source);
      }
    }
    return None;
  }

  /** The whole planning tick: the moves rescue, conquer or supply as the tick decides, and can all be
      sent. */
  method EvaluateTacticalMoves(g: GameState, team: Team, multiplier: Positive) returns (moves: seq<Move>)
    ensures moves == TacticalMoves(g, SortedIds(g.territories.Keys), team, multiplier)
    ensures Orders(g, team, moves)
    ensures TickDecided(g, team, multiplier, moves)
  {
    hide RescueOf, ConquestOf, WantsSupply, RearSender, SortedIds, Orders, Candidates, TickDecided;
    TickDecides(g, team, multiplier);
    SortedIdsList(g.territories.Keys);
    TacticalMovesOk(g, SortedIds(g.territories.Keys), team, multiplier);
    if g.status != Playing {
      return [];
    }
    var ids := TowerIds(g.territories);
    for i := 0 to |ids|
      invariant Rescue(g, ids, i, team, multiplier) == Rescue(g, ids, 0, team, multiplier)
    {
      var rescue := PlanRescue(g, ids[i], team, multiplier);
      if rescue.Some? {
        return rescue.value;
      }
    }
    var best := PickConquest(g, ids, team, multiplier);
    if best.Some? {
      return best.value.moves;
    }
    moves := PickSupply(g, ids, team, multiplier);
  }

  method PickConquest(g: GameState, ids: seq<Id>, team: Team, multiplier: Positive) returns (best: Option<Plan>)
    requires ids == SortedIds(g.territories.Keys)
    ensures best == BestConquest(g, ids, |ids|, team, multiplier)
  {
    hide ConquestOf, SortedIds;
    best := None;
    for i := 0 to |ids|
      invariant best == BestConquest(g, ids, i, team, multiplier)
    {
      var plan := PlanConquest(g, ids[i], team, multiplier);
      if plan.Some? && (best == None || plan.value.score > best.value.score) {
        best := plan;
      }
    }
  }

  method PickSupply(g: GameState, ids: seq<Id>, team: Team, multiplier: Positive) returns (moves: seq<Move>)
    requires ids == SortedIds(g.territories.Keys)
    ensures moves == TacticalRules.Supply(g, ids, 0, team, multiplier)
  {
    hide WantsSupply, RearSender, SortedIds, Candidates;
    for i := 0 to |ids|
      invariant TacticalRules.Supply(g, ids, i, team, multiplier) == TacticalRules.Supply(g, ids, 0, team, multiplier)
    {
      var wanted := NeedsSupply(g, team, ids[i]);
      if wanted {
        var source := PlanSupply(g, ids[i], team, multiplier);
        if source.Some? {
          return [Move(source.value, ids[i])];
        }
      }
    }
    return [];
  }

  method ThreatenedTowers(g: GameState, team: Team) returns (result: seq<Threat>)
    ensures result == Threats(g, SortedIds(g.territories.Keys), team)
  {
    hide ThreatTo;
    var ids := TowerIds(g.territories);
    result := [];
    for i := 0 to |ids|
      invariant result == Threats(g, ids[..i], team)
    {
      assert ids[..i + 1][..i] == ids[..i];
      var threat := ThreatAt(g, ids[i], team);
      if threat.Some? {
        result := result + [threat.value];
      }
    }
    assert ids[..|ids|] == ids;
  }

  method SavedByShield(g: GameState, team: Team, threats: seq<Threat>) returns (saved: seq<Threat>)
    ensures saved == Where(threats, t => ShieldSaves(g, team, t))
  {
    hide ForecastAt;
    saved := [];
    for i := 0 to |threats|
      invariant saved == Where(threats[..i], t => ShieldSaves(g, team, t))
    {
      assert threats[..i + 1][..i] == threats[..i];
      var t := threats[i];
      if t.firstEta <= SHIELD_WINDOW + EPSILON {
        var after := TacticalForecast(g, t.tower, MinReal(SHIELD_WINDOW, t.horizon), At(g.territories, t.tower).units,
          true);
        if after.owner == team {
          saved := saved + [t];
        }
      }
    }
    assert threats[..|threats|] == threats;
  }

  method SavedBySupply(g: GameState, team: Team, threats: seq<Threat>) returns (rescued: seq<Threat>)
    ensures rescued == Where(threats, t => SupplySaves(g, team, t))
  {
    hide ForecastAt;
    rescued := [];
    for i := 0 to |threats|
      invariant rescued == Where(threats[..i], t => SupplySaves(g, team, t))
    {
      assert threats[..i + 1][..i] == threats[..i];
      var t := threats[i];
      var after := TacticalForecast(g, t.tower, t.horizon, At(g.territories, t.tower).units + SUPPLY_UNITS, false);
      if after.owner == team {
        rescued := rescued + [t];
      }
    }
    assert threats[..|threats|] == threats;
  }

  method ChooseBotAbility(g: GameState, team: Team, commander: Commander,
    moves: seq<Move>) returns (choice: Option<Choice>)
    ensures choice == ChooseAbility(g, SortedIds(g.territories.Keys), team, commander, moves)
    ensures ChosenWell(g, team, commander, moves, choice)
  {
    ChoiceIs(g, team, commander, moves);
    hide ChosenWell, ShieldSaves, SupplySaves, Threats, SortedIds, Sort;
    if commander == NoCommander || !AbilityReady(g, team) {
      return None;
    }
    if commander == Vanguard {
      return if moves == [] then None else Some(Choice(moves[0].source, moves[0].target, moves[1..]));
    }
    var threats := ThreatenedTowers(g, team);
    if commander == CrownGuard {
      var saved := SavedByShield(g, team, threats);
      saved := Sort(StrongestFirst(g), saved);
      return if saved == [] then None else Some(Choice(saved[0].tower, saved[0].tower, moves));
    }
    var rescued := SavedBySupply(g, team, threats);
    rescued := Sort(SoonestFirst, rescued);
    if rescued != [] {
      return Some(Choice(rescued[0].tower, rescued[0].tower, moves));
    }
    return if moves != [] then Some(Choice(moves[0].source, moves[0].source, moves)) else None;
  }
}
