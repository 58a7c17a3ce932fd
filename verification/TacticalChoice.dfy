/** What one planning tick of the bot decides, said without its loops: rescue before conquest before
    supply, and which tower and which senders each of them means. */
module TacticalChoice {
  import opened Text
  import opened Sorting
  import opened World
  import opened Routes
  import opened DispatchRoute
  import opened March
  import opened Combat
  import opened BattleRules
  import opened TacticalRules
  import opened TacticalOrders

  ghost function SendersTo(g: GameState, id: Id, team: Team, multiplier: Positive): seq<Candidate> {
    Candidates(g, SortedIds(g.territories.Keys), id, team, multiplier)
  }

  /** Each of the senders to the tower. */
  function Aimed(senders: seq<Candidate>, id: Id): (r: seq<Move>)
    ensures |r| == |senders| && forall i :: 0 <= i < |r| ==> r[i] == Move(senders[i].source, id)
  {
    seq(|senders|, i requires 0 <= i < |senders| => Move(senders[i].source, id))
  }

  function SentUnits(senders: seq<Candidate>): int {
    if senders == [] then 0 else SentUnits(senders[..|senders| - 1]) + senders[|senders| - 1].army.units
  }

  lemma SentMore(senders: seq<Candidate>, n: nat)
    requires n < |senders|
    ensures SentUnits(senders[..n + 1]) == SentUnits(senders[..n]) + senders[n].army.units
  {
    assert senders[..n + 1][..n] == senders[..n];
  }

  lemma AimedMore(senders: seq<Candidate>, n: nat, id: Id)
    requires n < |senders|
    ensures Aimed(senders[..n + 1], id) == Aimed(senders[..n], id) + [Move(senders[n].source, id)]
  {
  }

  // ----- Threats

  /** An army of another side reaches the tower in `eta` seconds. */
  ghost predicate HostileDue(g: GameState, id: Id, team: Team, eta: real) {
    exists i :: 0 <= i < |g.armies| && HostileAt(g, id, team, i, eta)
  }

  predicate HostileAt(g: GameState, id: Id, team: Team, i: nat, eta: real)
    requires i < |g.armies|
  {
    var a := g.armies[i];
    a.owner != team && ArmyDestination(a, g.territories) == id && ArrivalSeconds(g.board, a, g.territories) == eta
  }

  /** The first and the last hostile arrival at the tower. */
  ghost predicate Besieged(g: GameState, id: Id, team: Team, first: real, last: real) {
    && HostileDue(g, id, team, first) && HostileDue(g, id, team, last)
    && forall eta :: HostileDue(g, id, team, eta) ==> first <= eta <= last
  }

  /** The armies already marching will have taken the team's own tower when the last hostile one lands. */
  ghost predicate Threatened(g: GameState, id: Id, team: Team, first: real, last: real) {
    var t := At(g.territories, id);
    t.owner == team && Besieged(g, id, team, first, last) && ForecastAt(g, id, last, t.units, false).owner != team
  }

  lemma {:induction false} ApproachingAre(g: GameState, id: Id, count: nat)
    requires count <= |g.armies|
    ensures forall x :: x in Approaching(g, id, count) <==>
      && x.index < count && x.army == g.armies[x.index] && ArmyDestination(x.army, g.territories) == id
      && x.eta == ArrivalSeconds(g.board, x.army, g.territories)
  {
    hide ArmyDestination, ArrivalSeconds;
    if count > 0 {
      ApproachingAre(g, id, count - 1);
    }
  }

  lemma IncomingTotal()
    ensures TotalOrder(IncomingLe)
  {
  }

  lemma {:induction false} HostileAre(team: Team, incoming: seq<Incoming>)
    ensures forall x :: x in HostileTo(team, incoming) <==> x in incoming && x.army.owner != team
  {
    if incoming != [] {
      var front, last := incoming[..|incoming| - 1], incoming[|incoming| - 1];
      assert incoming == front + [last];
      HostileAre(team, front);
    }
  }

  lemma {:induction false} HostileAscend(team: Team, incoming: seq<Incoming>)
    requires Sorted(IncomingLe, incoming)
    ensures Sorted(IncomingLe, HostileTo(team, incoming))
  {
    hide IncomingLe;
    if incoming != [] {
      var front, last := incoming[..|incoming| - 1], incoming[|incoming| - 1];
      HostileAscend(team, front);
      HostileAre(team, front);
      var kept := HostileTo(team, front);
      forall k | 0 <= k < |kept| ensures IncomingLe(kept[k], last) {
        assert kept[k] in front;
        var i :| 0 <= i < |front| && front[i] == kept[k];
        assert incoming[i] == kept[k];
      }
    }
  }

  lemma IncomingAre(g: GameState, id: Id)
    ensures Sorted(IncomingLe, IncomingAt(g, id))
    ensures forall x :: x in IncomingAt(g, id) <==>
      && x.index < |g.armies| && x.army == g.armies[x.index] && ArmyDestination(x.army, g.territories) == id
      && x.eta == ArrivalSeconds(g.board, x.army, g.territories)
  {
    hide ArmyDestination, ArrivalSeconds, IncomingLe;
    IncomingTotal();
    SortSorted(IncomingLe, Approaching(g, id, |g.armies|));
    ApproachingAre(g, id, |g.armies|);
  }

  lemma DueIsListed(g: GameState, id: Id, team: Team, i: nat, eta: real)
    requires i < |g.armies| && HostileAt(g, id, team, i, eta)
    ensures exists k ::
      0 <= k < |HostileTo(team, IncomingAt(g, id))| && HostileTo(team, IncomingAt(g, id))[k].eta == eta
  {
    hide ArmyDestination, ArrivalSeconds, IncomingAt;
    IncomingAre(g, id);
    HostileAre(team, IncomingAt(g, id));
    assert Incoming(g.armies[i], i, eta) in HostileTo(team, IncomingAt(g, id));
  }

  lemma ListedIsDue(g: GameState, id: Id, team: Team, k: nat)
    requires k < |HostileTo(team, IncomingAt(g, id))|
    ensures HostileDue(g, id, team, HostileTo(team, IncomingAt(g, id))[k].eta)
  {
    hide ArmyDestination, ArrivalSeconds, IncomingAt;
    IncomingAre(g, id);
    HostileAre(team, IncomingAt(g, id));
    var x := HostileTo(team, IncomingAt(g, id))[k];
    assert x in HostileTo(team, IncomingAt(g, id));
    assert HostileAt(g, id, team, x.index, x.eta);
  }

  lemma HostilesDue(g: GameState, id: Id, team: Team)
    ensures
      var hostile := HostileTo(team, IncomingAt(g, id));
      && Sorted(IncomingLe, hostile)
      && forall eta :: HostileDue(g, id, team, eta) <==> exists k :: 0 <= k < |hostile| && hostile[k].eta == eta
  {
    hide HostileAt, IncomingAt, HostileTo, Sorted;
    IncomingAre(g, id);
    HostileAscend(team, IncomingAt(g, id));
    var hostile := HostileTo(team, IncomingAt(g, id));
    forall eta ensures HostileDue(g, id, team, eta) <==> exists k :: 0 <= k < |hostile| && hostile[k].eta == eta {
      if i :| 0 <= i < |g.armies| && HostileAt(g, id, team, i, eta) {
        DueIsListed(g, id, team, i, eta);
      }
      if k :| 0 <= k < |hostile| && hostile[k].eta == eta {
        ListedIsDue(g, id, team, k);
      }
    }
  }

  lemma EtasAscend(hostile: seq<Incoming>)
    requires Sorted(IncomingLe, hostile) && hostile != []
    ensures forall k :: 0 <= k < |hostile| ==> hostile[0].eta <= hostile[k].eta <= hostile[|hostile| - 1].eta
  {
  }

  lemma ThreatIff(g: GameState, id: Id, team: Team)
    ensures ThreatTo(g, id, team).Some? ==>
      var t := ThreatTo(g, id, team).value;
      t.tower == id && Threatened(g, id, team, t.firstEta, t.horizon)
    ensures forall first, last :: Threatened(g, id, team, first, last) ==>
      ThreatTo(g, id, team) == Some(Threat(id, first, last))
  {
    hide HostileDue, IncomingAt, ForecastAt, IncomingLe;
    HostilesDue(g, id, team);
    var hostile := HostileTo(team, IncomingAt(g, id));
    if hostile != [] {
      EtasAscend(hostile);
      assert HostileDue(g, id, team, hostile[0].eta) && HostileDue(g, id, team, hostile[|hostile| - 1].eta);
    }
  }

  // ----- What a forecast is

  /** The army is bound for the tower and lands there within the time. */
  predicate Due(g: GameState, id: Id, seconds: real, i: nat) {
    && i < |g.armies| && ArmyDestination(g.armies[i], g.territories) == id
    && ArrivalSeconds(g.board, g.armies[i], g.territories) <= seconds + EPSILON
  }

  /** Every army that is due, once, by arrival and then by its place in the list. */
  ghost predicate DueInOrder(g: GameState, id: Id, seconds: real, due: seq<nat>) {
    && (forall i: nat :: i in due <==> Due(g, id, seconds, i))
    && LandInTurn(g, due)
  }

  ghost predicate LandInTurn(g: GameState, due: seq<nat>) {
    forall j, k :: 0 <= j < k < |due| ==> LandsBefore(g, due[j], due[k])
  }

  predicate LandsBefore(g: GameState, i: nat, j: nat) {
    && i < |g.armies| && j < |g.armies|
    && var x, y := ArrivalSeconds(g.board, g.armies[i], g.territories),
         ArrivalSeconds(g.board, g.armies[j], g.territories);
       x < y || (x == y && i < j)
  }

  /** The tower before and after each of the armies. */
  ghost predicate Falls(g: GameState, t: Territory, shielded: bool, due: seq<nat>, towers: seq<Territory>) {
    && |towers| == |due| + 1 && towers[0] == t
    && forall k :: 0 <= k < |due| ==> Meets(g, due[k], towers[k], towers[k + 1], shielded)
  }

  predicate Meets(g: GameState, i: nat, before: Territory, after: Territory, shielded: bool) {
    && i < |g.armies|
    && var o := ResolveArrival(before, g.armies[i].units, g.armies[i].owner, shielded);
       after == before.(owner := o.owner, units := o.units)
  }

  ghost predicate ListsArmies(g: GameState, id: Id, incoming: seq<Incoming>) {
    forall k :: 0 <= k < |incoming| ==>
      && incoming[k].index < |g.armies| && incoming[k].army == g.armies[incoming[k].index]
      && ArmyDestination(incoming[k].army, g.territories) == id
      && incoming[k].eta == ArrivalSeconds(g.board, incoming[k].army, g.territories)
  }

  /** The places of those in the list that land within the time. */
  function DueOf(incoming: seq<Incoming>, seconds: real): seq<nat> {
    if incoming == [] then []
    else
      var last := incoming[|incoming| - 1];
      DueOf(incoming[..|incoming| - 1], seconds) + (if last.eta <= seconds + EPSILON then [last.index] else [])
  }

  lemma {:induction false} DueAre(incoming: seq<Incoming>, seconds: real)
    ensures forall i: nat :: i in DueOf(incoming, seconds) <==>
      exists k :: 0 <= k < |incoming| && incoming[k].index == i && incoming[k].eta <= seconds + EPSILON
  {
    if incoming != [] {
      var front, last := incoming[..|incoming| - 1], incoming[|incoming| - 1];
      DueAre(front, seconds);
      assert forall k :: 0 <= k < |front| ==> incoming[k] == front[k];
      assert incoming[|front|] == last;
    }
  }

  lemma {:induction false} ApproachingDistinct(g: GameState, id: Id, count: nat)
    requires count <= |g.armies|
    ensures Distinct(Approaching(g, id, count))
  {
    hide ArmyDestination, ArrivalSeconds;
    if count > 0 {
      ApproachingDistinct(g, id, count - 1);
      ApproachingAre(g, id, count - 1);
      var front := Approaching(g, id, count - 1);
      assert forall k :: 0 <= k < |front| ==> front[k] in front;
    }
  }

  ghost predicate ComesInOrder(g: GameState, incoming: seq<Incoming>) {
    forall j, k :: 0 <= j < k < |incoming| ==> LandsBefore(g, incoming[j].index, incoming[k].index)
  }

  lemma IncomingInOrder(g: GameState, id: Id)
    ensures ListsArmies(g, id, IncomingAt(g, id)) && ComesInOrder(g, IncomingAt(g, id))
  {
    hide ArmyDestination, ArrivalSeconds, IncomingAt;
    IncomingAre(g, id);
    IncomingOnce(g, id);
    var incoming := IncomingAt(g, id);
    assert forall k :: 0 <= k < |incoming| ==> incoming[k] in incoming;
    assert ListsArmies(g, id, incoming);
  }

  lemma IncomingOnce(g: GameState, id: Id)
    ensures Distinct(IncomingAt(g, id))
  {
    ApproachingDistinct(g, id, |g.armies|);
    DistinctAnyOrder(Approaching(g, id, |g.armies|), IncomingAt(g, id));
  }

  /** The forecast of a list is what its due armies, one after the other, make of the tower. */
  lemma {:induction false} ForecastRuns(g: GameState, id: Id, t: Territory, incoming: seq<Incoming>, seconds: real,
    shielded: bool) returns (towers: seq<Territory>)
    requires ListsArmies(g, id, incoming)
    ensures Falls(g, t, shielded, DueOf(incoming, seconds), towers)
    ensures towers[|towers| - 1] == Forecast(t, incoming, seconds, shielded)
  {
    if incoming == [] {
      towers := [t];
    } else {
      var front, last := incoming[..|incoming| - 1], incoming[|incoming| - 1];
      assert forall k :: 0 <= k < |front| ==> front[k] == incoming[k];
      towers := ForecastRuns(g, id, t, front, seconds, shielded);
      if last.eta <= seconds + EPSILON {
        var before, after := towers[|towers| - 1], Forecast(t, incoming, seconds, shielded);
        assert Meets(g, last.index, before, after, shielded) by { hide ResolveArrival, Falls; }
        towers := FallsOnce(g, t, shielded, DueOf(front, seconds), towers, last.index, after);
      }
    }
  }

  lemma FallsOnce(g: GameState, t: Territory, shielded: bool, due: seq<nat>, towers: seq<Territory>, i: nat,
    after: Territory) returns (more: seq<Territory>)
    requires Falls(g, t, shielded, due, towers) && Meets(g, i, towers[|due|], after, shielded)
    ensures Falls(g, t, shielded, due + [i], more) && more[|due| + 1] == after
  {
    hide Meets;
    more := towers + [after];
  }

  lemma {:induction false} DueAscend(g: GameState, incoming: seq<Incoming>, seconds: real)
    requires ComesInOrder(g, incoming)
    ensures LandInTurn(g, DueOf(incoming, seconds))
  {
    hide LandsBefore;
    if incoming != [] {
      var front, last := incoming[..|incoming| - 1], incoming[|incoming| - 1];
      assert forall k :: 0 <= k < |front| ==> front[k] == incoming[k];
      DueAscend(g, front, seconds);
      DueAre(front, seconds);
      var due := DueOf(front, seconds);
      forall j | 0 <= j < |due| ensures LandsBefore(g, due[j], last.index) {
        assert due[j] in due;
        var k :| 0 <= k < |front| && front[k].index == due[j];
        assert incoming[k] == front[k] && incoming[|front|] == last;
        assert LandsBefore(g, incoming[k].index, incoming[|front|].index);
      }
    }
  }

  /** A forecast is the tower after every army that is due there, fighting or reinforcing one after the
      other in the order of their arrival. */
  lemma ForecastIs(g: GameState, id: Id, seconds: real, units: int, shielded: bool)
    ensures exists due, towers ::
      && DueInOrder(g, id, seconds, due)
      && Falls(g, At(g.territories, id).(units := units), shielded, due, towers)
      && towers[|due|] == ForecastAt(g, id, seconds, units, shielded)
  {
    hide IncomingAt, LandsBefore, Meets, ArmyDestination, ArrivalSeconds;
    IncomingInOrder(g, id);
    var incoming := IncomingAt(g, id);
    var due := DueOf(incoming, seconds);
    DueAscend(g, incoming, seconds);
    forall i: nat ensures i in due <==> Due(g, id, seconds, i) {
      DueListed(g, id, seconds, i);
    }
    var towers := ForecastRuns(g, id, At(g.territories, id).(units := units), incoming, seconds, shielded);
    assert DueInOrder(g, id, seconds, due);
  }

  lemma DueListed(g: GameState, id: Id, seconds: real, i: nat)
    ensures i in DueOf(IncomingAt(g, id), seconds) <==> Due(g, id, seconds, i)
  {
    hide IncomingAt, ArmyDestination, ArrivalSeconds;
    IncomingAre(g, id);
    var incoming := IncomingAt(g, id);
    DueAre(incoming, seconds);
    if Due(g, id, seconds, i) {
      var x := Incoming(g.armies[i], i, ArrivalSeconds(g.board, g.armies[i], g.territories));
      assert x in incoming;
      var k :| 0 <= k < |incoming| && incoming[k] == x;
    }
    if k :| 0 <= k < |incoming| && incoming[k].index == i && incoming[k].eta <= seconds + EPSILON {
      assert incoming[k] in incoming;
    }
  }

  // ----- Who can send

  /** An own tower with four units or more, other than the target and with a route to it, that keeps
      itself through the last hostile army on its way after half of it has left. */
  ghost predicate CanSend(g: GameState, source: Id, target: Id, team: Team) {
    var s := At(g.territories, source);
    && s.owner == team && s.units >= 4 && source != target && FindRoute(g, source, target, team).Some?
    && forall first, last :: Besieged(g, source, team, first, last) ==>
         ForecastAt(g, source, last, s.units - DispatchUnits(s.units), false).owner == team
  }

  lemma SafeIff(g: GameState, source: Id, team: Team)
    ensures SafeToSend(g, source, team) <==> forall first, last :: Besieged(g, source, team, first, last) ==>
      var units := At(g.territories, source).units;
      ForecastAt(g, source, last, units - DispatchUnits(units), false).owner == team
  {
    hide HostileDue, IncomingAt, ForecastAt, IncomingLe, DispatchUnits;
    HostilesDue(g, source, team);
    var hostile := HostileTo(team, IncomingAt(g, source));
    if hostile != [] {
      EtasAscend(hostile);
      assert HostileDue(g, source, team, hostile[0].eta) && HostileDue(g, source, team, hostile[|hostile| - 1].eta);
      assert Besieged(g, source, team, hostile[0].eta, hostile[|hostile| - 1].eta);
    }
  }

  lemma CandidateIff(g: GameState, source: Id, target: Id, team: Team, multiplier: Positive)
    ensures
      var c := CandidateFrom(g, source, target, team, multiplier);
      && (c.Some? <==> CanSend(g, source, target, team))
      && (c.Some? ==>
            && c.value.source == source && c.value.army.units == At(g.territories, source).units / 2
            && c.value.eta == ArrivalSeconds(g.board, c.value.army, g.territories))
  {
    hide SafeToSend, FindRoute, Besieged, ForecastAt, ArrivalSeconds;
    SafeIff(g, source, team);
    RouteLength(g, source, target, team);
  }

  lemma {:induction false} SendersFrom(g: GameState, ids: seq<Id>, target: Id, team: Team, multiplier: Positive)
    ensures forall c :: c in Senders(g, ids, target, team, multiplier) <==>
      exists source :: source in ids && CandidateFrom(g, source, target, team, multiplier) == Some(c)
  {
    hide CandidateFrom;
    if ids != [] {
      var front, last := ids[..|ids| - 1], ids[|ids| - 1];
      assert ids == front + [last];
      SendersFrom(g, front, target, team, multiplier);
    }
  }

  /** The senders to a tower: each tower that can send, once, with half of its garrison, by arrival and
      then by id. */
  lemma SendersAre(g: GameState, id: Id, team: Team, multiplier: Positive)
    ensures
      var senders := SendersTo(g, id, team, multiplier);
      && (forall source :: source in g.territories ==>
            (CanSend(g, source, id, team) <==> exists k :: 0 <= k < |senders| && senders[k].source == source))
      && (forall k :: 0 <= k < |senders| ==>
            && senders[k].source in g.territories
            && senders[k].army.units == g.territories[senders[k].source].units / 2
            && senders[k].eta == ArrivalSeconds(g.board, senders[k].army, g.territories))
      && (forall j, k :: 0 <= j < k < |senders| ==>
            && senders[j].source != senders[k].source
            && (senders[j].eta < senders[k].eta
                || (senders[j].eta == senders[k].eta && AtMost(senders[j].source, senders[k].source))))
  {
    hide CanSend, CandidateFrom, SortedIds, AtMost, ArrivalSeconds;
    var ids := SortedIds(g.territories.Keys);
    IdsAscend(g);
    SortedIdsList(g.territories.Keys);
    CandidateTotal();
    SendersFrom(g, ids, id, team, multiplier);
    CandidatesDistinct(g, ids, id, team, multiplier);
    var senders := SendersTo(g, id, team, multiplier);
    SortSorted(CandidateLe, Senders(g, ids, id, team, multiplier));
    forall k | 0 <= k < |senders| ensures senders[k].source in g.territories
      && CandidateFrom(g, senders[k].source, id, team, multiplier) == Some(senders[k])
    {
      assert senders[k] in Senders(g, ids, id, team, multiplier);
      var source :| source in ids && CandidateFrom(g, source, id, team, multiplier) == Some(senders[k]);
      CandidateIff(g, source, id, team, multiplier);
    }
    forall source | source in g.territories
      ensures CanSend(g, source, id, team) <==> exists k :: 0 <= k < |senders| && senders[k].source == source
    {
      CandidateIff(g, source, id, team, multiplier);
      if CanSend(g, source, id, team) {
        var c := CandidateFrom(g, source, id, team, multiplier).value;
        assert source in ids && c in Senders(g, ids, id, team, multiplier);
        var k :| 0 <= k < |senders| && senders[k] == c;
      }
    }
    forall k | 0 <= k < |senders| ensures senders[k].army.units == g.territories[senders[k].source].units / 2
      && senders[k].eta == ArrivalSeconds(g.board, senders[k].army, g.territories)
    {
      CandidateIff(g, senders[k].source, id, team, multiplier);
    }
  }

  /** The bot plans with the army its dispatch will send: under v3 and v4 a sender is a dispatch that
      succeeds, and its army is the one that marches then. */
  lemma PlansWhatItSends(g: GameState, source: Id, target: Id, team: Team, multiplier: Positive)
    requires UsesTacticalRules(g.rules) && source in g.territories && target in g.territories
    ensures
      var c, r := CandidateFrom(g, source, target, team, multiplier), Dispatch(g, source, target, team, multiplier);
      c.Some? ==> r.Ok? && r.value.armies == g.armies + [c.value.army]
  {
    hide SafeToSend, FindRoute, ArrivalSeconds;
    RouteLength(g, source, target, team);
  }

  lemma CandidatesDistinct(g: GameState, ids: seq<Id>, target: Id, team: Team, multiplier: Positive)
    requires Simple(ids)
    ensures
      var senders := Candidates(g, ids, target, team, multiplier);
      forall i, j :: 0 <= i < j < |senders| ==> senders[i].source != senders[j].source
  {
    hide Senders, Sendable;
    CandidatesAreOk(g, ids, target, team, multiplier);
  }

  // ----- Rescue

  /** The first `n` senders all arrive before the first hostile army, and with them the tower holds. */
  ghost predicate Saves(g: GameState, id: Id, team: Team, multiplier: Positive, n: nat, first: real, last: real) {
    var senders := SendersTo(g, id, team, multiplier);
    && Threatened(g, id, team, first, last) && 0 < n <= |senders|
    && (forall i :: 0 <= i < n ==> senders[i].eta < first - EPSILON)
    && ForecastAt(g, id, last, At(g.territories, id).units + SentUnits(senders[..n]), false).owner == team
  }

  ghost predicate Rescues(g: GameState, id: Id, team: Team, multiplier: Positive, n: nat) {
    exists first, last :: Saves(g, id, team, multiplier, n, first, last)
  }

  ghost predicate Rescuable(g: GameState, id: Id, team: Team, multiplier: Positive) {
    exists n: nat :: Rescues(g, id, team, multiplier, n)
  }

  /** The rescue of a tower: its shortest list of first senders that does. */
  ghost predicate RescuedBy(g: GameState, id: Id, team: Team, multiplier: Positive, moves: seq<Move>) {
    exists n: nat ::
      && Rescues(g, id, team, multiplier, n) && (forall k: nat :: k < n ==> !Rescues(g, id, team, multiplier, k))
      && moves == Aimed(SendersTo(g, id, team, multiplier)[..n], id)
  }

  ghost predicate Helps(g: GameState, threat: Threat, team: Team, units: int, senders: seq<Candidate>, n: nat) {
    && n <= |senders| && (forall i :: 0 <= i < n ==> senders[i].eta < threat.firstEta - EPSILON)
    && ForecastAt(g, threat.tower, threat.horizon, units + SentUnits(senders[..n]), false).owner == team
  }

  ghost predicate HelpsFirst(g: GameState, threat: Threat, team: Team, units: int, senders: seq<Candidate>, i: nat,
    n: nat,
    moves: seq<Move>)
  {
    && Helps(g, threat, team, units, senders, n) && moves == Aimed(senders[..n], threat.tower)
    && forall k :: i < k < n ==> !Helps(g, threat, team, units, senders, k)
  }

  ghost predicate HelpFrom(g: GameState, threat: Threat, team: Team, units: int, senders: seq<Candidate>, i: nat,
    r: Option<seq<Move>>)
  {
    match r
    case None => forall n :: i < n ==> !Helps(g, threat, team, units, senders, n)
    case Some(moves) => exists n :: i < n && HelpsFirst(g, threat, team, units, senders, i, n, moves)
  }

  lemma {:induction false} LateSendersHelpNobody(g: GameState, threat: Threat, team: Team, units: int, moves: seq<Move>,
    senders: seq<Candidate>)
    requires forall i :: 0 <= i < |senders| ==> senders[i].eta >= threat.firstEta - EPSILON
    ensures RescueWith(g, threat, team, units, moves, senders) == None
    decreases |senders|
  {
    hide ForecastAt;
    if senders != [] {
      LateSendersHelpNobody(g, threat, team, units, moves, senders[1..]);
    }
  }

  lemma HelpNow(g: GameState, threat: Threat, team: Team, units: int, senders: seq<Candidate>, i: nat)
    requires Helps(g, threat, team, units, senders, i + 1)
    ensures HelpFrom(g, threat, team, units, senders, i, Some(Aimed(senders[..i + 1], threat.tower)))
  {
    assert HelpsFirst(g, threat, team, units, senders, i, i + 1, Aimed(senders[..i + 1], threat.tower));
  }

  lemma HelpLater(g: GameState, threat: Threat, team: Team, units: int, senders: seq<Candidate>, i: nat,
    r: Option<seq<Move>>)
    requires HelpFrom(g, threat, team, units, senders, i + 1, r) && !Helps(g, threat, team, units, senders, i + 1)
    ensures HelpFrom(g, threat, team, units, senders, i, r)
  {
    hide Helps;
    if r.Some? {
      var n :| i + 1 < n && HelpsFirst(g, threat, team, units, senders, i + 1, n, r.value);
      assert HelpsFirst(g, threat, team, units, senders, i, n, r.value);
    }
  }

  lemma HelpNever(g: GameState, threat: Threat, team: Team, units: int, senders: seq<Candidate>, i: nat)
    requires i == |senders| || (i < |senders| && senders[i].eta >= threat.firstEta - EPSILON)
    ensures HelpFrom(g, threat, team, units, senders, i, None)
  {
    hide ForecastAt;
  }

  lemma HelpOne(g: GameState, threat: Threat, team: Team, units: int, senders: seq<Candidate>, i: nat)
    requires i < |senders| && forall j :: 0 <= j <= i ==> senders[j].eta < threat.firstEta - EPSILON
    ensures Helps(g, threat, team, units, senders, i + 1) <==>
      ForecastAt(g, threat.tower, threat.horizon, units + SentUnits(senders[..i]) + senders[i].army.units,
        false).owner == team
  {
    hide ForecastAt;
    SentMore(senders, i);
  }

  /** One early sender more. */
  lemma RescueStep(g: GameState, threat: Threat, team: Team, units: int, senders: seq<Candidate>, i: nat)
    requires i < |senders| && senders[i].eta < threat.firstEta - EPSILON
    ensures
      var front, all := senders[..i], senders[..i + 1];
      RescueWith(g, threat, team, units + SentUnits(front), Aimed(front, threat.tower), senders[i..]) ==
        if ForecastAt(g, threat.tower, threat.horizon, units + SentUnits(front) + senders[i].army.units,
          false).owner == team
        then Some(Aimed(all, threat.tower))
        else RescueWith(g, threat, team, units + SentUnits(all), Aimed(all, threat.tower), senders[i + 1..])
  {
    hide ForecastAt, SentUnits;
    SentMore(senders, i);
    AimedMore(senders, i, threat.tower);
    assert senders[i..][1..] == senders[i + 1..];
  }

  lemma {:induction false} RescueFrom(g: GameState, threat: Threat, team: Team, units: int, senders: seq<Candidate>,
    i: nat)
    requires i <= |senders| && forall j, k :: 0 <= j < k < |senders| ==> senders[j].eta <= senders[k].eta
    requires forall j :: 0 <= j < i ==> senders[j].eta < threat.firstEta - EPSILON
    ensures HelpFrom(g, threat, team, units, senders, i,
      RescueWith(g, threat, team, units + SentUnits(senders[..i]), Aimed(senders[..i], threat.tower), senders[i..]))
    decreases |senders| - i
  {
    hide ForecastAt, HelpFrom, Helps, SentUnits, RescueWith, Aimed;
    if i == |senders| || senders[i].eta >= threat.firstEta - EPSILON {
      HelpNever(g, threat, team, units, senders, i);
      LateSendersHelpNobody(g, threat, team, units + SentUnits(senders[..i]), Aimed(senders[..i], threat.tower),
        senders[i..]);
    } else {
      RescueStep(g, threat, team, units, senders, i);
      HelpOne(g, threat, team, units, senders, i);
      if Helps(g, threat, team, units, senders, i + 1) {
        HelpNow(g, threat, team, units, senders, i);
      } else {
        RescueFrom(g, threat, team, units, senders, i + 1);
        HelpLater(g, threat, team, units, senders, i,
          RescueWith(g, threat, team, units + SentUnits(senders[..i + 1]), Aimed(senders[..i + 1], threat.tower),
            senders[i + 1..]));
      }
    }
  }

  lemma CandidateTotal()
    ensures TotalOrder(CandidateLe)
  {
    hide AtMost;
    TextOrder();
    assert forall x: string, y: string :: AtMost(x, y) || AtMost(y, x);
    assert forall x: string, y: string, z: string :: AtMost(x, y) && AtMost(y, z) ==> AtMost(x, z);
  }

  lemma SendersAscend(g: GameState, id: Id, team: Team, multiplier: Positive)
    ensures
      var senders := SendersTo(g, id, team, multiplier);
      forall j, k :: 0 <= j < k < |senders| ==> senders[j].eta <= senders[k].eta
  {
    hide SortedIds;
    CandidateTotal();
    SortSorted(CandidateLe, Senders(g, SortedIds(g.territories.Keys), id, team, multiplier));
  }

  lemma RescuesAre(g: GameState, id: Id, team: Team, multiplier: Positive, threat: Threat, n: nat)
    requires ThreatTo(g, id, team) == Some(threat)
    ensures threat.tower == id
    ensures Rescues(g, id, team, multiplier, n) <==>
      0 < n && Helps(g, threat, team, At(g.territories, id).units, SendersTo(g, id, team, multiplier), n)
  {
    hide ThreatTo, Threatened, ForecastAt, SendersTo;
    ThreatIff(g, id, team);
    if 0 < n && Helps(g, threat, team, At(g.territories, id).units, SendersTo(g, id, team, multiplier), n) {
      assert Saves(g, id, team, multiplier, n, threat.firstEta, threat.horizon);
    }
  }

  lemma NoThreatNoRescue(g: GameState, id: Id, team: Team, multiplier: Positive)
    ensures ThreatTo(g, id, team) == None ==> !Rescuable(g, id, team, multiplier)
  {
    hide ThreatTo, Threatened, ForecastAt, SendersTo;
    ThreatIff(g, id, team);
  }

  lemma RescueOfIff(g: GameState, id: Id, team: Team, multiplier: Positive)
    ensures
      match RescueOf(g, SortedIds(g.territories.Keys), id, team, multiplier)
      case None => !Rescuable(g, id, team, multiplier)
      case Some(moves) => RescuedBy(g, id, team, multiplier, moves) && Rescuable(g, id, team, multiplier)
  {
    hide ThreatTo, ForecastAt, SendersTo, Helps, Rescues, Candidates, SortedIds;
    NoThreatNoRescue(g, id, team, multiplier);
    SendersAscend(g, id, team, multiplier);
    SameSenders(g, id, team, multiplier);
    var senders := SendersTo(g, id, team, multiplier);
    if ThreatTo(g, id, team).Some? {
      var threat := ThreatTo(g, id, team).value;
      forall n: nat ensures Rescues(g, id, team, multiplier, n) <==>
        0 < n && Helps(g, threat, team, At(g.territories, id).units, senders, n)
      {
        RescuesAre(g, id, team, multiplier, threat, n);
      }
      RescuesAre(g, id, team, multiplier, threat, 0);
      RescueFrom(g, threat, team, At(g.territories, id).units, senders, 0);
      assert senders[0..] == senders && Aimed(senders[..0], id) == [];
    }
  }

  lemma SameSenders(g: GameState, id: Id, team: Team, multiplier: Positive)
    ensures SendersTo(g, id, team, multiplier) == Candidates(g, SortedIds(g.territories.Keys), id, team, multiplier)
  {
  }

  ghost predicate FirstRescued(g: GameState, i: nat, k: nat, team: Team, multiplier: Positive, moves: seq<Move>)
    requires i <= k < |SortedIds(g.territories.Keys)|
  {
    var ids := SortedIds(g.territories.Keys);
    && RescuedBy(g, ids[k], team, multiplier, moves) && Rescuable(g, ids[k], team, multiplier)
    && forall j :: i <= j < k ==> !Rescuable(g, ids[j], team, multiplier)
  }

  ghost predicate RescuedFrom(g: GameState, i: nat, team: Team, multiplier: Positive, r: Option<seq<Move>>) {
    var ids := SortedIds(g.territories.Keys);
    match r
    case None => forall k :: i <= k < |ids| ==> !Rescuable(g, ids[k], team, multiplier)
    case Some(moves) => exists k :: i <= k < |ids| && FirstRescued(g, i, k, team, multiplier, moves)
  }

  lemma {:induction false} RescueFirst(g: GameState, i: nat, team: Team, multiplier: Positive)
    requires i <= |SortedIds(g.territories.Keys)|
    ensures RescuedFrom(g, i, team, multiplier, Rescue(g, SortedIds(g.territories.Keys), i, team, multiplier))
    decreases |SortedIds(g.territories.Keys)| - i
  {
    hide RescueOf, Rescuable, RescuedBy, SortedIds;
    var ids := SortedIds(g.territories.Keys);
    if i < |ids| {
      RescueOfIff(g, ids[i], team, multiplier);
      RescueFirst(g, i + 1, team, multiplier);
      var r := Rescue(g, ids, i, team, multiplier);
      if r.Some? && !Rescuable(g, ids[i], team, multiplier) {
        assert r == Rescue(g, ids, i + 1, team, multiplier);
        var k :| i + 1 <= k < |ids| && FirstRescued(g, i + 1, k, team, multiplier, r.value);
        assert FirstRescued(g, i, k, team, multiplier, r.value);
      } else if r.Some? {
        assert FirstRescued(g, i, i, team, multiplier, r.value);
      }
    }
  }

  /** The moves rescue the first tower that can be rescued. */
  ghost predicate RescuesFirst(g: GameState, team: Team, multiplier: Positive, moves: seq<Move>) {
    exists id :: id in g.territories && RescuedBy(g, id, team, multiplier, moves)
      && forall x :: x in g.territories && Rescuable(g, x, team, multiplier) ==> AtMost(id, x)
  }

  lemma IdsAscend(g: GameState)
    ensures
      var ids := SortedIds(g.territories.Keys);
      && (forall x :: x in ids <==> x in g.territories)
      && forall i, j :: 0 <= i <= j < |ids| ==> AtMost(ids[i], ids[j])
  {
    hide AtMost, SortedIds;
    SortedIdsList(g.territories.Keys);
    var ids := SortedIds(g.territories.Keys);
    forall i | 0 <= i < |ids| ensures AtMost(ids[i], ids[i]) {
      AtMostTotal(ids[i], ids[i]);
    }
  }

  lemma RescueIff(g: GameState, team: Team, multiplier: Positive)
    ensures
      match Rescue(g, SortedIds(g.territories.Keys), 0, team, multiplier)
      case None => forall id :: id in g.territories ==> !Rescuable(g, id, team, multiplier)
      case Some(moves) =>
        && RescuesFirst(g, team, multiplier, moves)
        && exists id :: id in g.territories && Rescuable(g, id, team, multiplier)
  {
    hide Rescue, Rescuable, RescuedBy, SortedIds, AtMost;
    RescueFirst(g, 0, team, multiplier);
    IdsAscend(g);
    var ids := SortedIds(g.territories.Keys);
    match Rescue(g, ids, 0, team, multiplier)
    case None =>
    case Some(moves) =>
      var k :| 0 <= k < |ids| && FirstRescued(g, 0, k, team, multiplier, moves);
      assert ids[k] in g.territories;
      forall x | x in g.territories && Rescuable(g, x, team, multiplier) ensures AtMost(ids[k], x) {
        var j :| 0 <= j < |ids| && ids[j] == x;
      }
  }

  // ----- Conquest

  /** The tower after the senders' waves have landed on it one by one. */
  function AfterWaves(t: Territory, senders: seq<Candidate>, team: Team): Territory {
    if senders == [] then t
    else Attack(AfterWaves(t, senders[..|senders| - 1], team), senders[|senders| - 1].army.units, team, false)
  }

  lemma WavesMore(t: Territory, senders: seq<Candidate>, n: nat, team: Team)
    requires n < |senders|
    ensures AfterWaves(t, senders[..n + 1], team) == Attack(AfterWaves(t, senders[..n], team), senders[n].army.units,
      team, false)
  {
    hide Attack;
    assert senders[..n + 1][..n] == senders[..n];
  }

  /** The tower as the bot expects it in `eta` seconds: the armies under way have landed, and a held
      tower has produced all the while. */
  ghost function Expected(g: GameState, id: Id, eta: real): Territory {
    var t := At(g.territories, id);
    var grown := if t.owner == Neutral then 0
      else Ceil(eta * t.productionRate * (if t.kind == Barracks then 1.25 else 1.0));
    var p := ForecastAt(g, id, eta, t.units, false);
    p.(units := p.units + grown)
  }

  /** The first `n` senders, and no fewer, take the foreign tower in the forecast, which the armies
      under way would not. */
  ghost predicate Conquers(g: GameState, id: Id, team: Team, multiplier: Positive, n: nat) {
    var t, senders := At(g.territories, id), SendersTo(g, id, team, multiplier);
    && t.owner != team && 0 < n <= |senders|
    && (var eta := senders[|senders| - 1].eta;
        && ForecastAt(g, id, eta, t.units, false).owner != team
        && AfterWaves(Expected(g, id, eta), senders[..n], team).owner == team
        && forall k :: 0 <= k < n ==> AfterWaves(Expected(g, id, eta), senders[..k], team).owner != team)
  }

  /** A held tower is worth 1000, a neutral one 500; a barracks 180 more, a stable 140, another 100; up to
      50 units left count, and every tenth of a second until the last wave needed counts against it. */
  ghost function Worth(g: GameState, id: Id, team: Team, multiplier: Positive, n: nat): real
    requires 0 < n <= |SendersTo(g, id, team, multiplier)|
  {
    var t, senders := At(g.territories, id), SendersTo(g, id, team, multiplier);
    var left := AfterWaves(Expected(g, id, senders[|senders| - 1].eta), senders[..n], team).units;
    (if t.owner == Neutral then 500.0 else 1000.0)
    + (if t.kind == Barracks then 180.0 else if t.kind == Stable then 140.0 else 100.0)
    + (if left < 50 then left as real else 50.0) - Round(senders[n - 1].eta * 10.0) as real
  }

  /** No conquest of another tower is worth more, and none worth the same comes before in text order. */
  ghost predicate ConquersBest(g: GameState, id: Id, team: Team, multiplier: Positive, n: nat) {
    && id in g.territories && Conquers(g, id, team, multiplier, n)
    && forall x, k: nat :: x in g.territories && Conquers(g, x, team, multiplier, k) ==>
         && Worth(g, x, team, multiplier, k) <= Worth(g, id, team, multiplier, n)
         && (Worth(g, x, team, multiplier, k) == Worth(g, id, team, multiplier, n) ==> AtMost(id, x))
  }

  ghost predicate TakenFirst(base: Territory, senders: seq<Candidate>, team: Team, i: nat, n: nat) {
    && i < n <= |senders| && AfterWaves(base, senders[..n], team).owner == team
    && forall k :: i < k < n ==> AfterWaves(base, senders[..k], team).owner != team
  }

  function PlanOf(t: Territory, id: Id, team: Team, base: Territory, senders: seq<Candidate>, n: nat): Plan
    requires 0 < n <= |senders|
  {
    Plan(Aimed(senders[..n], id), ConquestScore(t, AfterWaves(base, senders[..n], team).units, senders[n - 1].eta))
  }

  /** One wave more. */
  lemma ConquerStep(t: Territory, id: Id, team: Team, base: Territory, senders: seq<Candidate>, i: nat)
    requires i < |senders|
    ensures
      var front, all := senders[..i], senders[..i + 1];
      ConquerWith(t, id, team, AfterWaves(base, front, team), Aimed(front, id), senders[i..]) ==
        if AfterWaves(base, all, team).owner == team then Some(PlanOf(t, id, team, base, senders, i + 1))
        else ConquerWith(t, id, team, AfterWaves(base, all, team), Aimed(all, id), senders[i + 1..])
  {
    hide Attack, ConquestScore, AfterWaves;
    WavesMore(base, senders, i, team);
    AimedMore(senders, i, id);
    assert senders[i..][1..] == senders[i + 1..];
  }

  ghost predicate ConqueredFrom(t: Territory, id: Id, team: Team, base: Territory, senders: seq<Candidate>, i: nat,
    r: Option<Plan>)
  {
    match r
    case None => forall n :: i < n <= |senders| ==> AfterWaves(base, senders[..n], team).owner != team
    case Some(plan) => exists n ::
      TakenFirst(base, senders, team, i, n) && plan == PlanOf(t, id, team, base, senders, n)
  }

  lemma ConquerLater(t: Territory, id: Id, team: Team, base: Territory, senders: seq<Candidate>, i: nat,
    r: Option<Plan>)
    requires i < |senders| && AfterWaves(base, senders[..i + 1], team).owner != team
    requires ConqueredFrom(t, id, team, base, senders, i + 1, r)
    ensures ConqueredFrom(t, id, team, base, senders, i, r)
  {
    hide AfterWaves, PlanOf;
    if r.Some? {
      var n :| TakenFirst(base, senders, team, i + 1, n) && r.value == PlanOf(t, id, team, base, senders, n);
      assert TakenFirst(base, senders, team, i, n);
    }
  }

  lemma {:induction false} ConquerFrom(t: Territory, id: Id, team: Team, base: Territory, senders: seq<Candidate>,
    i: nat)
    requires i <= |senders|
    ensures ConqueredFrom(t, id, team, base, senders, i,
      ConquerWith(t, id, team, AfterWaves(base, senders[..i], team), Aimed(senders[..i], id), senders[i..]))
    decreases |senders| - i
  {
    hide Attack, AfterWaves, PlanOf, Aimed;
    if i < |senders| {
      hide ConquerWith;
      ConquerStep(t, id, team, base, senders, i);
      if AfterWaves(base, senders[..i + 1], team).owner == team {
        assert TakenFirst(base, senders, team, i, i + 1);
      } else {
        ConquerFrom(t, id, team, base, senders, i + 1);
        ConquerLater(t, id, team, base, senders, i,
          ConquerWith(t, id, team, AfterWaves(base, senders[..i + 1], team), Aimed(senders[..i + 1], id),
            senders[i + 1..]));
      }
    }
  }

  lemma ExpectedIs(g: GameState, id: Id, eta: real)
    ensures Expected(g, id, eta) == Projected(g, id, eta)
  {
    hide ForecastAt;
    var t := At(g.territories, id);
    var p := ForecastAt(g, id, eta, t.units, false);
    assert p.(units := p.units + 0) == p;
    assert eta * t.productionRate * ProductionMultiplier(t.kind) ==
      eta * t.productionRate * (if t.kind == Barracks then 1.25 else 1.0);
  }

  lemma WorthIs(g: GameState, id: Id, team: Team, multiplier: Positive, n: nat)
    requires 0 < n <= |SendersTo(g, id, team, multiplier)|
    ensures
      var t, senders := At(g.territories, id), SendersTo(g, id, team, multiplier);
      var base := Expected(g, id, senders[|senders| - 1].eta);
      PlanOf(t, id, team, base, senders, n) == Plan(Aimed(senders[..n], id), Worth(g, id, team, multiplier, n))
  {
    hide ForecastAt, SendersTo, AfterWaves, Expected, Round;
  }

  ghost predicate PlanFor(g: GameState, id: Id, team: Team, multiplier: Positive, n: nat, plan: Plan) {
    && Conquers(g, id, team, multiplier, n)
    && plan == Plan(Aimed(SendersTo(g, id, team, multiplier)[..n], id), Worth(g, id, team, multiplier, n))
  }

  lemma ConquestOfIff(g: GameState, id: Id, team: Team, multiplier: Positive)
    ensures
      match ConquestOf(g, SortedIds(g.territories.Keys), id, team, multiplier)
      case None => forall n: nat :: !Conquers(g, id, team, multiplier, n)
      case Some(plan) => exists n: nat :: PlanFor(g, id, team, multiplier, n, plan)
  {
    hide ForecastAt, SendersTo, Candidates, SortedIds, AfterWaves, Expected, Projected, Worth, PlanOf;
    SameSenders(g, id, team, multiplier);
    var t, senders := At(g.territories, id), SendersTo(g, id, team, multiplier);
    if senders != [] {
      var eta := senders[|senders| - 1].eta;
      var base := Expected(g, id, eta);
      ExpectedIs(g, id, eta);
      OwnerExpected(g, id, eta);
      NoWaves(base, team);
      assert senders[0..] == senders && senders[..0] == [] && Aimed([], id) == [];
      ConquerFrom(t, id, team, base, senders, 0);
      var r := ConquestOf(g, SortedIds(g.territories.Keys), id, team, multiplier);
      if r.Some? {
        var n :| TakenFirst(base, senders, team, 0, n) && r.value == PlanOf(t, id, team, base, senders, n);
        WorthIs(g, id, team, multiplier, n);
        assert Conquers(g, id, team, multiplier, n);
        assert PlanFor(g, id, team, multiplier, n, r.value);
      }
    }
  }

  lemma OwnerExpected(g: GameState, id: Id, eta: real)
    ensures Expected(g, id, eta).owner == ForecastAt(g, id, eta, At(g.territories, id).units, false).owner
  {
    hide ForecastAt;
  }

  lemma NoWaves(t: Territory, team: Team)
    ensures AfterWaves(t, [], team) == t
  {
  }

  lemma OneConquest(g: GameState, id: Id, team: Team, multiplier: Positive, n: nat, k: nat)
    requires Conquers(g, id, team, multiplier, n) && Conquers(g, id, team, multiplier, k)
    ensures n == k
  {
    hide ForecastAt, SendersTo, AfterWaves, Expected;
  }

  lemma OnlyConquest(g: GameState, id: Id, team: Team, multiplier: Positive, n: nat)
    requires Conquers(g, id, team, multiplier, n)
    ensures forall k: nat :: Conquers(g, id, team, multiplier, k) ==> k == n
  {
    hide Conquers;
    forall k: nat | Conquers(g, id, team, multiplier, k) ensures k == n {
      OneConquest(g, id, team, multiplier, n, k);
    }
  }

  ghost predicate BestSoFar(g: GameState, team: Team, multiplier: Positive, count: nat, k: nat, n: nat)
    requires count <= |SortedIds(g.territories.Keys)|
  {
    var ids := SortedIds(g.territories.Keys);
    && k < count && Conquers(g, ids[k], team, multiplier, n)
    && forall j: nat, m: nat :: j < count && Conquers(g, ids[j], team, multiplier, m) ==>
         if j < k then Worth(g, ids[j], team, multiplier, m) < Worth(g, ids[k], team, multiplier, n)
         else Worth(g, ids[j], team, multiplier, m) <= Worth(g, ids[k], team, multiplier, n)
  }

  ghost predicate BestUpTo(g: GameState, team: Team, multiplier: Positive, count: nat, r: Option<Plan>)
    requires count <= |SortedIds(g.territories.Keys)|
  {
    var ids := SortedIds(g.territories.Keys);
    match r
    case None => forall j: nat, m: nat :: j < count ==> !Conquers(g, ids[j], team, multiplier, m)
    case Some(plan) => exists k: nat, n: nat ::
      BestSoFar(g, team, multiplier, count, k, n) && PlanFor(g, ids[k], team, multiplier, n, plan)
  }

  lemma BestStays(g: GameState, team: Team, multiplier: Positive, count: nat, k: nat, n: nat)
    requires count < |SortedIds(g.territories.Keys)| && BestSoFar(g, team, multiplier, count, k, n)
    requires
      var ids := SortedIds(g.territories.Keys);
      forall m: nat :: Conquers(g, ids[count], team, multiplier, m) ==>
        Worth(g, ids[count], team, multiplier, m) <= Worth(g, ids[k], team, multiplier, n)
    ensures BestSoFar(g, team, multiplier, count + 1, k, n)
  {
    hide Worth, SortedIds, SendersTo, ForecastAt, AfterWaves, Expected;
  }

  lemma BestTaken(g: GameState, team: Team, multiplier: Positive, count: nat, best: Option<Plan>, m: nat)
    requires count < |SortedIds(g.territories.Keys)| && BestUpTo(g, team, multiplier, count, best)
    requires Conquers(g, SortedIds(g.territories.Keys)[count], team, multiplier, m)
    requires best.Some? ==> best.value.score < Worth(g, SortedIds(g.territories.Keys)[count], team, multiplier, m)
    ensures BestSoFar(g, team, multiplier, count + 1, count, m)
  {
    hide Worth, SortedIds, SendersTo, ForecastAt, AfterWaves, Expected;
    OnlyConquest(g, SortedIds(g.territories.Keys)[count], team, multiplier, m);
  }

  /** One more tower is looked at. */
  lemma BestMore(g: GameState, team: Team, multiplier: Positive, count: nat, best: Option<Plan>, plan: Option<Plan>)
    requires count < |SortedIds(g.territories.Keys)| && BestUpTo(g, team, multiplier, count, best)
    requires
      var id := SortedIds(g.territories.Keys)[count];
      match plan
      case None => forall n: nat :: !Conquers(g, id, team, multiplier, n)
      case Some(p) => exists n: nat :: PlanFor(g, id, team, multiplier, n, p)
    ensures BestUpTo(g, team, multiplier, count + 1, BetterPlan(best, plan))
  {
    hide Conquers, Worth, SortedIds, SendersTo;
    var ids := SortedIds(g.territories.Keys);
    if plan.Some? {
      var m: nat :| PlanFor(g, ids[count], team, multiplier, m, plan.value);
      OnlyConquest(g, ids[count], team, multiplier, m);
      if BetterPlan(best, plan) == plan && (best.Some? ==> best.value.score < plan.value.score) {
        BestTaken(g, team, multiplier, count, best, m);
      }
    }
    if best.Some? && (plan.Some? ==> plan.value.score <= best.value.score) {
      var k: nat, n: nat :| BestSoFar(g, team, multiplier, count, k, n)
        && PlanFor(g, ids[k], team, multiplier, n, best.value);
      BestStays(g, team, multiplier, count, k, n);
    }
  }

  lemma {:induction false} BestConquestIs(g: GameState, team: Team, multiplier: Positive, count: nat)
    requires count <= |SortedIds(g.territories.Keys)|
    ensures BestUpTo(g, team, multiplier, count, BestConquest(g, SortedIds(g.territories.Keys), count, team,
      multiplier))
  {
    hide ConquestOf, Conquers, Worth, SortedIds, BetterPlan, PlanFor;
    if count > 0 {
      hide BestUpTo;
      var ids := SortedIds(g.territories.Keys);
      BestConquestIs(g, team, multiplier, count - 1);
      ConquestOfIff(g, ids[count - 1], team, multiplier);
      BestMore(g, team, multiplier, count - 1, BestConquest(g, ids, count - 1, team, multiplier),
        ConquestOf(g, ids, ids[count - 1], team, multiplier));
    }
  }

  /** The moves are the best conquest's. */
  ghost predicate ConquersByBest(g: GameState, team: Team, multiplier: Positive, moves: seq<Move>) {
    exists id, n: nat ::
      ConquersBest(g, id, team, multiplier, n) && moves == Aimed(SendersTo(g, id, team, multiplier)[..n], id)
  }

  ghost predicate Conquerable(g: GameState, team: Team, multiplier: Positive) {
    exists id, n: nat :: id in g.territories && Conquers(g, id, team, multiplier, n)
  }

  lemma BestIsBest(g: GameState, team: Team, multiplier: Positive, k: nat, n: nat)
    requires BestSoFar(g, team, multiplier, |SortedIds(g.territories.Keys)|, k, n)
    ensures ConquersBest(g, SortedIds(g.territories.Keys)[k], team, multiplier, n)
  {
    hide Worth, SortedIds, AtMost, SendersTo, ForecastAt, AfterWaves, Expected;
    IdsAscend(g);
    var ids := SortedIds(g.territories.Keys);
    assert ids[k] in ids;
    forall x, m: nat | x in g.territories && Conquers(g, x, team, multiplier, m)
      ensures Worth(g, x, team, multiplier, m) <= Worth(g, ids[k], team, multiplier, n)
      ensures Worth(g, x, team, multiplier, m) == Worth(g, ids[k], team, multiplier, n) ==> AtMost(ids[k], x)
    {
      var j: nat :| j < |ids| && ids[j] == x;
    }
  }

  lemma ConquestIff(g: GameState, team: Team, multiplier: Positive)
    ensures
      var ids := SortedIds(g.territories.Keys);
      match BestConquest(g, ids, |ids|, team, multiplier)
      case None => !Conquerable(g, team, multiplier)
      case Some(plan) => Conquerable(g, team, multiplier) && ConquersByBest(g, team, multiplier, plan.moves)
  {
    hide Conquers, Worth, SortedIds, AtMost, BestConquest, SendersTo;
    var ids := SortedIds(g.territories.Keys);
    BestConquestIs(g, team, multiplier, |ids|);
    IdsAscend(g);
    match BestConquest(g, ids, |ids|, team, multiplier)
    case None =>
      forall id, n: nat | id in g.territories ensures !Conquers(g, id, team, multiplier, n) {
        var j: nat :| j < |ids| && ids[j] == id;
      }
    case Some(plan) =>
      var k: nat, n: nat :| BestSoFar(g, team, multiplier, |ids|, k, n)
        && PlanFor(g, ids[k], team, multiplier, n, plan);
      BestIsBest(g, team, multiplier, k, n);
  }

  // ----- Supply

  /** The tower touches one that is not the team's. */
  ghost predicate Frontier(g: GameState, team: Team, id: Id) {
    exists n :: Road(g.board, id, n) && At(g.territories, n).owner != team
  }

  /** The team's units among the first `count` armies that are bound for the tower. */
  function UnitsBound(g: GameState, team: Team, id: Id, count: nat): int
    requires count <= |g.armies|
  {
    if count == 0 then 0
    else
      var a := g.armies[count - 1];
      UnitsBound(g, team, id, count - 1) + (if a.owner == team && ArmyDestination(a, g.territories) == id then a.units
        else 0)
  }

  /** A frontier tower whose next dispatch, once its own armies are in, would not beat the strongest
      foreign neighbour. */
  ghost predicate Wanting(g: GameState, team: Team, id: Id) {
    var t := At(g.territories, id);
    var half := DispatchUnits(t.units + UnitsBound(g, team, id, |g.armies|));
    && t.owner == team && Frontier(g, team, id)
    && (half == 0 || exists n :: Road(g.board, id, n) && Outweighs(g, team, n, half))
  }

  predicate Outweighs(g: GameState, team: Team, n: Id, half: int) {
    var t := At(g.territories, n);
    t.owner != team && half <= DefenseStrength(t.units, DefenseQuarters(t.kind, false))
  }

  /** The first of the tower's senders that is not on the frontier itself. */
  ghost predicate RearFirst(g: GameState, team: Team, senders: seq<Candidate>, j: nat) {
    j < |senders| && !Frontier(g, team, senders[j].source) && forall i :: 0 <= i < j ==>
      Frontier(g, team, senders[i].source)
  }

  ghost predicate Suppliable(g: GameState, team: Team, multiplier: Positive, id: Id) {
    && id in g.territories && Wanting(g, team, id)
    && exists j: nat :: RearFirst(g, team, SendersTo(g, id, team, multiplier), j)
  }

  /** One send from the rear to the first frontier tower that wants it and can have it. */
  ghost predicate SuppliesFirst(g: GameState, team: Team, multiplier: Positive, moves: seq<Move>) {
    exists id, j: nat ::
      && Suppliable(g, team, multiplier, id) && RearFirst(g, team, SendersTo(g, id, team, multiplier), j)
      && moves == [Move(SendersTo(g, id, team, multiplier)[j].source, id)]
      && forall x :: Suppliable(g, team, multiplier, x) ==> AtMost(id, x)
  }

  lemma {:induction false} AnyForeignIff(g: GameState, team: Team, near: seq<Id>)
    ensures AnyForeign(g, team, near) <==> exists n :: n in near && At(g.territories, n).owner != team
  {
    if near != [] {
      AnyForeignIff(g, team, near[..|near| - 1]);
      assert near == near[..|near| - 1] + [near[|near| - 1]];
    }
  }

  lemma FrontierIff(g: GameState, team: Team, id: Id)
    ensures OnFrontier(g, team, id) <==> Frontier(g, team, id)
  {
    hide AnyForeign, Road;
    AnyForeignIff(g, team, Neighbors(g.board, id));
  }

  lemma {:induction false} StrongestIff(g: GameState, team: Team, near: seq<Id>, half: int)
    ensures half <= Strongest(g, team, near) <==> half <= 0 || exists n :: n in near && Outweighs(g, team, n, half)
  {
    hide DefenseStrength, DefenseQuarters;
    if near != [] {
      var front, last := near[..|near| - 1], near[|near| - 1];
      StrongestIff(g, team, front, half);
      assert near == front + [last];
      assert last in near && forall n :: n in near <==> n in front || n == last;
      if n :| n in front && Outweighs(g, team, n, half) {
        assert n in near;
      }
    }
  }

  lemma {:induction false} CommittedFront(team: Team, x: Incoming, s: seq<Incoming>)
    ensures Committed(team, [x] + s) == (if x.army.owner == team then x.army.units else 0) + Committed(team, s)
  {
    if s == [] {
      assert [x] + s == [x];
    } else {
      CommittedFront(team, x, s[..|s| - 1]);
      assert ([x] + s)[..|s|] == [x] + s[..|s| - 1];
    }
  }

  lemma {:induction false} CommittedInsert(team: Team, x: Incoming, s: seq<Incoming>)
    ensures Committed(team, Insert(IncomingLe, x, s)) == (if x.army.owner == team then x.army.units else 0) +
      Committed(team, s)
  {
    hide IncomingLe, Committed;
    if s == [] || IncomingLe(x, s[0]) {
      CommittedFront(team, x, s);
    } else {
      CommittedInsert(team, x, s[1..]);
      CommittedFront(team, s[0], s[1..]);
      CommittedFront(team, s[0], Insert(IncomingLe, x, s[1..]));
      assert s == [s[0]] + s[1..];
    }
  }

  lemma {:induction false} CommittedSort(team: Team, s: seq<Incoming>)
    ensures Committed(team, Sort(IncomingLe, s)) == Committed(team, s)
  {
    hide IncomingLe, Committed;
    if s != [] {
      CommittedSort(team, s[1..]);
      CommittedInsert(team, s[0], Sort(IncomingLe, s[1..]));
      CommittedFront(team, s[0], s[1..]);
      assert s == [s[0]] + s[1..];
    }
  }

  lemma CommittedBack(team: Team, s: seq<Incoming>, x: Incoming)
    ensures Committed(team, s + [x]) == Committed(team, s) + (if x.army.owner == team then x.army.units else 0)
  {
    assert (s + [x])[..|s|] == s;
  }

  lemma {:induction false} CommittedApproaching(g: GameState, team: Team, id: Id, count: nat)
    requires count <= |g.armies|
    ensures Committed(team, Approaching(g, id, count)) == UnitsBound(g, team, id, count)
  {
    if count > 0 {
      CommittedApproaching(g, team, id, count - 1);
      OneMoreBound(g, team, id, count);
    }
  }

  lemma OneMoreBound(g: GameState, team: Team, id: Id, count: nat)
    requires 0 < count <= |g.armies|
    ensures Committed(team, Approaching(g, id, count)) - Committed(team, Approaching(g, id, count - 1)) ==
      UnitsBound(g, team, id, count) - UnitsBound(g, team, id, count - 1)
  {
    hide ArmyDestination, ArrivalSeconds, Committed;
    var front, a := Approaching(g, id, count - 1), g.armies[count - 1];
    if ArmyDestination(a, g.territories) == id {
      CommittedBack(team, front, Incoming(a, count - 1, ArrivalSeconds(g.board, a, g.territories)));
    } else {
      assert Approaching(g, id, count) == front;
    }
  }

  lemma StrongerNear(g: GameState, team: Team, id: Id, half: int)
    requires half >= 0
    ensures half <= Strongest(g, team, Neighbors(g.board, id)) <==>
      half == 0 || exists n :: Road(g.board, id, n) && Outweighs(g, team, n, half)
  {
    hide Strongest, Outweighs, Road;
    var near := Neighbors(g.board, id);
    StrongestIff(g, team, near, half);
    if n :| Road(g.board, id, n) && Outweighs(g, team, n, half) {
      assert n in near;
    }
    if n :| n in near && Outweighs(g, team, n, half) {
      assert Road(g.board, id, n);
    }
  }

  lemma CommittedIs(g: GameState, team: Team, id: Id)
    ensures Committed(team, IncomingAt(g, id)) == UnitsBound(g, team, id, |g.armies|)
  {
    hide Committed, UnitsBound, Approaching;
    CommittedSort(team, Approaching(g, id, |g.armies|));
    CommittedApproaching(g, team, id, |g.armies|);
  }

  lemma HalfNonNegative(units: int)
    ensures DispatchUnits(units) >= 0
  {
  }

  lemma WantingIff(g: GameState, team: Team, id: Id)
    ensures WantsSupply(g, team, id) <==> Wanting(g, team, id)
  {
    hide OnFrontier, Frontier, Strongest, Committed, Outweighs, Road, UnitsBound, IncomingAt, Neighbors, DispatchUnits;
    FrontierIff(g, team, id);
    CommittedIs(g, team, id);
    HalfNonNegative(At(g.territories, id).units + UnitsBound(g, team, id, |g.armies|));
    StrongerNear(g, team, id, DispatchUnits(At(g.territories, id).units + UnitsBound(g, team, id, |g.armies|)));
  }

  lemma RearNext(g: GameState, team: Team, senders: seq<Candidate>, j: nat)
    requires senders != [] && Frontier(g, team, senders[0].source)
    ensures RearFirst(g, team, senders, j) <==> 0 < j && RearFirst(g, team, senders[1..], j - 1)
  {
    hide Frontier;
    if 0 < j && RearFirst(g, team, senders[1..], j - 1) {
      forall i | 0 <= i < j ensures Frontier(g, team, senders[i].source) {
        if i > 0 {
          assert senders[1..][i - 1] == senders[i];
        }
      }
    }
  }

  lemma {:induction false} RearSenderIs(g: GameState, team: Team, senders: seq<Candidate>)
    ensures
      match RearSender(g, team, senders)
      case None => forall j: nat :: !RearFirst(g, team, senders, j)
      case Some(source) => exists j: nat :: RearFirst(g, team, senders, j) && senders[j].source == source
  {
    hide OnFrontier, Frontier;
    if senders != [] {
      FrontierIff(g, team, senders[0].source);
      if !OnFrontier(g, team, senders[0].source) {
        assert RearFirst(g, team, senders, 0);
      } else {
        RearSenderIs(g, team, senders[1..]);
        forall j: nat
          ensures RearFirst(g, team, senders, j) <==> 0 < j && RearFirst(g, team, senders[1..], j - 1)
        {
          RearNext(g, team, senders, j);
        }
        if RearSender(g, team, senders[1..]).Some? {
          var j: nat :| RearFirst(g, team, senders[1..], j)
            && senders[1..][j].source == RearSender(g, team, senders[1..]).value;
          assert RearFirst(g, team, senders, j + 1);
        }
      }
    }
  }

  ghost predicate SuppliesFrom(g: GameState, team: Team, multiplier: Positive, i: nat, moves: seq<Move>) {
    var ids := SortedIds(g.territories.Keys);
    if forall k :: i <= k < |ids| ==> !Suppliable(g, team, multiplier, ids[k]) then moves == []
    else exists k: nat, j: nat :: SuppliesAt(g, team, multiplier, i, k, j, moves)
  }

  ghost predicate SuppliesAt(g: GameState, team: Team, multiplier: Positive, i: nat, k: nat, j: nat, moves: seq<Move>) {
    var ids := SortedIds(g.territories.Keys);
    && i <= k < |ids| && Suppliable(g, team, multiplier, ids[k])
      && RearFirst(g, team, SendersTo(g, ids[k], team, multiplier), j)
    && moves == [Move(SendersTo(g, ids[k], team, multiplier)[j].source, ids[k])]
    && forall h :: i <= h < k ==> !Suppliable(g, team, multiplier, ids[h])
  }

  /** The tower at `i` is supplied, or the first one after it. */
  lemma SupplyNow(g: GameState, team: Team, multiplier: Positive, i: nat, j: nat)
    requires i < |SortedIds(g.territories.Keys)| && Suppliable(g, team, multiplier, SortedIds(g.territories.Keys)[i])
    requires RearFirst(g, team, SendersTo(g, SortedIds(g.territories.Keys)[i], team, multiplier), j)
    ensures
      var id := SortedIds(g.territories.Keys)[i];
      SuppliesFrom(g, team, multiplier, i, [Move(SendersTo(g, id, team, multiplier)[j].source, id)])
  {
    hide SortedIds, Wanting, Frontier, SendersTo, Suppliable;
    var id := SortedIds(g.territories.Keys)[i];
    assert SuppliesAt(g, team, multiplier, i, i, j, [Move(SendersTo(g, id, team, multiplier)[j].source, id)]);
  }

  lemma SupplyLater(g: GameState, team: Team, multiplier: Positive, i: nat, moves: seq<Move>)
    requires i < |SortedIds(g.territories.Keys)| && !Suppliable(g, team, multiplier, SortedIds(g.territories.Keys)[i])
    requires SuppliesFrom(g, team, multiplier, i + 1, moves)
    ensures SuppliesFrom(g, team, multiplier, i, moves)
  {
    hide SortedIds, Wanting, RearFirst, SendersTo, Suppliable;
    var next := i + 1;
    if k: nat, j: nat :| SuppliesAt(g, team, multiplier, next, k, j, moves) {
      assert SuppliesAt(g, team, multiplier, i, k, j, moves);
    }
  }

  lemma {:induction false} SupplyIs(g: GameState, team: Team, multiplier: Positive, i: nat)
    requires i <= |SortedIds(g.territories.Keys)|
    ensures SuppliesFrom(g, team, multiplier, i, TacticalRules.Supply(g, SortedIds(g.territories.Keys), i, team,
      multiplier))
    decreases |SortedIds(g.territories.Keys)| - i
  {
    hide SortedIds, WantsSupply, Wanting, RearSender, Frontier, Candidates, SendersTo;
    var ids := SortedIds(g.territories.Keys);
    if i < |ids| {
      hide SuppliesFrom;
      SupplyIs(g, team, multiplier, i + 1);
      WantingIff(g, team, ids[i]);
      SameSenders(g, ids[i], team, multiplier);
      var senders := SendersTo(g, ids[i], team, multiplier);
      RearSenderIs(g, team, senders);
      IdsAscend(g);
      assert ids[i] in ids;
      if Suppliable(g, team, multiplier, ids[i]) {
        var j: nat :| RearFirst(g, team, senders, j) && senders[j].source == RearSender(g, team, senders).value;
        SupplyNow(g, team, multiplier, i, j);
      } else {
        SupplyLater(g, team, multiplier, i, TacticalRules.Supply(g, ids, i + 1, team, multiplier));
      }
    }
  }

  lemma SupplyIff(g: GameState, team: Team, multiplier: Positive)
    ensures
      var moves := TacticalRules.Supply(g, SortedIds(g.territories.Keys), 0, team, multiplier);
      if exists id :: Suppliable(g, team, multiplier, id) then SuppliesFirst(g, team, multiplier, moves)
        else moves == []
  {
    hide SortedIds, Wanting, RearFirst, SendersTo, AtMost;
    var ids := SortedIds(g.territories.Keys);
    SupplyIs(g, team, multiplier, 0);
    IdsAscend(g);
    var moves := TacticalRules.Supply(g, ids, 0, team, multiplier);
    if id :| Suppliable(g, team, multiplier, id) {
      var h :| 0 <= h < |ids| && ids[h] == id;
      var k: nat, j: nat :| SuppliesAt(g, team, multiplier, 0, k, j, moves);
      forall x | Suppliable(g, team, multiplier, x) ensures AtMost(ids[k], x) {
        var l :| 0 <= l < |ids| && ids[l] == x;
      }
    } else {
      forall k | 0 <= k < |ids| ensures !Suppliable(g, team, multiplier, ids[k]) {
      }
    }
  }

  // ----- The tick

  /** What a planning tick decides: nothing once the battle is decided; else the rescue of the first
      tower that can be rescued; only without one the best conquest; only without that a supply. */
  ghost predicate TickDecided(g: GameState, team: Team, multiplier: Positive, moves: seq<Move>) {
    if g.status != Playing then moves == []
    else if exists id ::
      id in g.territories && Rescuable(g, id, team, multiplier) then RescuesFirst(g, team, multiplier, moves)
    else if Conquerable(g, team, multiplier) then ConquersByBest(g, team, multiplier, moves)
    else if exists id :: Suppliable(g, team, multiplier, id) then SuppliesFirst(g, team, multiplier, moves)
    else moves == []
  }

  lemma TickDecides(g: GameState, team: Team, multiplier: Positive)
    ensures TickDecided(g, team, multiplier, TacticalMoves(g, SortedIds(g.territories.Keys), team, multiplier))
  {
    hide SortedIds, Rescue, BestConquest, TacticalRules.Supply, Rescuable, RescuesFirst, Conquerable, ConquersByBest;
    hide Suppliable, SuppliesFirst;
    RescueIff(g, team, multiplier);
    ConquestIff(g, team, multiplier);
    SupplyIff(g, team, multiplier);
  }
}
