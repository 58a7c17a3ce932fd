/** When a send or an ability is accepted, and what it then does, said without the rules' own steps. */
module OrderLaws {
  import opened Text
  import opened World
  import opened Routes
  import opened DispatchRoute
  import opened Combat
  import opened BattleRules

  // ----- Sends

  /** From an own tower of two units or more to another tower, along a legal route where routes matter. */
  ghost predicate CanDispatch(g: GameState, source: Id, target: Id, team: Team) {
    && source in g.territories && target in g.territories && source != target
    && g.territories[source].owner == team && g.territories[source].units >= 2
    && (UsesTacticalRules(g.rules) ==> exists p :: LegalRoute(g, team, source, target, p))
  }

  /** An army that has just left: at the start of a straight march of no less than a second, or of the
      first leg, of no less than two, of a route no legal route beats. */
  ghost predicate JustLeft(g: GameState, a: Army, source: Id, target: Id, team: Team, multiplier: real) {
    && source in g.territories && a.source == source && a.owner == team && a.progress == 0.0 && a.leg == 0
    && a.pace == (if multiplier > 0.0 then multiplier else 1.0) *
                 (if g.territories[source].kind == Stable then 1.25 else 1.0)
    && if UsesTacticalRules(g.rules) then
         && LegalRoute(g, team, source, target, a.route) && Simple(a.route) && a.target == a.route[1]
         && (DirectAttack(g, team, source, target) ==> a.route == [source, target])
         && (!DirectAttack(g, team, source, target) ==> LeastRoute(g, team, source, target, a.route))
         && TakesSeconds(g, a, source, a.route[1], 2.0)
       else
         a.route == [] && a.target == target && TakesSeconds(g, a, source, target, 1.0)
  }

  /** The whole way from `from` to `to` takes the distance at 140 a second times the pace, but no less
      than `least` seconds. */
  ghost predicate TakesSeconds(g: GameState, a: Army, from: Id, to: Id, least: Positive) {
    var seconds := g.board.distance(from, to) / (140.0 * a.pace);
    a.speed == 1.0 / (if seconds < least then least else seconds)
  }

  /** `units` leave the source and `strength` march as one new army, counted as sent. */
  ghost predicate Marches(g: GameState, h: GameState, source: Id, target: Id, team: Team, multiplier: real, units: int,
    strength: int)
  {
    && source in g.territories && |h.armies| == |g.armies| + 1
    && (var a := h.armies[|g.armies|];
        && JustLeft(g, a, source, target, team, multiplier) && a.units == strength
        && h == g.(
             territories := g.territories[source :=
               g.territories[source].(units := g.territories[source].units - units)],
             armies := g.armies + [a],
             stats := if team == Player then g.stats.(playerSent := g.stats.playerSent + strength)
                      else g.stats.(enemySent := g.stats.enemySent + strength)))
  }

  /** Half of the garrison is on its way. */
  ghost predicate Dispatched(g: GameState, h: GameState, source: Id, target: Id, team: Team, multiplier: real) {
    source in g.territories && Marches(g, h, source, target, team, multiplier,
      g.territories[source].units / 2, g.territories[source].units / 2)
  }

  lemma RouteIff(g: GameState, source: Id, target: Id, team: Team)
    requires source in g.territories && target in g.territories && source != target
      && g.territories[source].owner == team
    ensures FindRoute(g, source, target, team).Some? <==>
      (UsesTacticalRules(g.rules) ==> exists p :: LegalRoute(g, team, source, target, p))
    ensures UsesTacticalRules(g.rules) ==> RouteCorrect(g, source, target, team)
    ensures !UsesTacticalRules(g.rules) ==> FindRoute(g, source, target, team) == Some([source, target])
  {
    hide LegalRoute, FriendlyPathsFrom, Neighbors, BestEntry, LeastRoute;
    if UsesTacticalRules(g.rules) {
      FindRouteCorrect(g, source, target, team);
    }
  }

  lemma NewArmyLeaves(g: GameState, source: Id, target: Id, team: Team, multiplier: real, units: int)
    requires source in g.territories && target in g.territories && source != target
      && g.territories[source].owner == team
    requires FindRoute(g, source, target, team).Some?
    ensures |FindRoute(g, source, target, team).value| >= 2
    ensures
      var a := NewArmy(g, source, target, team, multiplier, units, FindRoute(g, source, target, team).value);
      JustLeft(g, a, source, target, team, multiplier) && a.units == units
  {
    hide FindRoute, LeastRoute, DirectAttack;
    RouteIff(g, source, target, team);
    RouteLength(g, source, target, team);
  }

  /** A send is accepted exactly when it can be made, and half of the garrison then marches. */
  lemma DispatchIff(g: GameState, source: Id, target: Id, team: Team, multiplier: real)
    ensures
      var r := Dispatch(g, source, target, team, multiplier);
      && (r.Ok? <==> CanDispatch(g, source, target, team))
      && (r.Ok? ==> Dispatched(g, r.value, source, target, team, multiplier))
  {
    hide FindRoute, NewArmy, JustLeft, LegalRoute;
    if source in g.territories && target in g.territories && source != target && g.territories[source].owner == team {
      RouteIff(g, source, target, team);
      if FindRoute(g, source, target, team).Some? {
        NewArmyLeaves(g, source, target, team, multiplier, DispatchUnits(g.territories[source].units));
      }
    }
  }

  // ----- Abilities

  function UsedBy(g: GameState, team: Team): bool {
    if team == Player then g.playerAbilityUsed else g.enemyAbilityUsed
  }

  /** Under v4 rules, in an undecided battle of 15 seconds or more, an ability not yet used, at an own
      tower: on itself, or for a charge towards a tower it could send to. */
  ghost predicate CanUse(g: GameState, team: Team, commander: Commander, source: Id, target: Id) {
    && g.rules == 4 && g.status == Playing && g.elapsed + 0.000000001 >= 15.0 && !UsedBy(g, team)
    && source in g.territories && g.territories[source].owner == team
    && match commander
       case CrownGuard => target == source
       case Quartermaster => target == source
       case Vanguard => CanDispatch(g, source, target, team)
       case NoCommander => false
  }

  /** The state with the team's ability used up, and otherwise `h`. */
  function Spent(h: GameState, team: Team): GameState {
    if team == Player then h.(playerAbilityUsed := true) else h.(enemyAbilityUsed := true)
  }

  /** Eight seconds of shield, five units, or half of the garrison on its way with twice its strength and
      one and a half times its speed. */
  ghost predicate Used(g: GameState, h: GameState, team: Team, commander: Commander, source: Id, target: Id,
    multiplier: real)
  {
    && source in g.territories
    && match commander
       case CrownGuard => h == Spent(g.(shieldedUntil := g.shieldedUntil[source := Milliseconds(g.elapsed) + 8000]),
         team)
       case Quartermaster =>
         h == Spent(g.(territories := g.territories[source :=
           g.territories[source].(units := g.territories[source].units + 5)]), team)
       case Vanguard =>
         exists mid :: h == Spent(mid, team) && Marches(g, mid, source, target, team, multiplier * 1.5,
           g.territories[source].units / 2, 2 * (g.territories[source].units / 2))
       case NoCommander => false
  }

  lemma BoostDoubles(g: GameState, h: GameState, source: Id, target: Id, team: Team, multiplier: real)
    requires Dispatched(g, h, source, target, team, multiplier)
    ensures h.armies != []
    ensures
      var half := g.territories[source].units / 2;
      Marches(g, Boost(h, team), source, target, team, multiplier, half, 2 * half)
  {
    hide JustLeft;
    var half := g.territories[source].units / 2;
    var a := h.armies[|g.armies|];
    LeavesWith(g, a, source, target, team, multiplier, 2 * half);
    var r := Boost(h, team);
    assert r.armies == g.armies + [a.(units := 2 * half)];
  }

  lemma LeavesWith(g: GameState, a: Army, source: Id, target: Id, team: Team, multiplier: real, units: int)
    requires JustLeft(g, a, source, target, team, multiplier)
    ensures JustLeft(g, a.(units := units), source, target, team, multiplier)
  {
    hide LegalRoute, LeastRoute, DirectAttack;
  }

  /** An ability is accepted exactly when it can be used, and does what its commander promises. */
  lemma AbilityIff(g: GameState, team: Team, commander: Commander, source: Id, target: Id, multiplier: real)
    ensures
      var r := ApplyAbility(g, team, commander, source, target, multiplier);
      && (r.Some? <==> CanUse(g, team, commander, source, target))
      && (r.Some? ==> Used(g, r.value, team, commander, source, target, multiplier))
  {
    hide Dispatch, Dispatched, Marches, Milliseconds, LegalRoute, Boost;
    if commander == Vanguard {
      var m := multiplier * CHARGE_SPEED_MULTIPLIER;
      DispatchIff(g, source, target, team, m);
      var r := Dispatch(g, source, target, team, m);
      if r.Ok? {
        BoostDoubles(g, r.value, source, target, team, m);
        var mid := Boost(r.value, team);
        assert Marches(g, mid, source, target, team, multiplier * 1.5, g.territories[source].units / 2,
          2 * (g.territories[source].units / 2));
        assert Spent(mid, team) == MarkUsed(mid, team);
      }
    }
  }

  /** A shield put up at one moment doubles the defence of its tower for exactly the eight seconds since. */
  lemma ShieldHolds(g: GameState, h: GameState, team: Team, source: Id, multiplier: real, later: GameState, a: Army)
    requires Used(g, h, team, CrownGuard, source, source, multiplier)
    requires source in later.shieldedUntil && later.shieldedUntil[source] == h.shieldedUntil[source]
    requires source in later.territories && a.target == source
    ensures
      var up := Milliseconds(later.elapsed) < Milliseconds(g.elapsed) + 8000;
      ArrivalOutcome(later, a) == ResolveArrival(later.territories[source], a.units, a.owner, up)
  {
    hide Milliseconds, ResolveArrival;
  }
}
