/** The route a dispatch takes, and why every legal target is visible through the fog of war. */
module DispatchRoute {
  import opened Text
  import opened World
  import opened Routes
  import opened RouteSearch

  /** The least of the candidates that enter `target` from a reachable tower of `entries`. */
  function BestEntry(b: Board, reachable: map<Id, Entry>, entries: seq<Id>, target: Id): (r: Option<Entry>)
    requires forall k :: k in reachable ==> reachable[k].path != []
    ensures r.Some? ==> r.value.path != []
  {
    if entries == [] then None
    else
      var n := entries[|entries| - 1];
      var chosen := BestEntry(b, reachable, entries[..|entries| - 1], target);
      if n in reachable then Better(chosen, Entry(reachable[n].cost + LegCost(b, n, target), reachable[n].path +
        [target]))
      else chosen
  }

  function Better(chosen: Option<Entry>, candidate: Entry): (r: Option<Entry>)
    ensures r == Some(candidate) || (chosen.Some? && r == chosen)
  {
    if chosen == None || candidate.cost < chosen.value.cost
       || (candidate.cost == chosen.value.cost && !AtMost(PathKey(chosen.value.path), PathKey(candidate.path)))
    then Some(candidate) else chosen
  }

  function FindRoute(g: GameState, source: Id, target: Id, owner: Team): Option<seq<Id>> {
    if source !in g.territories || target !in g.territories || source == target
      || g.territories[source].owner != owner then None
    else if !UsesTacticalRules(g.rules) then Some([source, target])
    else
      var reachable := FriendlyPathsFrom(g.board, Friendly(g.territories, owner), source);
      ReachablePaths(g.board, Friendly(g.territories, owner), source);
      if g.territories[target].owner != owner then
        if target in Neighbors(g.board, source) then Some([source, target])
        else
          match BestEntry(g.board, reachable, Neighbors(g.board, target), target)
          case Some(e) => Some(e.path)
          case None => None
      else if target in reachable then Some(reachable[target].path)
      else None
  }

  method FindDispatchRoute(g: GameState, source: Id, target: Id, owner: Team) returns (route: Option<seq<Id>>)
    ensures route == FindRoute(g, source, target, owner)
  {
    if source !in g.territories || target !in g.territories || source == target
      || g.territories[source].owner != owner {
      return None;
    }
    if !UsesTacticalRules(g.rules) {
      return Some([source, target]);
    }
    ReachablePaths(g.board, Friendly(g.territories, owner), source);
    if g.territories[target].owner != owner {
      var near := Neighbors(g.board, source);
      for i := 0 to |near|
        invariant forall j :: 0 <= j < i ==> near[j] != target
      {
        if near[i] == target {
          return Some([source, target]);
        }
      }
      var reachable := FriendlyPaths(g.board, g.territories, source, owner);
      var chosen := BestEntryInto(g.board, reachable, target);
      return if chosen.Some? then Some(chosen.value.path) else None;
    }
    var reachable := FriendlyPaths(g.board, g.territories, source, owner);
    return if target in reachable then Some(reachable[target].path) else None;
  }

  method BestEntryInto(b: Board, reachable: map<Id, Entry>, target: Id) returns (chosen: Option<Entry>)
    requires forall k :: k in reachable ==> reachable[k].path != []
    ensures chosen == BestEntry(b, reachable, Neighbors(b, target), target)
  {
    chosen := None;
    var entries := Neighbors(b, target);
    for i := 0 to |entries|
      invariant chosen == BestEntry(b, reachable, entries[..i], target)
    {
      assert entries[..i + 1][..i] == entries[..i];
      var n := entries[i];
      if n in reachable {
        var candidate := Entry(reachable[n].cost + LegCost(b, n, target), reachable[n].path + [target]);
        if chosen == None || candidate.cost < chosen.value.cost
           || (candidate.cost == chosen.value.cost && !AtMost(PathKey(chosen.value.path), PathKey(candidate.path))) {
          chosen := Some(candidate);
        }
      }
    }
    assert entries[..|entries|] == entries;
  }

  // ----- What a legal route is

  /** A road walk from an own source to a different tower, every stop in between an own tower. */
  ghost predicate LegalRoute(g: GameState, owner: Team, source: Id, target: Id, p: seq<Id>) {
    && source in Friendly(g.territories, owner) && target in g.territories && source != target
    && |p| >= 2 && p[0] == source && Last(p) == target && RoadPath(g.board, p)
    && forall i :: 1 <= i < |p| - 1 ==> p[i] in Friendly(g.territories, owner)
  }

  /** An attack on a tower with a road from the source. */
  predicate DirectAttack(g: GameState, owner: Team, source: Id, target: Id) {
    target in g.territories && g.territories[target].owner != owner && Road(g.board, source, target)
  }

  lemma {:induction false} BestEntryLeast(b: Board, reachable: map<Id, Entry>, entries: seq<Id>, target: Id)
    requires forall k :: k in reachable ==> reachable[k].path != [] && Last(reachable[k].path) == k
    ensures
      var r := BestEntry(b, reachable, entries, target);
      && (r.Some? ==> exists n :: n in entries && n in reachable && r.value == Extended(b, reachable[n], target))
      && (forall n :: n in entries && n in reachable ==> r.Some? && EntryLe(r.value, Extended(b, reachable[n], target)))
  {
    if entries != [] {
      var last := entries[|entries| - 1];
      var front := entries[..|entries| - 1];
      BestEntryLeast(b, reachable, front, target);
      assert entries == front + [last];
      EntryOrder();
    }
  }

  /** Entering a hostile target from the end of a walk costs and reads no less than entering it
      from the settled path to that same tower. */
  lemma EnteringNoBetter(b: Board, friendly: set<Id>, source: Id, q: seq<Id>)
    requires |q| >= 2 && FriendlyWalk(b, friendly, source, q[..|q| - 1])
    ensures
      var r := FriendlyPathsFrom(b, friendly, source);
      var m := q[|q| - 2];
      && m in r && r[m].path != [] && Last(r[m].path) == m
      && NoBetter(friendly + {source}, b, Extended(b, r[m], Last(q)), q)
  {
    var r := FriendlyPathsFrom(b, friendly, source);
    var front := q[..|q| - 1];
    var m := Last(front);
    WalkNoBetter(b, friendly, source, front);
    ReachablePath(b, friendly, source, m);
    ExtensionNoBetter(b, friendly, source, r[m], front, Last(q));
    assert q == front + [Last(q)];
  }

  /** `p` costs no more than `q`, and over order-safe ids a simple `q` of equal cost reads no less. */
  ghost predicate NoWorse(g: GameState, p: seq<Id>, q: seq<Id>) {
    && Cost(g.board, p) <= Cost(g.board, q)
    && (OrderSafe(g.territories.Keys) && Simple(q) ==> EntryLe(Entry(Cost(g.board, p), p), Entry(Cost(g.board, q), q)))
  }

  ghost predicate LeastRoute(g: GameState, owner: Team, source: Id, target: Id, p: seq<Id>) {
    forall q :: LegalRoute(g, owner, source, target, q) ==> NoWorse(g, p, q)
  }

  ghost predicate RouteCorrect(g: GameState, source: Id, target: Id, owner: Team) {
    match FindRoute(g, source, target, owner)
    case None => forall q :: !LegalRoute(g, owner, source, target, q)
    case Some(p) =>
      && LegalRoute(g, owner, source, target, p) && Simple(p)
      && (if DirectAttack(g, owner, source, target) then p == [source, target]
          else LeastRoute(g, owner, source, target, p))
  }

  lemma OrderSafeSubset(small: set<Id>, large: set<Id>)
    requires small <= large && OrderSafe(large)
    ensures OrderSafe(small)
  {
  }

  lemma FewerIdsOrderSafe(g: GameState, owner: Team, source: Id)
    requires source in g.territories && OrderSafe(g.territories.Keys)
    ensures OrderSafe(Friendly(g.territories, owner) + {source})
  {
    OrderSafeSubset(Friendly(g.territories, owner) + {source}, g.territories.Keys);
  }

  function AttackEntry(g: GameState, source: Id, target: Id, owner: Team): (r: Option<Entry>)
    ensures r.Some? ==> r.value.path != []
  {
    ReachablePaths(g.board, Friendly(g.territories, owner), source);
    BestEntry(g.board, FriendlyPathsFrom(g.board, Friendly(g.territories, owner), source), Neighbors(g.board, target),
      target)
  }

  lemma AttackCandidateNoWorse(g: GameState, source: Id, target: Id, owner: Team, q: seq<Id>)
    requires LegalRoute(g, owner, source, target, q) && g.territories[target].owner != owner
      && !Road(g.board, source, target)
    ensures
      var e := AttackEntry(g, source, target, owner);
      && e.Some? && e.value.cost <= Cost(g.board, q)
      && (OrderSafe(g.territories.Keys) && Simple(q) ==> EntryLe(e.value, Entry(Cost(g.board, q), q)))
  {
    var b, friendly := g.board, Friendly(g.territories, owner);
    var r := FriendlyPathsFrom(b, friendly, source);
    ReachablePaths(b, friendly, source);
    BestEntryLeast(b, r, Neighbors(b, target), target);
    var m := q[|q| - 2];
    assert Road(b, m, q[|q| - 1]);
    EnteringNoBetter(b, friendly, source, q);
    var e, c := AttackEntry(g, source, target, owner), Extended(b, r[m], target);
    assert e.Some? && EntryLe(e.value, c);
    if OrderSafe(g.territories.Keys) && Simple(q) {
      FewerIdsOrderSafe(g, owner, source);
      EntryOrder();
    }
  }

  lemma AttackRouteCorrect(g: GameState, source: Id, target: Id, owner: Team)
    requires UsesTacticalRules(g.rules) && source in Friendly(g.territories, owner) && target in g.territories
      && source != target
    requires g.territories[target].owner != owner && !Road(g.board, source, target)
    ensures RouteCorrect(g, source, target, owner)
  {
    hide FriendlyPathsFrom, Search, BestEntry, PathKey, EntryLe, Cost, LegCost, Neighbors, PathEntry, NoWorse;
    var b, friendly := g.board, Friendly(g.territories, owner);
    var r := FriendlyPathsFrom(b, friendly, source);
    ReachablePaths(b, friendly, source);
    BestEntryLeast(b, r, Neighbors(b, target), target);
    var e := AttackEntry(g, source, target, owner);
    if e.Some? {
      var n :| n in Neighbors(b, target) && n in r && e.value == Extended(b, r[n], target);
      ReachablePathWalk(b, friendly, source, n);
      EnteredIsLegal(g, source, target, owner, r[n].path);
    }
    forall q | LegalRoute(g, owner, source, target, q) ensures e.Some? && NoWorse(g, e.value.path, q) {
      AttackEntryNoWorse(g, source, target, owner, q);
    }
  }

  lemma AttackEntryNoWorse(g: GameState, source: Id, target: Id, owner: Team, q: seq<Id>)
    requires LegalRoute(g, owner, source, target, q) && g.territories[target].owner != owner
      && !Road(g.board, source, target)
    ensures AttackEntry(g, source, target, owner).Some?
      && NoWorse(g, AttackEntry(g, source, target, owner).value.path, q)
  {
    hide FriendlyPathsFrom, Search, PathKey, LegCost, Neighbors;
    var b, friendly := g.board, Friendly(g.territories, owner);
    var r := FriendlyPathsFrom(b, friendly, source);
    AttackCandidateNoWorse(g, source, target, owner, q);
    ReachablePaths(b, friendly, source);
    BestEntryLeast(b, r, Neighbors(b, target), target);
    var e := AttackEntry(g, source, target, owner).value;
    var n :| n in Neighbors(b, target) && n in r && e == Extended(b, r[n], target);
    ReachablePathWalk(b, friendly, source, n);
    EnteredIsLegal(g, source, target, owner, r[n].path);
  }

  lemma ReachablePathWalk(b: Board, friendly: set<Id>, source: Id, k: Id)
    requires k in FriendlyPathsFrom(b, friendly, source)
    ensures
      var e := FriendlyPathsFrom(b, friendly, source)[k];
      FriendlyWalk(b, friendly, source, e.path) && Simple(e.path) && e.cost == Cost(b, e.path) && Last(e.path) == k
  {
    hide FriendlyPathsFrom, Search, Simple, FriendlyWalk, Cost;
    ReachablePath(b, friendly, source, k);
  }

  lemma EnteredIsLegal(g: GameState, source: Id, target: Id, owner: Team, p: seq<Id>)
    requires source in Friendly(g.territories, owner) && target in g.territories && g.territories[target].owner != owner
    requires FriendlyWalk(g.board, Friendly(g.territories, owner), source, p) && Simple(p)
      && Road(g.board, Last(p), target)
    ensures LegalRoute(g, owner, source, target, p + [target]) && Simple(p + [target])
    ensures Cost(g.board, p + [target]) == Cost(g.board, p) + LegCost(g.board, Last(p), target)
  {
    var q := p + [target];
    assert q[..|p|] == p;
  }

  lemma SupplyNoWorse(g: GameState, source: Id, target: Id, owner: Team, q: seq<Id>)
    requires LegalRoute(g, owner, source, target, q) && g.territories[target].owner == owner
    ensures
      var r := FriendlyPathsFrom(g.board, Friendly(g.territories, owner), source);
      target in r && PathEntry(g.board, Friendly(g.territories, owner), source, r[target])
        && NoWorse(g, r[target].path, q)
  {
    var b, friendly := g.board, Friendly(g.territories, owner);
    assert FriendlyWalk(b, friendly, source, q);
    WalkNoBetter(b, friendly, source, q);
    ReachablePath(b, friendly, source, target);
    if OrderSafe(g.territories.Keys) {
      FewerIdsOrderSafe(g, owner, source);
    }
  }

  lemma SupplyRouteCorrect(g: GameState, source: Id, target: Id, owner: Team)
    requires UsesTacticalRules(g.rules) && source in Friendly(g.territories, owner) && target in g.territories
      && source != target
    requires g.territories[target].owner == owner
    ensures RouteCorrect(g, source, target, owner)
  {
    var r := FriendlyPathsFrom(g.board, Friendly(g.territories, owner), source);
    if target in r {
      ReachablePath(g.board, Friendly(g.territories, owner), source, target);
    }
    forall q | LegalRoute(g, owner, source, target, q) ensures target in r && NoWorse(g, r[target].path, q) {
      SupplyNoWorse(g, source, target, owner, q);
    }
  }

  /** Under the tactical rules a dispatch is refused exactly when no legal route exists. Otherwise
      its route is legal and simple: the single road when it attacks a neighbour, and a route of
      least cost, then least text, in every other case. */
  lemma FindRouteCorrect(g: GameState, source: Id, target: Id, owner: Team)
    requires UsesTacticalRules(g.rules)
    ensures RouteCorrect(g, source, target, owner)
  {
    if source in Friendly(g.territories, owner) && target in g.territories && source != target {
      if g.territories[target].owner == owner {
        SupplyRouteCorrect(g, source, target, owner);
      } else if Road(g.board, source, target) {
        assert RoadPath(g.board, [source, target]);
      } else {
        AttackRouteCorrect(g, source, target, owner);
      }
    }
  }

  /** No legal route is shorter than the chosen one but for half a thousandth a leg, which the rounding of
      the costs may hide. */
  lemma ChosenIsShortest(g: GameState, source: Id, target: Id, owner: Team, q: seq<Id>)
    requires UsesTacticalRules(g.rules) && !DirectAttack(g, owner, source, target)
    requires LegalRoute(g, owner, source, target, q)
    ensures FindRoute(g, source, target, owner).Some?
    ensures
      var p := FindRoute(g, source, target, owner).value;
      p != [] && Length(g.board, p) <= Length(g.board, q) + 0.0005 * (|p| + |q| - 2) as real
  {
    FindRouteCorrect(g, source, target, owner);
    hide FindRoute, Cost, Length;
    var p := FindRoute(g, source, target, owner).value;
    assert NoWorse(g, p, q);
    CostIsLength(g.board, p);
    CostIsLength(g.board, q);
  }

  // ----- Fog of war

  /** A side sees its own towers and every tower one road away from one of them. */
  ghost predicate Visible(g: GameState, owner: Team, id: Id) {
    id in Friendly(g.territories, owner) || exists y :: y in Friendly(g.territories, owner) && Road(g.board, y, id)
  }

  method ComputeVisible(g: GameState, owner: Team) returns (visible: set<Id>)
    ensures forall id :: id in visible <==> Visible(g, owner, id)
  {
    ghost var mine := Friendly(g.territories, owner);
    var roads := g.board.roads;
    visible := set id | id in g.territories && g.territories[id].owner == owner;
    for i := 0 to |roads|
      invariant forall id :: id in visible <==>
        id in mine || exists y :: y in mine && ((y, id) in roads[..i] || (id, y) in roads[..i])
    {
      assert roads[..i + 1] == roads[..i] + [roads[i]];
      var (x, y) := roads[i];
      ghost var before := visible;
      if x in g.territories && g.territories[x].owner == owner {
        visible := visible + {y};
      }
      if y in g.territories && g.territories[y].owner == owner {
        visible := visible + {x};
      }
    }
    assert roads[..|roads|] == roads;
  }

  /** Every stop of every dispatch route, its target included, is visible to the sender. */
  lemma RouteIsVisible(g: GameState, source: Id, target: Id, owner: Team, i: nat)
    requires UsesTacticalRules(g.rules) && FindRoute(g, source, target, owner).Some?
    requires i < |FindRoute(g, source, target, owner).value|
    ensures Visible(g, owner, FindRoute(g, source, target, owner).value[i])
  {
    FindRouteCorrect(g, source, target, owner);
    var p := FindRoute(g, source, target, owner).value;
    assert i > 0 ==> Road(g.board, p[i - 1], p[i]);
  }
}
