/** Road routing: the least-cost search through a team's own towers, the route of a dispatch, and
    the towers a team sees. */
module Routes {
  import opened Text
  import opened Sorting
  import opened World

  function LegCost(b: Board, from: Id, to: Id): nat {
    (b.distance(from, to) * 1000.0 + 0.5).Floor
  }

  predicate Road(b: Board, x: Id, y: Id) {
    (x, y) in b.roads || (y, x) in b.roads
  }

  function RoadEnds(roads: seq<(Id, Id)>, id: Id): (r: seq<Id>)
    ensures forall x :: x in r <==> (id, x) in roads || (x, id) in roads
  {
    if roads == [] then []
    else
      var rest := RoadEnds(roads[1..], id);
      var road := roads[0];
      assert roads == [road] + roads[1..];
      if road.0 == id then [road.1] + rest
      else if road.1 == id then [road.0] + rest
      else rest
  }

  function Neighbors(b: Board, id: Id): (r: seq<Id>)
    ensures forall x :: x in r <==> Road(b, id, x)
  {
    var ends := RoadEnds(b.roads, id);
    SameElements(Sort(AtMost, ends), ends);
    Sort(AtMost, ends)
  }

  // ----- Walks, simple paths and their cost

  ghost predicate RoadPath(b: Board, p: seq<Id>) {
    forall i :: 0 <= i < |p| - 1 ==> Road(b, p[i], p[i + 1])
  }

  ghost predicate Simple(p: seq<Id>) {
    forall i, j :: 0 <= i < j < |p| ==> p[i] != p[j]
  }

  /** A walk from `source` along roads whose later stops are all friendly. */
  ghost predicate FriendlyWalk(b: Board, friendly: set<Id>, source: Id, p: seq<Id>) {
    |p| >= 1 && p[0] == source && RoadPath(b, p) && forall i :: 1 <= i < |p| ==> p[i] in friendly
  }

  function Cost(b: Board, p: seq<Id>): nat {
    if |p| <= 1 then 0 else Cost(b, p[..|p| - 1]) + LegCost(b, p[|p| - 2], p[|p| - 1])
  }

  /** The length of a route. */
  function Length(b: Board, p: seq<Id>): real {
    if |p| <= 1 then 0.0 else Length(b, p[..|p| - 1]) + b.distance(p[|p| - 2], p[|p| - 1])
  }

  /** The cost of a route is its length in thousandths, give or take half of one per leg. */
  lemma {:induction false} CostIsLength(b: Board, p: seq<Id>)
    requires p != []
    ensures -0.0005 * (|p| - 1) as real <= Cost(b, p) as real / 1000.0 - Length(b, p) <= 0.0005 * (|p| - 1) as real
  {
    if |p| > 1 {
      CostIsLength(b, p[..|p| - 1]);
      var d := b.distance(p[|p| - 2], p[|p| - 1]);
      assert -0.5 <= LegCost(b, p[|p| - 2], p[|p| - 1]) as real - d * 1000.0 <= 0.5;
    }
  }

  lemma {:induction false} CostOfPrefix(b: Board, p: seq<Id>, q: seq<Id>)
    requires p <= q
    ensures Cost(b, p) <= Cost(b, q)
    decreases |q|
  {
    if p != q {
      CostOfPrefix(b, p, q[..|q| - 1]);
    }
  }

  datatype Entry = Entry(cost: int, path: seq<Id>)

  /** Cheaper first; equal costs by route text. */
  predicate EntryLe(x: Entry, y: Entry) {
    x.cost < y.cost || (x.cost == y.cost && AtMost(PathKey(x.path), PathKey(y.path)))
  }

  lemma EntryOrder()
    ensures TotalOrder(EntryLe)
  {
    forall x: Entry, y: Entry ensures EntryLe(x, y) || EntryLe(y, x) {
      AtMostTotal(PathKey(x.path), PathKey(y.path));
    }
    forall x: Entry, y: Entry, z: Entry | EntryLe(x, y) && EntryLe(y, z) ensures EntryLe(x, z) {
      if x.cost == y.cost == z.cost {
        AtMostTransitive(PathKey(x.path), PathKey(y.path), PathKey(z.path));
      }
    }
  }

  // ----- The search

  /** The queue entries pushed when `next` is settled: one for every unsettled friendly neighbour. */
  function Expand(b: Board, friendly: set<Id>, best: map<Id, Entry>, next: Entry, ns: seq<Id>): seq<Entry>
    requires next.path != []
  {
    if ns == [] then []
    else
      var n := ns[|ns| - 1];
      var front := Expand(b, friendly, best, next, ns[..|ns| - 1]);
      if n in friendly && n !in best then front + [Extended(b, next, n)] else front
  }

  lemma {:induction false} ExpandMembers(b: Board, friendly: set<Id>, best: map<Id, Entry>, next: Entry, ns: seq<Id>)
    requires next.path != []
    ensures forall e :: e in Expand(b, friendly, best, next, ns) ==> PushedBy(b, friendly, best, next, ns, e)
    ensures forall n :: n in ns && n in friendly && n !in best ==>
      Extended(b, next, n) in Expand(b, friendly, best, next, ns)
  {
    if ns != [] {
      ExpandMembers(b, friendly, best, next, ns[..|ns| - 1]);
      assert ns == ns[..|ns| - 1] + [ns[|ns| - 1]];
    }
  }

  ghost predicate PushedBy(b: Board, friendly: set<Id>, best: map<Id, Entry>, next: Entry, ns: seq<Id>, e: Entry)
    requires next.path != []
  {
    e.path != [] && Last(e.path) in ns && Last(e.path) in friendly && Last(e.path) !in best
      && e == Extended(b, next, Last(e.path))
  }

  function Extended(b: Board, e: Entry, id: Id): Entry
    requires e.path != []
  {
    Entry(e.cost + LegCost(b, Last(e.path), id), e.path + [id])
  }

  ghost predicate QueueInside(universe: set<Id>, queue: seq<Entry>) {
    forall e :: e in queue ==> e.path != [] && Last(e.path) in universe
  }

  /** The best entry of the queue and the others, as sorting the queue leaves them. */
  function NextEntry(queue: seq<Entry>): (r: (Entry, seq<Entry>))
    requires queue != []
    ensures |r.1| < |queue|
    ensures forall e :: e in queue <==> e == r.0 || e in r.1
  {
    var sorted := Sort(EntryLe, queue);
    SameElements(sorted, queue);
    assert sorted == [sorted[0]] + sorted[1..];
    (sorted[0], sorted[1..])
  }

  /** Uniform-cost search: settle the first entry of the sorted queue, push its extensions. */
  function Search(b: Board, friendly: set<Id>, universe: set<Id>, queue: seq<Entry>, best: map<Id, Entry>): map<Id,
    Entry>
    requires friendly <= universe && QueueInside(universe, queue)
    decreases |universe - best.Keys|, |queue|
  {
    if queue == [] then best
    else
      var (next, rest) := NextEntry(queue);
      var id := Last(next.path);
      if id in best then Search(b, friendly, universe, rest, best)
      else
        SettledShrinks(universe, best, id, next);
        var best' := best[id := next];
        ExpandMembers(b, friendly, best', next, Neighbors(b, id));
        Search(b, friendly, universe, rest + Expand(b, friendly, best', next, Neighbors(b, id)), best')
  }

  lemma SettledShrinks(universe: set<Id>, best: map<Id, Entry>, id: Id, e: Entry)
    requires id in universe && id !in best
    ensures |universe - best[id := e].Keys| < |universe - best.Keys|
  {
    assert universe - best[id := e].Keys == universe - best.Keys - {id};
  }

  function FriendlyPathsFrom(b: Board, friendly: set<Id>, source: Id): map<Id, Entry> {
    Search(b, friendly, friendly + {source}, [Entry(0, [source])], map[])
  }

  method FriendlyPaths(b: Board, territories: map<Id, Territory>, source: Id, owner: Team) returns (best: map<Id,
    Entry>)
    ensures best == FriendlyPathsFrom(b, Friendly(territories, owner), source)
  {
    hide NextEntry, Neighbors, Expand, Sort;
    ghost var friendly := Friendly(territories, owner);
    ghost var universe := friendly + {source};
    best := map[];
    var queue := [Entry(0, [source])];
    while |queue| > 0
      invariant QueueInside(universe, queue)
      invariant Search(b, friendly, universe, queue, best) == FriendlyPathsFrom(b, friendly, source)
      decreases |universe - best.Keys|, |queue|
    {
      var (next, rest) := NextEntry(queue);
      var id := Last(next.path);
      if id in best {
        queue := rest;
      } else {
        SettledShrinks(universe, best, id, next);
        best := best[id := next];
        ExpandMembers(b, friendly, best, next, Neighbors(b, id));
        queue := PushNeighbors(b, territories, owner, best, next, rest);
      }
    }
  }

  lemma ExpandNone(b: Board, friendly: set<Id>, best: map<Id, Entry>, next: Entry)
    requires next.path != []
    ensures Expand(b, friendly, best, next, []) == []
  {
  }

  lemma ExpandStep(b: Board, friendly: set<Id>, best: map<Id, Entry>, next: Entry, ns: seq<Id>, i: nat)
    requires next.path != [] && i < |ns|
    ensures Expand(b, friendly, best, next, ns[..i + 1]) ==
            Expand(b, friendly, best, next, ns[..i]) +
            (if ns[i] in friendly && ns[i] !in best then [Extended(b, next, ns[i])] else [])
  {
    assert ns[..i + 1][..i] == ns[..i];
  }

  method PushNeighbors(b: Board, territories: map<Id, Territory>, owner: Team, best: map<Id, Entry>, next: Entry,
    rest: seq<Entry>)
    returns (queue: seq<Entry>)
    requires next.path != []
    ensures queue == rest + Expand(b, Friendly(territories, owner), best, next, Neighbors(b, Last(next.path)))
  {
    hide Expand;
    ghost var friendly := Friendly(territories, owner);
    queue := rest;
    ExpandNone(b, friendly, best, next);
    var id := Last(next.path);
    var neighbors := Neighbors(b, id);
    assert neighbors[..0] == [];
    for i := 0 to |neighbors|
      invariant queue == rest + Expand(b, friendly, best, next, neighbors[..i])
    {
      ExpandStep(b, friendly, best, next, neighbors, i);
      var n := neighbors[i];
      if n in territories && territories[n].owner == owner && n !in best {
        queue := queue + [Entry(next.cost + LegCost(b, id, n), next.path + [n])];
      }
    }
    assert neighbors[..|neighbors|] == neighbors;
  }
}
