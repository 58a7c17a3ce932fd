/** Hop distances on the road graph: the breadth-first search finds them exactly, and the mirror of a
    battlefield preserves them. */
module Hops {
  import opened Text
  import opened World
  import opened Battlefields

  /** A walk along roads. */
  ghost predicate Walk(b: Battlefield, p: seq<Id>) {
    |p| >= 1 && forall i :: 0 <= i < |p| - 1 ==> Linked(b, p[i], p[i + 1])
  }

  ghost predicate Reached(b: Battlefield, from: Id, to: Id, hops: nat) {
    exists p: seq<Id> :: Walk(b, p) && |p| == hops + 1 && p[0] == from && p[hops] == to
  }

  /** The number of hops of a shortest walk. */
  ghost predicate HopDistance(b: Battlefield, from: Id, to: Id, hops: nat) {
    Reached(b, from, to, hops) && forall k: nat :: k < hops ==> !Reached(b, from, to, k)
  }

  // ----- The search

  /** The neighbours of every tower. */
  ghost predicate Adjacency(b: Battlefield, adjacency: map<Id, seq<Id>>) {
    && (forall x :: x in adjacency <==> Named(b.terrains, x))
    && forall x, y :: x in adjacency ==> (y in adjacency[x] <==> Linked(b, x, y))
  }

  method BuildAdjacency(b: Battlefield) returns (adjacency: map<Id, seq<Id>>)
    requires GoodRoads(b)
    ensures Adjacency(b, adjacency)
  {
    adjacency := map[];
    var ts, roads := b.terrains, b.roads;
    for i := 0 to |ts|
      invariant forall x :: x in adjacency <==> exists k :: 0 <= k < i && ts[k].id == x
      invariant forall x :: x in adjacency ==> adjacency[x] == []
    {
      adjacency := adjacency[ts[i].id := []];
    }
    assert AdjacencySoFar(b, adjacency, 0);
    hide AdjacencySoFar, Adjacency;
    for i := 0 to |roads|
      invariant AdjacencySoFar(b, adjacency, i)
    {
      var (x, y) := roads[i];
      RoadAdded(b, adjacency, i);
      adjacency := adjacency[x := adjacency[x] + [y]];
      adjacency := adjacency[y := adjacency[y] + [x]];
    }
    AllRoadsAdded(b, adjacency);
  }

  /** The neighbours by the first `n` roads. */
  ghost predicate AdjacencySoFar(b: Battlefield, adjacency: map<Id, seq<Id>>, n: nat)
    requires n <= |b.roads|
  {
    && (forall x :: x in adjacency <==> Named(b.terrains, x))
    && forall x, y :: x in adjacency ==> (y in adjacency[x] <==> Linked(b.(roads := b.roads[..n]), x, y))
  }

  lemma AllRoadsAdded(b: Battlefield, adjacency: map<Id, seq<Id>>)
    requires AdjacencySoFar(b, adjacency, |b.roads|)
    ensures Adjacency(b, adjacency)
  {
    assert b.roads[..|b.roads|] == b.roads;
  }

  /** Entering a road at both of its ends. */
  lemma RoadAdded(b: Battlefield, adjacency: map<Id, seq<Id>>, i: nat)
    requires GoodRoads(b) && i < |b.roads| && AdjacencySoFar(b, adjacency, i)
    ensures
      var (s, t) := b.roads[i];
      && s in adjacency && t in adjacency
      && var once := adjacency[s := adjacency[s] + [t]];
         var both := once[t := once[t] + [s]];
         AdjacencySoFar(b, both, i + 1)
  {
    LinkedMore(b, i);
    hide Linked;
    var (s, t) := b.roads[i];
    Entered(adjacency, s, t);
    var once := adjacency[s := adjacency[s] + [t]];
    Entered(once, t, s);
    var both := once[t := once[t] + [s]];
    forall x, y | x in both ensures y in both[x] <==> Linked(b.(roads := b.roads[..i + 1]), x, y) {
      assert y in both[x] <==> y in adjacency[x] || (x == s && y == t) || (x == t && y == s);
    }
  }

  lemma Entered(adjacency: map<Id, seq<Id>>, s: Id, t: Id)
    requires s in adjacency
    ensures
      var r := adjacency[s := adjacency[s] + [t]];
      forall x, y :: x in adjacency ==> (y in r[x] <==> y in adjacency[x] || (x == s && y == t))
  {
  }

  lemma LinkedMore(b: Battlefield, i: nat)
    requires i < |b.roads|
    ensures forall x, y :: Linked(b.(roads := b.roads[..i + 1]), x, y) <==>
      Linked(b.(roads := b.roads[..i]), x, y) || b.roads[i] == (x, y) || b.roads[i] == (y, x)
  {
    var front, all := b.(roads := b.roads[..i]), b.(roads := b.roads[..i + 1]);
    forall x, y ensures Linked(all, x, y) <==> Linked(front, x, y) || b.roads[i] == (x, y) || b.roads[i] == (y, x) {
      assert all.roads[i] == b.roads[i] && forall k :: 0 <= k < i ==> front.roads[k] == all.roads[k];
    }
  }

  /** Every distance found is that of a walk. */
  ghost predicate Sound(b: Battlefield, start: Id, distances: map<Id, nat>) {
    start in distances && distances[start] == 0 && forall x :: x in distances ==> Reached(b, start, x, distances[x])
  }

  /** The neighbours of a tower have been found, at most one hop further. */
  predicate Settled(adjacency: map<Id, seq<Id>>, distances: map<Id, nat>, x: Id) {
    x in adjacency && x in distances && forall i :: 0 <= i < |adjacency[x]| ==>
      adjacency[x][i] in distances && distances[adjacency[x][i]] <= distances[x] + 1
  }

  /** The queue holds found towers in order of distance, no distance found exceeds its head's by more
      than one, and whatever has left the queue is settled. */
  ghost predicate Frontier(adjacency: map<Id, seq<Id>>, distances: map<Id, nat>, queue: seq<Id>) {
    && (forall i :: 0 <= i < |queue| ==> queue[i] in distances && queue[i] in adjacency)
    && (forall i, j :: 0 <= i < j < |queue| ==> distances[queue[i]] <= distances[queue[j]])
    && (queue != [] ==> forall x :: x in distances ==> distances[x] <= distances[queue[0]] + 1)
    && forall x :: x in distances ==> x in queue || Settled(adjacency, distances, x)
  }

  lemma OneMoreHop(b: Battlefield, start: Id, x: Id, y: Id, hops: nat)
    requires Reached(b, start, x, hops) && Linked(b, x, y)
    ensures Reached(b, start, y, hops + 1)
  {
    var p :| Walk(b, p) && |p| == hops + 1 && p[0] == start && p[hops] == x;
    var q := p + [y];
    assert forall i :: 0 <= i < |q| - 1 ==> Linked(b, q[i], q[i + 1]);
    assert Walk(b, q);
  }

  /** The state while the neighbours of `current` are looked at: the first `count` of them are found. */
  ghost predicate Expanding(adjacency: map<Id, seq<Id>>, distances: map<Id, nat>, queue: seq<Id>, current: Id,
    count: nat) {
    && current in adjacency && current in distances && count <= |adjacency[current]|
    && (forall i :: 0 <= i < |queue| ==>
      queue[i] in distances && queue[i] in adjacency && distances[current] <= distances[queue[i]])
    && (forall i, j :: 0 <= i < j < |queue| ==> distances[queue[i]] <= distances[queue[j]])
    && (forall x :: x in distances ==> distances[x] <= distances[current] + 1)
    && (forall x :: x in distances && x != current ==> x in queue || Settled(adjacency, distances, x))
    && forall i :: 0 <= i < count ==> adjacency[current][i] in distances
  }

  lemma ExpandStep(adjacency: map<Id, seq<Id>>, distances: map<Id, nat>, queue: seq<Id>, current: Id, count: nat)
    requires Expanding(adjacency, distances, queue, current, count) && count < |adjacency[current]|
    requires adjacency[current][count] in adjacency
    ensures
      var y := adjacency[current][count];
      if y in distances then Expanding(adjacency, distances, queue, current, count + 1)
      else Expanding(adjacency, distances[y := distances[current] + 1], queue + [y], current, count + 1)
  {
    var y := adjacency[current][count];
    if y !in distances {
      var d, q := distances[y := distances[current] + 1], queue + [y];
      forall x | x in d && x != current ensures x in q || Settled(adjacency, d, x) {
        if x != y && x !in queue {
          assert Settled(adjacency, distances, x);
        }
      }
    }
  }

  lemma Popped(adjacency: map<Id, seq<Id>>, distances: map<Id, nat>, queue: seq<Id>)
    requires Frontier(adjacency, distances, queue) && queue != []
    ensures Expanding(adjacency, distances, queue[1..], queue[0], 0)
  {
    forall x | x in distances && x != queue[0] && x in queue ensures x in queue[1..] {
      var i :| 0 <= i < |queue| && queue[i] == x;
      assert queue[1..][i - 1] == x;
    }
  }

  lemma Expanded(adjacency: map<Id, seq<Id>>, distances: map<Id, nat>, queue: seq<Id>, current: Id)
    requires current in adjacency && Expanding(adjacency, distances, queue, current, |adjacency[current]|)
    ensures Frontier(adjacency, distances, queue)
  {
    assert Settled(adjacency, distances, current);
  }

  /** Breadth-first search from a tower. */
  method HopsFrom(b: Battlefield, adjacency: map<Id, seq<Id>>, start: Id) returns (distances: map<Id, nat>)
    requires GoodRoads(b) && Adjacency(b, adjacency) && Named(b.terrains, start)
    ensures forall x, n: nat :: (x in distances && distances[x] == n) <==> HopDistance(b, start, x, n)
  {
    hide Named, Linked, Reached, GoodRoads, HopDistance, Frontier, Expanding, Settled;
    distances := map[start := 0];
    var queue := [start];
    StartHere(b, start);
    FirstFrontier(adjacency, start);
    while queue != []
      invariant Sound(b, start, distances) && Frontier(adjacency, distances, queue) && distances.Keys <= adjacency.Keys
      decreases |adjacency.Keys - distances.Keys|, |queue|
    {
      var current := queue[0];
      ghost var before := distances;
      Popped(adjacency, distances, queue);
      queue := queue[1..];
      distances, queue := Expand(b, adjacency, start, distances, queue, current);
      Expanded(adjacency, distances, queue, current);
      Shrinks(adjacency.Keys, before.Keys, distances.Keys);
    }
    Exact(b, adjacency, start, distances);
  }

  lemma Shrinks(all: set<Id>, before: set<Id>, after: set<Id>)
    requires before <= after <= all
    ensures after == before || |all - after| < |all - before|
  {
    if after != before {
      assert all - after < all - before;
      SmallerSet(all - after, all - before);
    }
  }

  lemma SmallerSet(a: set<Id>, b: set<Id>)
    requires a < b
    ensures |a| < |b|
  {
    assert b == a + (b - a);
    assert |b| == |a| + |b - a|;
  }

  lemma StartHere(b: Battlefield, start: Id)
    ensures Reached(b, start, start, 0)
  {
    assert Walk(b, [start]);
  }

  lemma FirstFrontier(adjacency: map<Id, seq<Id>>, start: Id)
    requires start in adjacency
    ensures Frontier(adjacency, map[start := 0], [start])
  {
  }

  method Expand(b: Battlefield, adjacency: map<Id, seq<Id>>, ghost start: Id, found: map<Id, nat>, waiting: seq<Id>,
    current: Id)
    returns (distances: map<Id, nat>, queue: seq<Id>)
    requires GoodRoads(b) && Adjacency(b, adjacency) && Sound(b, start, found)
      && Expanding(adjacency, found, waiting, current, 0)
    requires found.Keys <= adjacency.Keys
    ensures Sound(b, start, distances) && found.Keys <= distances.Keys <= adjacency.Keys
    ensures current in adjacency && Expanding(adjacency, distances, queue, current, |adjacency[current]|)
    ensures distances.Keys == found.Keys ==> queue == waiting
  {
    hide Named, Linked, Reached, GoodRoads, Settled;
    distances, queue := found, waiting;
    var neighbors := adjacency[current];
    for i := 0 to |neighbors|
      invariant Sound(b, start, distances) && Expanding(adjacency, distances, queue, current, i)
      invariant found.Keys <= distances.Keys <= adjacency.Keys
      invariant distances.Keys == found.Keys ==> queue == waiting
    {
      var neighbor := neighbors[i];
      NeighborNamed(b, adjacency, current, i);
      ExpandStep(adjacency, distances, queue, current, i);
      if neighbor !in distances {
        OneMoreHop(b, start, current, neighbor, distances[current]);
        assert neighbor !in found;
        distances := distances[neighbor := distances[current] + 1];
        queue := queue + [neighbor];
        assert neighbor in distances.Keys;
      }
    }
  }

  lemma NeighborNamed(b: Battlefield, adjacency: map<Id, seq<Id>>, x: Id, i: nat)
    requires GoodRoads(b) && Adjacency(b, adjacency) && x in adjacency && i < |adjacency[x]|
    ensures adjacency[x][i] in adjacency && Linked(b, x, adjacency[x][i])
  {
    hide Named;
    var y := adjacency[x][i];
    assert y in adjacency[x];
    RoadsNamed(b, x, y);
  }

  lemma {:induction false} WalkFound(b: Battlefield, adjacency: map<Id, seq<Id>>, start: Id, distances: map<Id, nat>,
    p: seq<Id>)
    requires GoodRoads(b) && Adjacency(b, adjacency) && Sound(b, start, distances)
    requires forall x :: x in distances ==> Settled(adjacency, distances, x)
    requires Walk(b, p) && p[0] == start
    ensures p[|p| - 1] in distances && distances[p[|p| - 1]] <= |p| - 1
  {
    hide Named, Linked, Reached, GoodRoads;
    if |p| > 1 {
      var front := p[..|p| - 1];
      assert forall i :: 0 <= i < |front| - 1 ==> Linked(b, front[i], front[i + 1]);
      WalkFound(b, adjacency, start, distances, front);
      var x, y := p[|p| - 2], p[|p| - 1];
      assert Settled(adjacency, distances, x) && Linked(b, x, y);
      assert y in adjacency[x];
    }
  }

  lemma ReachedFound(b: Battlefield, adjacency: map<Id, seq<Id>>, start: Id, distances: map<Id, nat>, x: Id, hops: nat)
    requires GoodRoads(b) && Adjacency(b, adjacency) && Sound(b, start, distances)
    requires forall x :: x in distances ==> Settled(adjacency, distances, x)
    requires Reached(b, start, x, hops)
    ensures x in distances && distances[x] <= hops
  {
    hide Named, Linked, GoodRoads, Settled;
    var p :| Walk(b, p) && |p| == hops + 1 && p[0] == start && p[hops] == x;
    WalkFound(b, adjacency, start, distances, p);
  }

  lemma Exact(b: Battlefield, adjacency: map<Id, seq<Id>>, start: Id, distances: map<Id, nat>)
    requires GoodRoads(b) && Adjacency(b, adjacency) && Sound(b, start, distances) && Frontier(adjacency, distances, [])
    ensures forall x, n: nat :: (x in distances && distances[x] == n) <==> HopDistance(b, start, x, n)
  {
    hide Reached, GoodRoads, Adjacency, Settled;
    forall x, n: nat ensures (x in distances && distances[x] == n) <==> HopDistance(b, start, x, n) {
      forall k: nat | Reached(b, start, x, k) ensures x in distances && distances[x] <= k {
        ReachedFound(b, adjacency, start, distances, x, k);
      }
      if x in distances {
        assert Reached(b, start, x, distances[x]);
      }
    }
  }

  // ----- Mirrored distances

  function MirrorAll(b: Battlefield, p: seq<Id>): (r: seq<Id>)
    ensures |r| == |p| && forall i :: 0 <= i < |r| ==> r[i] == Mirror(b, p[i])
  {
    seq(|p|, i requires 0 <= i < |p| => Mirror(b, p[i]))
  }

  lemma MirrorReached(b: Battlefield, from: Id, to: Id, hops: nat)
    requires GoodRoads(b) && RoadsMirrored(b) && Reached(b, from, to, hops)
    ensures Reached(b, Mirror(b, from), Mirror(b, to), hops)
  {
    hide Mirror, Linked, Named, GoodRoads;
    var p :| Walk(b, p) && |p| == hops + 1 && p[0] == from && p[hops] == to;
    var q := MirrorAll(b, p);
    forall i | 0 <= i < |q| - 1 ensures Linked(b, q[i], q[i + 1]) {
      RoadsNamed(b, p[i], p[i + 1]);
    }
    assert Walk(b, q);
  }

  /** In an accepted battlefield whose road texts tell roads apart, two towers are as many hops apart
      as their mirror images. */
  lemma HopsMirrored(b: Battlefield, from: Id, to: Id, hops: nat)
    requires Validate(b) == None && KeysTell(b) && Named(b.terrains, from) && Named(b.terrains, to)
    ensures HopDistance(b, from, to, hops) <==> HopDistance(b, Mirror(b, from), Mirror(b, to), hops)
  {
    hide Validate, Mirror, Reached, GoodRoads, Named, KeysTell, RoadsMirrored;
    AcceptedIff(b);
    RoadsMirroredIff(b);
    MirrorNamed(b, from);
    MirrorNamed(b, to);
    forall k: nat ensures Reached(b, from, to, k) <==> Reached(b, Mirror(b, from), Mirror(b, to), k) {
      if Reached(b, from, to, k) {
        MirrorReached(b, from, to, k);
      }
      if Reached(b, Mirror(b, from), Mirror(b, to), k) {
        MirrorReached(b, Mirror(b, from), Mirror(b, to), k);
      }
    }
  }
}
