/** The uniform-cost search settles every reachable friendly tower with a least-cost simple path,
    ties going to the least route text. */
module RouteSearch {
  import opened Text
  import opened Sorting
  import opened World
  import opened Routes

  /** A road path through friendly towers that visits no tower twice, with its exact cost. */
  ghost predicate PathEntry(b: Board, friendly: set<Id>, source: Id, e: Entry) {
    FriendlyWalk(b, friendly, source, e.path) && Simple(e.path) && e.cost == Cost(b, e.path)
  }

  /** No friendly walk from `source` to `id` is cheaper; over order-safe ids no simple one of the
      same cost has a smaller text. */
  ghost predicate Least(b: Board, friendly: set<Id>, source: Id, id: Id, e: Entry) {
    forall q :: FriendlyWalk(b, friendly, source, q) && Last(q) == id ==> NoBetter(friendly + {source}, b, e, q)
  }

  ghost predicate NoBetter(ids: set<Id>, b: Board, e: Entry, q: seq<Id>) {
    && e.cost <= Cost(b, q)
    && (OrderSafe(ids) && Simple(q) ==> EntryLe(e, Entry(Cost(b, q), q)))
  }

  ghost predicate Queued(b: Board, friendly: set<Id>, source: Id, best: map<Id, Entry>, e: Entry) {
    PathEntry(b, friendly, source, e) && forall i :: 0 <= i < |e.path| - 1 ==> e.path[i] in best
  }

  ghost predicate QueueInv(b: Board, friendly: set<Id>, source: Id, queue: seq<Entry>, best: map<Id, Entry>) {
    forall e :: e in queue ==> Queued(b, friendly, source, best, e)
  }

  ghost predicate Settled(b: Board, friendly: set<Id>, source: Id, settled: set<Id>, k: Id, e: Entry) {
    && PathEntry(b, friendly, source, e) && Last(e.path) == k
    && (forall x :: x in e.path ==> x in settled)
    && Least(b, friendly, source, k, e)
  }

  ghost predicate SettledInv(b: Board, friendly: set<Id>, source: Id, best: map<Id, Entry>) {
    forall k :: k in best ==> Settled(b, friendly, source, best.Keys, k, best[k])
  }

  ghost predicate FrontierInv(b: Board, friendly: set<Id>, queue: seq<Entry>, best: map<Id, Entry>) {
    forall k, n :: k in best && n in friendly && n !in best && Road(b, k, n) ==>
      best[k].path != [] && Last(best[k].path) == k && Extended(b, best[k], n) in queue
  }

  ghost predicate StartInv(source: Id, queue: seq<Entry>, best: map<Id, Entry>) {
    source in best || (best == map[] && queue == [Entry(0, [source])])
  }

  ghost predicate SearchInv(b: Board, friendly: set<Id>, source: Id, queue: seq<Entry>, best: map<Id, Entry>) {
    && QueueInv(b, friendly, source, queue, best) && SettledInv(b, friendly, source, best)
    && FrontierInv(b, friendly, queue, best) && StartInv(source, queue, best)
  }

  /** The first stop of a walk that has not been settled. */
  lemma {:induction false} FirstOutside(q: seq<Id>, settled: set<Id>) returns (j: nat)
    requires q != [] && q[0] in settled && Last(q) !in settled
    ensures 1 <= j < |q| && q[j] !in settled && q[j - 1] in settled
  {
    j := 1;
    while q[j] in settled
      invariant 1 <= j < |q| && q[j - 1] in settled
      decreases |q| - j
    {
      j := j + 1;
    }
  }

  lemma NotCutShort(p: seq<Id>, q: seq<Id>)
    requires p != [] && q != [] && Simple(q) && Last(p) == Last(q)
    ensures !(p < q)
  {
    assert p <= q ==> p[|p| - 1] == q[|p| - 1];
  }

  lemma WalkPrefix(b: Board, friendly: set<Id>, source: Id, q: seq<Id>, j: nat)
    requires FriendlyWalk(b, friendly, source, q) && 1 <= j <= |q|
    ensures FriendlyWalk(b, friendly, source, q[..j])
    ensures Simple(q) ==> Simple(q[..j])
    ensures j < |q| ==> Cost(b, q[..j + 1]) == Cost(b, q[..j]) + LegCost(b, q[j - 1], q[j])
    ensures Cost(b, q[..j]) <= Cost(b, q)
  {
    if j < |q| { assert q[..j + 1][..j] == q[..j]; }
    CostOfPrefix(b, q[..j], q);
  }

  lemma ExtensionTextNoBetter(p: seq<Id>, front: seq<Id>, x: Id, ids: set<Id>)
    requires OrderSafe(ids) && Simple(front) && front != [] && p != [] && Last(p) == Last(front)
    requires (forall i :: i in p ==> i in ids) && (forall i :: i in front ==> i in ids)
    requires AtMost(PathKey(p), PathKey(front))
    ensures AtMost(PathKey(p + [x]), PathKey(front + [x]))
  {
    NotCutShort(p, front);
    ExtendKeepsOrder(p, front, x, ids);
  }

  /** One more stop keeps a settled path no worse than any walk to the same tower. */
  lemma ExtensionNoBetter(b: Board, friendly: set<Id>, source: Id, e: Entry, front: seq<Id>, x: Id)
    requires PathEntry(b, friendly, source, e) && FriendlyWalk(b, friendly, source, front)
    requires Last(e.path) == Last(front) && NoBetter(friendly + {source}, b, e, front)
    ensures NoBetter(friendly + {source}, b, Extended(b, e, x), front + [x])
  {
    var q := front + [x];
    assert q[..|front|] == front;
    if OrderSafe(friendly + {source}) && Simple(q) {
      assert Simple(front);
      if e.cost == Cost(b, front) {
        WalkInside(b, friendly, source, front);
        WalkInside(b, friendly, source, e.path);
        ExtensionTextNoBetter(e.path, front, x, friendly + {source});
      }
    }
  }

  lemma NoBetterThanLonger(b: Board, ids: set<Id>, e: Entry, p: seq<Id>, q: seq<Id>)
    requires p != [] && p <= q && NoBetter(ids, b, e, p)
    ensures NoBetter(ids, b, e, q)
  {
    CostOfPrefix(b, p, q);
    if OrderSafe(ids) && Simple(q) {
      assert Simple(p);
      PrefixPathAtMost(p, q);
      EntryOrder();
      assert EntryLe(Entry(Cost(b, p), p), Entry(Cost(b, q), q));
    }
  }

  lemma WalkInside(b: Board, friendly: set<Id>, source: Id, q: seq<Id>)
    requires FriendlyWalk(b, friendly, source, q)
    ensures forall x :: x in q ==> x in friendly + {source}
  {
  }

  lemma FrontierNoBetter(b: Board, friendly: set<Id>, source: Id, keys: set<Id>, e: Entry, q: seq<Id>, j: nat)
    requires FriendlyWalk(b, friendly, source, q) && 1 <= j < |q|
    requires Settled(b, friendly, source, keys, q[j - 1], e)
    ensures NoBetter(friendly + {source}, b, Extended(b, e, q[j]), q)
  {
    hide Cost, PathKey, LegCost, EntryLe;
    WalkPrefix(b, friendly, source, q, j);
    assert Last(q[..j]) == q[j - 1];
    assert NoBetter(friendly + {source}, b, e, q[..j]);
    ExtensionNoBetter(b, friendly, source, e, q[..j], q[j]);
    assert q[..j] + [q[j]] == q[..j + 1];
    NoBetterThanLonger(b, friendly + {source}, Extended(b, e, q[j]), q[..j + 1], q);
  }

  lemma StartNoBetter(b: Board, friendly: set<Id>, source: Id, q: seq<Id>)
    requires FriendlyWalk(b, friendly, source, q) && Last(q) == source
    ensures NoBetter(friendly + {source}, b, Entry(0, [source]), q)
  {
    if Simple(q) {
      NotCutShort([source], q);
      assert q == [source];
      AtMostTotal(PathKey(q), PathKey(q));
    }
  }

  lemma NoBetterMonotone(ids: set<Id>, b: Board, e: Entry, f: Entry, q: seq<Id>)
    requires EntryLe(e, f) && NoBetter(ids, b, f, q)
    ensures NoBetter(ids, b, e, q)
  {
    EntryOrder();
  }

  lemma NextIsNoBetter(b: Board, friendly: set<Id>, source: Id, queue: seq<Entry>, best: map<Id, Entry>, q: seq<Id>)
    requires SettledInv(b, friendly, source, best) && FrontierInv(b, friendly, queue, best)
    requires StartInv(source, queue, best) && queue != []
    requires NextEntry(queue).0.path != [] && Last(NextEntry(queue).0.path) !in best
    requires FriendlyWalk(b, friendly, source, q) && Last(q) == Last(NextEntry(queue).0.path)
    ensures NoBetter(friendly + {source}, b, NextEntry(queue).0, q)
  {
    var next := NextEntry(queue).0;
    if source in best {
      var j := FirstOutside(q, best.Keys);
      var m, n := q[j - 1], q[j];
      assert Road(b, m, n);
      var e := Extended(b, best[m], n);
      FrontierNoBetter(b, friendly, source, best.Keys, best[m], q, j);
      NextIsMinimal(queue, e);
      NoBetterMonotone(friendly + {source}, b, next, e, q);
    } else {
      assert next == Entry(0, [source]);
      StartNoBetter(b, friendly, source, q);
    }
  }

  lemma NextIsMinimal(queue: seq<Entry>, e: Entry)
    requires e in queue
    ensures EntryLe(NextEntry(queue).0, e)
  {
    EntryOrder();
    SortSorted(EntryLe, queue);
    var sorted := Sort(EntryLe, queue);
    var k :| 0 <= k < |sorted| && sorted[k] == e;
  }

  lemma ExtendedIsPath(b: Board, friendly: set<Id>, source: Id, best: map<Id, Entry>, e: Entry, n: Id)
    requires PathEntry(b, friendly, source, e) && (forall x :: x in e.path ==> x in best)
    requires n in friendly && n !in best && Road(b, Last(e.path), n)
    ensures Queued(b, friendly, source, best, Extended(b, e, n))
  {
    var p := e.path + [n];
    assert p[..|e.path|] == e.path;
  }

  lemma SettleKeepsSettled(b: Board, friendly: set<Id>, source: Id, queue: seq<Entry>, best: map<Id, Entry>)
    requires SearchInv(b, friendly, source, queue, best) && queue != []
    requires NextEntry(queue).0.path != [] && Last(NextEntry(queue).0.path) !in best
    ensures
      var next := NextEntry(queue).0;
      SettledInv(b, friendly, source, best[Last(next.path) := next])
  {
    hide NextEntry, PathEntry, NoBetter;
    var next := NextEntry(queue).0;
    var id := Last(next.path);
    forall q | FriendlyWalk(b, friendly, source, q) && Last(q) == id ensures NoBetter(friendly + {source}, b, next, q) {
      NextIsNoBetter(b, friendly, source, queue, best, q);
    }
    assert Queued(b, friendly, source, best, next);
    var best' := best[id := next];
    forall k | k in best' ensures Settled(b, friendly, source, best'.Keys, k, best'[k]) {
      if k != id {
        SettledGrows(b, friendly, source, best.Keys, best'.Keys, k, best[k]);
      }
    }
  }

  lemma SettledGrows(b: Board, friendly: set<Id>, source: Id, keys: set<Id>, more: set<Id>, k: Id, e: Entry)
    requires Settled(b, friendly, source, keys, k, e) && keys <= more
    ensures Settled(b, friendly, source, more, k, e)
  {
    hide PathEntry, Least;
  }

  lemma QueuedGrows(b: Board, friendly: set<Id>, source: Id, best: map<Id, Entry>, k: Id, v: Entry, e: Entry)
    requires Queued(b, friendly, source, best, e)
    ensures Queued(b, friendly, source, best[k := v], e)
  {
  }

  lemma SettleKeepsQueue(b: Board, friendly: set<Id>, source: Id, queue: seq<Entry>, best: map<Id, Entry>)
    requires QueueInv(b, friendly, source, queue, best) && queue != []
    requires NextEntry(queue).0.path != [] && Last(NextEntry(queue).0.path) !in best
    ensures
      var (next, rest) := NextEntry(queue);
      var id := Last(next.path);
      var best' := best[id := next];
      QueueInv(b, friendly, source, rest + Expand(b, friendly, best', next, Neighbors(b, id)), best')
  {
    var (next, rest) := NextEntry(queue);
    var id := Last(next.path);
    var best' := best[id := next];
    var ns := Neighbors(b, id);
    assert Queued(b, friendly, source, best, next);
    ExpandMembers(b, friendly, best', next, ns);
    forall e | e in Expand(b, friendly, best', next, ns) ensures Queued(b, friendly, source, best', e) {
      assert PushedBy(b, friendly, best', next, ns, e);
      ExtendedIsPath(b, friendly, source, best', next, Last(e.path));
    }
    forall e | e in rest ensures Queued(b, friendly, source, best', e) {
      QueuedGrows(b, friendly, source, best, id, next, e);
    }
  }

  lemma SettleKeepsFrontier(b: Board, friendly: set<Id>, queue: seq<Entry>, best: map<Id, Entry>)
    requires FrontierInv(b, friendly, queue, best) && queue != []
    requires NextEntry(queue).0.path != [] && Last(NextEntry(queue).0.path) !in best
    ensures
      var (next, rest) := NextEntry(queue);
      var id := Last(next.path);
      var best' := best[id := next];
      FrontierInv(b, friendly, rest + Expand(b, friendly, best', next, Neighbors(b, id)), best')
  {
    var (next, rest) := NextEntry(queue);
    var id := Last(next.path);
    var best' := best[id := next];
    ExpandMembers(b, friendly, best', next, Neighbors(b, id));
    forall k, n | k in best' && n in friendly && n !in best' && Road(b, k, n)
      ensures best'[k].path != [] && Last(best'[k].path) == k
      ensures Extended(b, best'[k], n) in rest + Expand(b, friendly, best', next, Neighbors(b, id))
    {
      if k != id {
        assert Extended(b, best[k], n) in queue;
        assert Last(Extended(b, best[k], n).path) == n;
      }
    }
  }

  /** Everything the search promises: the settled towers are exactly those a friendly walk reaches,
      each with a least simple path. */
  ghost predicate SearchResult(b: Board, friendly: set<Id>, source: Id, r: map<Id, Entry>) {
    && SettledInv(b, friendly, source, r)
    && forall q :: FriendlyWalk(b, friendly, source, q) ==> Last(q) in r
  }

  lemma {:induction false} WalkStaysSettled(b: Board, friendly: set<Id>, source: Id, best: map<Id, Entry>, q: seq<Id>)
    requires source in best && FrontierInv(b, friendly, [], best) && FriendlyWalk(b, friendly, source, q)
    ensures Last(q) in best
    decreases |q|
  {
    if |q| > 1 {
      var front := q[..|q| - 1];
      WalkStaysSettled(b, friendly, source, best, front);
      assert Road(b, Last(front), Last(q));
    }
  }

  lemma {:induction false} SearchCorrect(b: Board, friendly: set<Id>, source: Id, queue: seq<Entry>, best: map<Id,
    Entry>)
    requires SearchInv(b, friendly, source, queue, best) && QueueInside(friendly + {source}, queue)
    ensures SearchResult(b, friendly, source, Search(b, friendly, friendly + {source}, queue, best))
    decreases |friendly + {source} - best.Keys|, |queue|
  {
    if queue == [] {
      forall q | FriendlyWalk(b, friendly, source, q) ensures Last(q) in best {
        WalkStaysSettled(b, friendly, source, best, q);
      }
    } else {
      var (next, rest) := NextEntry(queue);
      var id := Last(next.path);
      if id in best {
        assert FrontierInv(b, friendly, rest, best) by {
          forall k, n | k in best && n in friendly && n !in best && Road(b, k, n)
            ensures Extended(b, best[k], n) in rest
          {
            assert Extended(b, best[k], n) in queue;
          }
        }
        SearchCorrect(b, friendly, source, rest, best);
      } else {
        SettledShrinks(friendly + {source}, best, id, next);
        SettleKeepsSettled(b, friendly, source, queue, best);
        SettleKeepsQueue(b, friendly, source, queue, best);
        SettleKeepsFrontier(b, friendly, queue, best);
        var best' := best[id := next];
        ExpandMembers(b, friendly, best', next, Neighbors(b, id));
        SearchCorrect(b, friendly, source, rest + Expand(b, friendly, best', next, Neighbors(b, id)), best');
      }
    }
  }

  lemma SearchResultHolds(b: Board, friendly: set<Id>, source: Id)
    ensures SearchResult(b, friendly, source, FriendlyPathsFrom(b, friendly, source))
  {
    var start := Entry(0, [source]);
    assert FriendlyWalk(b, friendly, source, start.path);
    SearchCorrect(b, friendly, source, [start], map[]);
  }

  lemma ReachablePath(b: Board, friendly: set<Id>, source: Id, k: Id)
    requires k in FriendlyPathsFrom(b, friendly, source)
    ensures
      var e := FriendlyPathsFrom(b, friendly, source)[k];
      PathEntry(b, friendly, source, e) && Last(e.path) == k
  {
    SearchResultHolds(b, friendly, source);
    assert Settled(b, friendly, source, FriendlyPathsFrom(b, friendly, source).Keys, k,
      FriendlyPathsFrom(b, friendly, source)[k]);
  }

  lemma WalkNoBetter(b: Board, friendly: set<Id>, source: Id, q: seq<Id>)
    requires FriendlyWalk(b, friendly, source, q)
    ensures
      var r := FriendlyPathsFrom(b, friendly, source);
      Last(q) in r && NoBetter(friendly + {source}, b, r[Last(q)], q)
  {
    SearchResultHolds(b, friendly, source);
    var r := FriendlyPathsFrom(b, friendly, source);
    assert Settled(b, friendly, source, r.Keys, Last(q), r[Last(q)]);
  }

  lemma ReachablePaths(b: Board, friendly: set<Id>, source: Id)
    ensures
      var r := FriendlyPathsFrom(b, friendly, source);
      forall k :: k in r ==> r[k].path != [] && Last(r[k].path) == k
  {
    forall k | k in FriendlyPathsFrom(b, friendly, source)
      ensures
        var e := FriendlyPathsFrom(b, friendly, source)[k];
        e.path != [] && Last(e.path) == k
    {
      ReachablePath(b, friendly, source, k);
    }
  }

  /** The search from `source` finds exactly the towers reachable through friendly towers, each with
      a simple road path of least cost and, over order-safe ids, of least text among the simple
      paths of that cost. */
  lemma FriendlyPathsCorrect(b: Board, friendly: set<Id>, source: Id)
    ensures
      var r := FriendlyPathsFrom(b, friendly, source);
      && (forall k :: k in r <==> exists q :: FriendlyWalk(b, friendly, source, q) && Last(q) == k)
      && (forall k :: k in r ==> PathEntry(b, friendly, source, r[k]) && Last(r[k].path) == k)
      && (forall q :: FriendlyWalk(b, friendly, source, q) ==> Last(q) in r && r[Last(q)].cost <= Cost(b, q))
      && (OrderSafe(friendly + {source}) ==>
            forall q :: FriendlyWalk(b, friendly, source, q) && Simple(q) ==>
              Last(q) in r && EntryLe(r[Last(q)], Entry(Cost(b, q), q)))
  {
    var r := FriendlyPathsFrom(b, friendly, source);
    forall q | FriendlyWalk(b, friendly, source, q)
      ensures Last(q) in r && NoBetter(friendly + {source}, b, r[Last(q)], q)
    {
      WalkNoBetter(b, friendly, source, q);
    }
    forall k | k in r
      ensures PathEntry(b, friendly, source, r[k]) && Last(r[k].path) == k
      ensures exists q :: FriendlyWalk(b, friendly, source, q) && Last(q) == k
    {
      ReachablePath(b, friendly, source, k);
      assert FriendlyWalk(b, friendly, source, r[k].path);
    }
  }
}
