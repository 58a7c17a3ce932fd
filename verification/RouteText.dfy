/** When the route search settles the route of least text: exactly over ids whose order of route
    texts survives every extension. */
module RouteText {
  import opened Text
  import opened World
  import opened Routes
  import opened RouteSearch

  /** Among the simple paths of least cost to a tower, the search settles the one of least text. */
  ghost predicate LeastTexts(b: Board, friendly: set<Id>, source: Id) {
    forall q :: FriendlyWalk(b, friendly, source, q) && Simple(q) ==> NotBeaten(b, friendly, source, q)
  }

  ghost predicate NotBeaten(b: Board, friendly: set<Id>, source: Id, q: seq<Id>)
    requires q != []
  {
    var r := FriendlyPathsFrom(b, friendly, source);
    Last(q) in r && EntryLe(r[Last(q)], Entry(Cost(b, q), q))
  }

  // ----- A diamond: a direct road of length two, and a detour of two roads of length one

  function Detour(a: Id, s: Id): Distance {
    (p, q) => if (p == s && q == a) || (p == a && q == s) then 2.0 else 1.0
  }

  /** Roads s-a, s-b, b-a and a-x; the way from s to a costs the same directly and through b. */
  function Diamond(s: Id, a: Id, b: Id, x: Id): Board {
    Board([(s, a), (s, b), (b, a), (a, x)], [], Detour(a, s))
  }

  ghost predicate Different(s: Id, a: Id, b: Id, x: Id) {
    s != a && s != b && s != x && a != b && a != x && b != x
  }

  lemma DiamondRoads(s: Id, a: Id, b: Id, x: Id)
    requires Different(s, a, b, x)
    ensures
      var d := Diamond(s, a, b, x);
      && (forall n :: Road(d, s, n) <==> n in {a, b}) && (forall n :: Road(d, b, n) <==> n in {s, a})
      && (forall n :: Road(d, a, n) <==> n in {s, b, x}) && (forall n :: Road(d, x, n) <==> n == a)
      && LegCost(d, s, a) == 2000 && LegCost(d, s, b) == 1000 && LegCost(d, b, a) == 1000 && LegCost(d, a, x) == 1000
  {
  }

  // ----- The search on the diamond, one settled tower at a time

  /** A settled tower keeps its entry. */
  lemma {:induction false} SettledStays(b: Board, friendly: set<Id>, universe: set<Id>, queue: seq<Entry>,
    best: map<Id, Entry>, id: Id)
    requires friendly <= universe && QueueInside(universe, queue) && id in best
    ensures
      var r := Search(b, friendly, universe, queue, best);
      id in r && r[id] == best[id]
    decreases |universe - best.Keys|, |queue|
  {
    hide NextEntry, Neighbors, Expand;
    if queue != [] {
      var (next, rest) := NextEntry(queue);
      var n := Last(next.path);
      if n in best {
        SettledStays(b, friendly, universe, rest, best, id);
      } else {
        SettledShrinks(universe, best, n, next);
        ExpandMembers(b, friendly, best[n := next], next, Neighbors(b, n));
        SettledStays(b, friendly, universe, rest + Expand(b, friendly, best[n := next], next, Neighbors(b, n)),
          best[n := next], id);
      }
    }
  }

  /** What the search does with the best entry of its queue. */
  lemma OneTurn(b: Board, friendly: set<Id>, universe: set<Id>, queue: seq<Entry>, best: map<Id, Entry>,
    next: Entry) returns (after: seq<Entry>)
    requires friendly <= universe && QueueInside(universe, queue)
    requires next in queue && Last(next.path) !in best
    requires forall e :: e in queue ==> e == next || !EntryLe(e, next)
    ensures QueueInside(universe, after)
    ensures Search(b, friendly, universe, queue, best) ==
      Search(b, friendly, universe, after, best[Last(next.path) := next])
    ensures forall e :: e in after ==>
      (e in queue && |queue| > 1) || PushedBy(b, friendly, best[Last(next.path) := next], next,
      Neighbors(b, Last(next.path)), e)
    ensures forall e :: e in queue && e != next ==> e in after
    ensures forall n :: Road(b, Last(next.path), n) && n in friendly && n !in best && n != Last(next.path) ==>
      Extended(b, next, n) in after
  {
    hide Expand, EntryLe, NextEntry;
    NextIsMinimal(queue, next);
    var (first, rest) := NextEntry(queue);
    assert first in queue && first == next;
    var id := Last(next.path);
    var best' := best[id := next];
    SettledShrinks(universe, best, id, next);
    ExpandMembers(b, friendly, best', next, Neighbors(b, id));
    after := rest + Expand(b, friendly, best', next, Neighbors(b, id));
  }

  /** Once s, b and a are settled, with a reached directly, x is settled through the direct road. */
  lemma {:induction false} EndOfDiamond(s: Id, a: Id, b: Id, x: Id, friendly: set<Id>, universe: set<Id>,
    queue: seq<Entry>, best: map<Id, Entry>)
    requires Different(s, a, b, x) && friendly <= universe && QueueInside(universe, queue) && x in friendly
    requires best.Keys == {s, b, a} && Entry(3000, [s, a, x]) in queue
    requires forall e :: e in queue ==> Last(e.path) in best || e == Entry(3000, [s, a, x])
    ensures
      var r := Search(Diamond(s, a, b, x), friendly, universe, queue, best);
      x in r && r[x] == Entry(3000, [s, a, x])
    decreases |queue|
  {
    hide NextEntry, Neighbors, Expand;
    var d := Diamond(s, a, b, x);
    var (next, rest) := NextEntry(queue);
    if Last(next.path) in best {
      EndOfDiamond(s, a, b, x, friendly, universe, rest, best);
    } else {
      var best' := best[x := next];
      SettledShrinks(universe, best, x, next);
      ExpandMembers(d, friendly, best', next, Neighbors(d, x));
      SettledStays(d, friendly, universe, rest + Expand(d, friendly, best', next, Neighbors(d, x)), best', x);
    }
  }

  lemma DirectTextFirst(s: Id, a: Id, b: Id)
    requires a < b
    ensures EntryLe(Entry(2000, [s, a]), Entry(2000, [s, b, a]))
      && !EntryLe(Entry(2000, [s, b, a]), Entry(2000, [s, a]))
  {
    hide AtMost, PathKey;
    KeySplit([a]);
    KeySplit([b, a]);
    LongerDecides(a, b, KeyTail([a]), KeyTail([b, a]));
    SameStart([s, a], [s, b, a]);
    SameStart([s, b, a], [s, a]);
    assert [s, a][1..] == [a] && [s, b, a][1..] == [b, a];
  }

  function Towers(s: Id, a: Id, b: Id, x: Id): set<Id> {
    {a, b, x} + {s}
  }

  function Start(s: Id): Entry { Entry(0, [s]) }

  function Halfway(s: Id, b: Id): Entry { Entry(1000, [s, b]) }

  function Direct(s: Id, a: Id): Entry { Entry(2000, [s, a]) }

  function Around(s: Id, a: Id, b: Id): Entry { Entry(2000, [s, b, a]) }

  lemma FirstTurn(s: Id, a: Id, b: Id, x: Id) returns (q: seq<Entry>)
    requires Different(s, a, b, x)
    ensures QueueInside(Towers(s, a, b, x), q)
    ensures FriendlyPathsFrom(Diamond(s, a, b, x), {a, b, x}, s) ==
            Search(Diamond(s, a, b, x), {a, b, x}, Towers(s, a, b, x), q, map[s := Start(s)])
    ensures forall e :: e in q <==> e == Direct(s, a) || e == Halfway(s, b)
  {
    hide Search, Neighbors, EntryLe;
    DiamondRoads(s, a, b, x);
    var best := map[s := Start(s)];
    assert map[][s := Start(s)] == best;
    q := OneTurn(Diamond(s, a, b, x), {a, b, x}, Towers(s, a, b, x), [Start(s)], map[], Start(s));
    assert Extended(Diamond(s, a, b, x), Start(s), a) == Direct(s, a);
    assert Extended(Diamond(s, a, b, x), Start(s), b) == Halfway(s, b);
  }

  lemma SecondTurn(s: Id, a: Id, b: Id, x: Id, queue: seq<Entry>) returns (q: seq<Entry>)
    requires Different(s, a, b, x) && QueueInside(Towers(s, a, b, x), queue)
    requires forall e :: e in queue <==> e == Direct(s, a) || e == Halfway(s, b)
    ensures QueueInside(Towers(s, a, b, x), q)
    ensures Search(Diamond(s, a, b, x), {a, b, x}, Towers(s, a, b, x), queue, map[s := Start(s)]) ==
            Search(Diamond(s, a, b, x), {a, b, x}, Towers(s, a, b, x), q, map[s := Start(s), b := Halfway(s, b)])
    ensures Direct(s, a) in q && forall e :: e in q ==> e in [Direct(s, a), Halfway(s, b), Around(s, a, b)]
  {
    hide Search, Neighbors, AtMost, PathKey;
    DiamondRoads(s, a, b, x);
    assert map[s := Start(s)][b := Halfway(s, b)] == map[s := Start(s), b := Halfway(s, b)];
    q := OneTurn(Diamond(s, a, b, x), {a, b, x}, Towers(s, a, b, x), queue, map[s := Start(s)], Halfway(s, b));
    assert Extended(Diamond(s, a, b, x), Halfway(s, b), a) == Around(s, a, b);
  }

  /** Of the two ways to a, the direct one reads less, so it is settled before the other. */
  lemma {:induction false} LaterTurns(s: Id, a: Id, b: Id, x: Id, queue: seq<Entry>)
    requires Different(s, a, b, x) && a < b && QueueInside(Towers(s, a, b, x), queue)
    requires Direct(s, a) in queue && forall e :: e in queue ==> e in [Direct(s, a), Halfway(s, b), Around(s, a, b)]
    ensures
      var r := Search(Diamond(s, a, b, x), {a, b, x}, Towers(s, a, b, x), queue,
        map[s := Start(s), b := Halfway(s, b)]);
      x in r && r[x] == Entry(3000, [s, a, x])
    decreases |queue|
  {
    hide NextEntry, Neighbors, Expand, EntryLe;
    DiamondRoads(s, a, b, x);
    DirectTextFirst(s, a, b);
    var d, friendly, universe := Diamond(s, a, b, x), {a, b, x}, Towers(s, a, b, x);
    var best := map[s := Start(s), b := Halfway(s, b)];
    var (next, rest) := NextEntry(queue);
    NextIsMinimal(queue, Direct(s, a));
    assert next in queue && next != Around(s, a, b);
    if next == Halfway(s, b) {
      LaterTurns(s, a, b, x, rest);
    } else {
      DirectTurn(s, a, b, x, rest, best);
    }
  }

  lemma DirectTurn(s: Id, a: Id, b: Id, x: Id, rest: seq<Entry>, best: map<Id, Entry>)
    requires Different(s, a, b, x) && best.Keys == {s, b} && QueueInside(Towers(s, a, b, x), rest)
    requires forall e :: e in rest ==> e in [Direct(s, a), Halfway(s, b), Around(s, a, b)]
    ensures
      var d, next := Diamond(s, a, b, x), Direct(s, a);
      var after := rest + Expand(d, {a, b, x}, best[a := next], next, Neighbors(d, a));
      && QueueInside(Towers(s, a, b, x), after)
      && var r := Search(d, {a, b, x}, Towers(s, a, b, x), after, best[a := next]);
         x in r && r[x] == Entry(3000, [s, a, x])
  {
    hide NextEntry, Neighbors, Expand, EntryLe, Search;
    DiamondRoads(s, a, b, x);
    var d, next := Diamond(s, a, b, x), Direct(s, a);
    var best' := best[a := next];
    ExpandMembers(d, {a, b, x}, best', next, Neighbors(d, a));
    var after := rest + Expand(d, {a, b, x}, best', next, Neighbors(d, a));
    assert Extended(d, next, x) == Entry(3000, [s, a, x]);
    assert x in Neighbors(d, a);
    EndOfDiamond(s, a, b, x, {a, b, x}, Towers(s, a, b, x), after, best');
  }

  /** Where the id of b goes on after the end of a's, the search takes the direct road to x. */
  lemma DiamondSettles(s: Id, a: Id, b: Id, x: Id)
    requires Different(s, a, b, x) && a < b
    ensures
      var r := FriendlyPathsFrom(Diamond(s, a, b, x), {a, b, x}, s);
      x in r && r[x] == Entry(3000, [s, a, x])
  {
    hide Search, FriendlyPathsFrom;
    var q := FirstTurn(s, a, b, x);
    q := SecondTurn(s, a, b, x, q);
    LaterTurns(s, a, b, x, q);
  }

  /** With a low tail, the way around costs the same and reads less. */
  lemma DiamondBeaten(s: Id, a: Id, b: Id, x: Id)
    requires Different(s, a, b, x) && a < b && b[|a|] < '|'
    ensures FriendlyWalk(Diamond(s, a, b, x), {a, b, x}, s, [s, b, a, x]) && Simple([s, b, a, x])
    ensures Cost(Diamond(s, a, b, x), [s, b, a, x]) == 3000
    ensures !NotBeaten(Diamond(s, a, b, x), {a, b, x}, s, [s, b, a, x])
  {
    hide FriendlyPathsFrom, AtMost, PathKey;
    DiamondRoads(s, a, b, x);
    DiamondSettles(s, a, b, x);
    DetourCost(s, a, b, x);
    LowTailFlips(a, b, x);
    SameStart([s, a, x], [s, b, a, x]);
    assert [s, a, x][1..] == [a, x] && [s, b, a, x][1..] == [b, a, x];
  }

  lemma DetourCost(s: Id, a: Id, b: Id, x: Id)
    requires Different(s, a, b, x)
    ensures Cost(Diamond(s, a, b, x), [s, b, a, x]) == 3000
  {
    hide LegCost;
    DiamondRoads(s, a, b, x);
    var d := Diamond(s, a, b, x);
    var p := [s, b, a, x];
    assert p[..3] == [s, b, a] && p[..3][..2] == [s, b] && p[..3][..2][..1] == [s];
    assert Cost(d, [s, b]) == LegCost(d, s, b);
    assert Cost(d, [s, b, a]) == Cost(d, [s, b]) + LegCost(d, b, a);
  }

  /** There is room for a diamond around any two ids. */
  ghost predicate Roomy(ids: set<Id>) {
    forall a, b :: a in ids && b in ids && a != b ==> RoomAround(ids, a, b)
  }

  ghost predicate RoomAround(ids: set<Id>, a: Id, b: Id) {
    exists s, x :: s in ids && x in ids && Different(s, a, b, x)
  }

  lemma FourAreRoomy(ids: set<Id>)
    requires |ids| >= 4
    ensures Roomy(ids)
  {
    forall a, b | a in ids && b in ids && a != b ensures RoomAround(ids, a, b) {
      var others := ids - {a} - {b};
      assert |others| >= 2;
      var s :| s in others;
      var left := others - {s};
      assert |left| >= 1;
      var x :| x in left;
      assert Different(s, a, b, x);
    }
  }

  /** Over ids free of the bar, with four of them or more, the search settles a route of least text
      for every board, ownership and source exactly when no id goes on below the bar after the end of
      another. */
  lemma LeastTextsIff(ids: set<Id>)
    requires BarFree(ids) && |ids| >= 4
    ensures NoLowTail(ids) <==> forall b, friendly, source :: friendly + {source} <= ids ==>
      LeastTexts(b, friendly, source)
  {
    hide FriendlyPathsFrom, Diamond;
    FourAreRoomy(ids);
    if NoLowTail(ids) {
      forall b, friendly, source | friendly + {source} <= ids ensures LeastTexts(b, friendly, source) {
        assert OrderSafe(friendly + {source});
        FriendlyPathsCorrect(b, friendly, source);
      }
    }
    if forall b, friendly, source :: friendly + {source} <= ids ==> LeastTexts(b, friendly, source) {
      forall a, b | a in ids && b in ids && a < b ensures b[|a|] >= '|' {
        assert RoomAround(ids, a, b);
        var s, x :| s in ids && x in ids && Different(s, a, b, x);
        assert {a, b, x} + {s} <= ids;
        assert LeastTexts(Diamond(s, a, b, x), {a, b, x}, s);
        if b[|a|] < '|' {
          DiamondBeaten(s, a, b, x);
        }
      }
    }
  }

  /** One board on which the search misses: x is settled by way of k, although the way around through
      k! costs the same and reads less. */
  lemma SearchMisses()
    ensures
      var d := Diamond("s", "k", "k!", "x");
      var r := FriendlyPathsFrom(d, {"k", "k!", "x"}, "s");
      && LegCost(d, "s", "k") == 2000 && LegCost(d, "s", "k!") == LegCost(d, "k!", "k") == LegCost(d, "k", "x") == 1000
      && "x" in r && r["x"] == Entry(3000, ["s", "k", "x"])
      && FriendlyWalk(d, {"k", "k!", "x"}, "s", ["s", "k!", "k", "x"]) && Cost(d, ["s", "k!", "k", "x"]) == 3000
      && !EntryLe(r["x"], Entry(3000, ["s", "k!", "k", "x"]))
  {
    hide FriendlyPathsFrom, AtMost, PathKey;
    assert "k" < "k!" && "k!"[|"k"|] == '!';
    DiamondRoads("s", "k", "k!", "x");
    DiamondSettles("s", "k", "k!", "x");
    DiamondBeaten("s", "k", "k!", "x");
  }
}
