/** Text order of tower ids and of whole routes: a route is compared by the text
    obtained by joining its tower ids with '|'. */
module Text {
  type Id = string

  function Last(p: seq<Id>): Id
    requires |p| >= 1
  {
    p[|p| - 1]
  }

  /** Lexicographic order by character code, as `<=` on strings. */
  predicate AtMost(a: string, b: string) {
    a == [] || (b != [] && (a[0] < b[0] || (a[0] == b[0] && AtMost(a[1..], b[1..]))))
  }

  lemma {:induction false} AtMostTotal(a: string, b: string)
    ensures AtMost(a, b) || AtMost(b, a)
    ensures AtMost(a, b) && AtMost(b, a) ==> a == b
  {
    if a != [] && b != [] && a[0] == b[0] {
      AtMostTotal(a[1..], b[1..]);
      assert a == [a[0]] + a[1..] && b == [b[0]] + b[1..];
    }
  }

  lemma {:induction false} AtMostTransitive(a: string, b: string, c: string)
    requires AtMost(a, b) && AtMost(b, c)
    ensures AtMost(a, c)
  {
    if a != [] && a[0] == b[0] && b[0] == c[0] {
      AtMostTransitive(a[1..], b[1..], c[1..]);
    }
  }

  lemma {:induction false} PrefixAtMost(a: string, b: string)
    requires a <= b
    ensures AtMost(a, b)
  {
    if a != [] {
      PrefixAtMost(a[1..], b[1..]);
    }
  }

  /** A difference inside both texts decides the order, whatever is appended. */
  lemma {:induction false} AppendKeepsOrder(a: string, b: string, s: string, t: string)
    requires AtMost(a, b) && !(a <= b)
    ensures AtMost(a + s, b + t)
  {
    if a[0] == b[0] {
      assert a == [a[0]] + a[1..] && b == [b[0]] + b[1..];
      assert a[1..] <= b[1..] ==> a <= b;
      AppendKeepsOrder(a[1..], b[1..], s, t);
      assert (a + s)[1..] == a[1..] + s && (b + t)[1..] == b[1..] + t;
    }
  }

  /** The text by which routes of equal cost are compared. */
  function PathKey(p: seq<Id>): string {
    if p == [] then "" else if |p| == 1 then p[0] else PathKey(p[..|p| - 1]) + "|" + p[|p| - 1]
  }

  /** No id is the beginning of a different one. */
  ghost predicate PrefixFree(ids: set<Id>) {
    forall a, b :: a in ids && b in ids && a <= b ==> a == b
  }

  lemma {:induction false} PathKeyHead(p: seq<Id>)
    requires |p| >= 2
    ensures PathKey(p) == p[0] + "|" + PathKey(p[1..])
  {
    if |p| > 2 {
      PathKeyHead(p[..|p| - 1]);
      assert p[..|p| - 1][1..] == p[1..][..|p| - 2];
      calc {
        PathKey(p);
        PathKey(p[..|p| - 1]) + "|" + p[|p| - 1];
        (p[0] + "|" + PathKey(p[..|p| - 1][1..])) + "|" + p[|p| - 1];
        p[0] + "|" + (PathKey(p[1..][..|p| - 2]) + "|" + p[|p| - 1]);
        p[0] + "|" + PathKey(p[1..]);
      }
    }
  }

  /** Over prefix-free ids, a route text that begins another route's text belongs to a route
      that begins the other route. */
  lemma {:induction false} KeyPrefixIsPathPrefix(p: seq<Id>, q: seq<Id>, ids: set<Id>)
    requires PrefixFree(ids)
    requires |p| >= 1 && |q| >= 1 && (forall x :: x in p ==> x in ids) && (forall x :: x in q ==> x in ids)
    requires PathKey(p) <= PathKey(q)
    ensures p <= q
  {
    if |p| > 1 { PathKeyHead(p); }
    if |q| > 1 { PathKeyHead(q); }
    PrefixesOfOneText(p[0], q[0], PathKey(p), PathKey(q));
    assert p[0] in ids && q[0] in ids;
    if |p| > 1 && |q| > 1 {
      var n := |p[0]| + 1;
      assert PathKey(p[1..]) == PathKey(p)[n..] && PathKey(q[1..]) == PathKey(q)[n..];
      assert forall x :: x in p[1..] ==> x in p;
      assert forall x :: x in q[1..] ==> x in q;
      KeyPrefixIsPathPrefix(p[1..], q[1..], ids);
    }
    assert p == [p[0]] + p[1..] && q == [q[0]] + q[1..];
  }

  lemma PrefixesOfOneText(x: string, y: string, a: string, b: string)
    requires x <= a && y <= b && a <= b
    ensures x <= y || y <= x
  {
    assert x == b[..|x|] && y == b[..|y|];
  }

  lemma PathKeyAppend(p: seq<Id>, x: Id)
    requires p != []
    ensures PathKey(p + [x]) == PathKey(p) + ("|" + x)
  {
    assert (p + [x])[..|p|] == p;
  }

  lemma SameTailKeepsOrder(a: string, b: string, t: string)
    requires AtMost(a, b) && (a <= b ==> a == b)
    ensures AtMost(a + t, b + t)
  {
    if a == b {
      AtMostTotal(a + t, b + t);
    } else {
      AppendKeepsOrder(a, b, t, t);
    }
  }

  lemma {:induction false} SharedHead(head: string, a: string, b: string)
    ensures AtMost(head + a, head + b) <==> AtMost(a, b)
  {
    if head == [] {
      assert head + a == a && head + b == b;
    } else {
      assert (head + a)[1..] == head[1..] + a && (head + b)[1..] == head[1..] + b;
      SharedHead(head[1..], a, b);
    }
  }

  // ----- Which ids keep the order of routes

  /** No id contains the bar that separates the stops of a route. */
  ghost predicate BarFree(ids: set<Id>) {
    forall a :: a in ids ==> '|' !in a
  }

  /** Where an id goes on after the end of another, it goes on above the bar. */
  ghost predicate NoLowTail(ids: set<Id>) {
    forall a, b :: a in ids && b in ids && a < b ==> b[|a|] >= '|'
  }

  /** Ids over which the order of route texts survives every extension. */
  ghost predicate OrderSafe(ids: set<Id>) {
    PrefixFree(ids) || (BarFree(ids) && NoLowTail(ids))
  }

  ghost predicate RouteOver(p: seq<Id>, ids: set<Id>) {
    p != [] && forall i :: 0 <= i < |p| ==> p[i] in ids
  }

  predicate OrderKept(p: seq<Id>, q: seq<Id>, x: Id) {
    AtMost(PathKey(p), PathKey(q)) ==> AtMost(PathKey(p + [x]), PathKey(q + [x]))
  }

  /** Extending two routes by the same stop keeps their order, unless the second goes on from the first. */
  ghost predicate KeepsOrder(ids: set<Id>) {
    forall p, q, x :: RouteOver(p, ids) && RouteOver(q, ids) && x in ids && !(p < q) ==> OrderKept(p, q, x)
  }

  /** The same for two routes to one tower only. */
  ghost predicate KeepsOrderAtTower(ids: set<Id>) {
    forall p, q, x :: RouteOver(p, ids) && RouteOver(q, ids) && x in ids && !(p < q) && Last(p) == Last(q) ==>
      OrderKept(p, q, x)
  }

  lemma {:induction false} ApartDecides(a: string, b: string, s: string, t: string)
    requires !(a <= b) && !(b <= a)
    ensures AtMost(a + s, b + t) <==> AtMost(a, b)
  {
    if a[0] == b[0] {
      assert a == [a[0]] + a[1..] && b == [b[0]] + b[1..];
      assert a[1..] <= b[1..] ==> a <= b;
      assert b[1..] <= a[1..] ==> b <= a;
      ApartDecides(a[1..], b[1..], s, t);
      assert (a + s)[1..] == a[1..] + s && (b + t)[1..] == b[1..] + t;
    }
  }

  /** What follows the first stop in the text of a route. */
  function KeyTail(p: seq<Id>): string
    requires p != []
  {
    if |p| == 1 then "" else "|" + PathKey(p[1..])
  }

  lemma KeySplit(p: seq<Id>)
    requires p != []
    ensures PathKey(p) == p[0] + KeyTail(p)
    ensures KeyTail(p) != "" ==> KeyTail(p)[0] == '|'
  {
    if |p| > 1 {
      PathKeyHead(p);
    }
  }

  /** An id against a longer one: what decides is the bar, or the end, against how the longer one goes on. */
  lemma LongerDecides(a: string, b: string, s: string, t: string)
    requires a < b
    ensures s != "" && s[0] == '|' && b[|a|] > '|' ==> AtMost(a + s, b + t) && !AtMost(b + t, a + s)
    ensures s != "" && s[0] == '|' && b[|a|] < '|' ==> !AtMost(a + s, b + t)
    ensures s == "" ==> AtMost(a + s, b + t) && !AtMost(b + t, a + s)
  {
    var c := b[|a|..];
    assert b + t == a + (c + t);
    SharedHead(a, s, c + t);
    SharedHead(a, c + t, s);
  }

  /** Routes that part at their first stop. */
  lemma PartedKeepsOrder(p: seq<Id>, q: seq<Id>, x: Id, ids: set<Id>)
    requires BarFree(ids) && NoLowTail(ids) && RouteOver(p, ids) && RouteOver(q, ids) && p[0] != q[0]
    ensures OrderKept(p, q, x)
  {
    hide AtMost, PathKey;
    var p', q' := p + [x], q + [x];
    KeySplit(p);
    KeySplit(q);
    KeySplit(p');
    KeySplit(q');
    assert p'[0] == p[0] && q'[0] == q[0] && KeyTail(p') != "" && KeyTail(q') != "";
    var a, b := p[0], q[0];
    assert a in ids && b in ids;
    if a <= b {
      assert b[|a|] in b;
      LongerDecides(a, b, KeyTail(p'), KeyTail(q'));
    } else if b <= a {
      assert a[|b|] in a;
      LongerDecides(b, a, KeyTail(q), KeyTail(p));
    } else {
      ApartDecides(a, b, KeyTail(p), KeyTail(q));
      ApartDecides(a, b, KeyTail(p'), KeyTail(q'));
    }
  }

  lemma {:induction false} BarFreeKeepsOrder(p: seq<Id>, q: seq<Id>, x: Id, ids: set<Id>)
    requires BarFree(ids) && NoLowTail(ids) && RouteOver(p, ids) && RouteOver(q, ids) && !(p < q)
    ensures OrderKept(p, q, x)
    decreases |p|
  {
    hide BarFree, NoLowTail;
    if p[0] != q[0] {
      PartedKeepsOrder(p, q, x, ids);
    } else if |p| == 1 || |q| == 1 {
      OneStopKeepsOrder(p, q, x);
    } else {
      assert p == [p[0]] + p[1..] && q == [q[0]] + q[1..];
      assert p[1..] < q[1..] ==> p < q;
      BarFreeKeepsOrder(p[1..], q[1..], x, ids);
      SameStart(p, q);
      assert (p + [x])[1..] == p[1..] + [x] && (q + [x])[1..] == q[1..] + [x];
      SameStart(p + [x], q + [x]);
    }
  }

  lemma SameStart(p: seq<Id>, q: seq<Id>)
    requires |p| > 1 && |q| > 1 && p[0] == q[0]
    ensures AtMost(PathKey(p), PathKey(q)) <==> AtMost(PathKey(p[1..]), PathKey(q[1..]))
  {
    PathKeyHead(p);
    PathKeyHead(q);
    SharedHead(p[0] + "|", PathKey(p[1..]), PathKey(q[1..]));
  }

  lemma OneStopKeepsOrder(p: seq<Id>, q: seq<Id>, x: Id)
    requires p != [] && q != [] && p[0] == q[0] && (|p| == 1 || |q| == 1) && !(p < q)
    ensures OrderKept(p, q, x)
  {
    hide PathKey;
    if p == q {
      AtMostTotal(PathKey(p + [x]), PathKey(q + [x]));
    } else {
      KeySplit(p);
      KeySplit(q);
      assert |p| == 1 ==> p <= q;
      SharedHead(p[0], KeyTail(p), "");
    }
  }

  /** A low tail flips the order of two routes to one tower. */
  lemma LowTailFlips(a: Id, b: Id, x: Id)
    requires a < b && b[|a|] < '|'
    ensures AtMost(PathKey([a]), PathKey([b, a])) && !AtMost(PathKey([a, x]), PathKey([b, a, x]))
  {
    hide AtMost, PathKey;
    KeySplit([a]);
    KeySplit([b, a]);
    KeySplit([a, x]);
    KeySplit([b, a, x]);
    LongerDecides(a, b, KeyTail([a]), KeyTail([b, a]));
    LongerDecides(a, b, KeyTail([a, x]), KeyTail([b, a, x]));
  }

  /** Over ids free of the bar, the order of route texts survives every extension exactly when no id
      goes on below the bar after the end of another; routes to one tower make no difference. */
  lemma KeepsOrderIff(ids: set<Id>)
    requires BarFree(ids)
    ensures KeepsOrder(ids) <==> NoLowTail(ids)
    ensures KeepsOrderAtTower(ids) <==> NoLowTail(ids)
  {
    hide BarFree, OrderKept;
    if NoLowTail(ids) {
      forall p, q, x | RouteOver(p, ids) && RouteOver(q, ids) && x in ids && !(p < q) ensures OrderKept(p, q, x) {
        BarFreeKeepsOrder(p, q, x, ids);
      }
    }
    if KeepsOrderAtTower(ids) {
      forall a, b | a in ids && b in ids && a < b ensures b[|a|] >= '|' {
        NoFlip(a, b, ids);
      }
    }
  }

  lemma NoFlip(a: Id, b: Id, ids: set<Id>)
    requires KeepsOrderAtTower(ids) && a in ids && b in ids && a < b
    ensures b[|a|] >= '|'
  {
    assert RouteOver([a], ids) && RouteOver([b, a], ids) && !([a] < [b, a]) && Last([a]) == Last([b, a]);
    assert OrderKept([a], [b, a], a);
    assert [a] + [a] == [a, a] && [b, a] + [a] == [b, a, a];
    if b[|a|] < '|' {
      LowTailFlips(a, b, a);
    }
  }

  /** The text order of routes survives one more common stop, provided the ids are prefix-free, or
      free of the bar and of low tails, and the second route does not go on from the first. */
  lemma ExtendKeepsOrder(p: seq<Id>, q: seq<Id>, x: Id, ids: set<Id>)
    requires OrderSafe(ids)
    requires |p| >= 1 && |q| >= 1 && (forall i :: i in p ==> i in ids) && (forall i :: i in q ==> i in ids)
    requires AtMost(PathKey(p), PathKey(q)) && !(p < q)
    ensures AtMost(PathKey(p + [x]), PathKey(q + [x]))
  {
    hide AtMost, PathKey;
    if PrefixFree(ids) {
      PrefixFreeKeepsOrder(p, q, x, ids);
    } else {
      BarFreeKeepsOrder(p, q, x, ids);
    }
  }

  lemma PrefixFreeKeepsOrder(p: seq<Id>, q: seq<Id>, x: Id, ids: set<Id>)
    requires PrefixFree(ids)
    requires |p| >= 1 && |q| >= 1 && (forall i :: i in p ==> i in ids) && (forall i :: i in q ==> i in ids)
    requires AtMost(PathKey(p), PathKey(q)) && !(p < q)
    ensures AtMost(PathKey(p + [x]), PathKey(q + [x]))
  {
    var a, b := PathKey(p), PathKey(q);
    if a <= b {
      KeyPrefixIsPathPrefix(p, q, ids);
      assert p == q;
    }
    PathKeyAppend(p, x);
    PathKeyAppend(q, x);
    SameTailKeepsOrder(a, b, "|" + x);
  }

  lemma {:induction false} PrefixPathAtMost(p: seq<Id>, q: seq<Id>)
    requires 1 <= |p| && p <= q
    ensures AtMost(PathKey(p), PathKey(q))
    decreases |q|
  {
    var a, b := PathKey(p), PathKey(q);
    if p == q {
      AtMostTotal(a, b);
    } else {
      var r := q[..|q| - 1];
      PrefixPathAtMost(p, r);
      assert q == r + [Last(q)];
      PathKeyAppend(r, Last(q));
      PrefixAtMost(PathKey(r), b);
      AtMostTransitive(a, PathKey(r), b);
    }
  }
}
