/** The verdict of a step, by the sets of towers the sides hold and the units in them. */
module Verdicts {
  import opened Text
  import opened World
  import opened Routes
  import opened BattleRules
  import opened BattleInvariants
  import opened Roles

  ghost function Held(territories: map<Id, Territory>, team: Team): set<Id> {
    set id | id in territories && territories[id].owner == team
  }

  /** The units in these towers. */
  ghost function UnitsIn(territories: map<Id, Territory>, ids: set<Id>): int {
    if ids == {} then 0
    else
      var id :| id in ids;
      UnitsIn(territories, ids - {id}) + At(territories, id).units
  }

  /** Whichever tower is counted first. */
  lemma {:induction false} UnitsWithout(territories: map<Id, Territory>, ids: set<Id>, id: Id)
    requires id in ids
    ensures UnitsIn(territories, ids) == UnitsIn(territories, ids - {id}) + At(territories, id).units
    decreases ids
  {
    var x :| x in ids && UnitsIn(territories, ids) == UnitsIn(territories, ids - {x}) + At(territories, x).units;
    if x != id {
      UnitsWithout(territories, ids - {x}, id);
      UnitsWithout(territories, ids - {id}, x);
      assert ids - {x} - {id} == ids - {id} - {x};
    }
  }

  /** A side without a tower and without an army is out. */
  ghost predicate Out(g: GameState, team: Team) {
    Held(g.territories, team) == {} && forall a :: a in g.armies ==> a.owner != team
  }

  /** More towers, or as many and more units in them. */
  ghost predicate Ahead(g: GameState, team: Team, other: Team) {
    var mine, theirs := Held(g.territories, team), Held(g.territories, other);
    || |mine| > |theirs|
    || (|mine| == |theirs| && UnitsIn(g.territories, mine) > UnitsIn(g.territories, theirs))
  }

  /** What the rules say of a battle: an enemy that is out has lost, else a player that is out; else, when
      time is up, the side ahead wins, and nobody without one; else the battle goes on. */
  ghost function Ruling(g: GameState): Status {
    if Out(g, Enemy) then Victory
    else if Out(g, Player) then Defeat
    else if g.elapsed < g.limit then Playing
    else if Ahead(g, Player, Enemy) then Victory
    else if Ahead(g, Enemy, Player) then Defeat
    else Draw
  }

  ghost function HeldIn(territories: map<Id, Territory>, order: seq<Id>, team: Team): set<Id> {
    set id | id in order && At(territories, id).owner == team
  }

  lemma HeldInMore(territories: map<Id, Territory>, front: seq<Id>, last: Id, team: Team)
    requires last !in front
    ensures last !in HeldIn(territories, front, team)
    ensures HeldIn(territories, front + [last], team) ==
      HeldIn(territories, front, team) + (if At(territories, last).owner == team then {last} else {})
  {
  }

  lemma OrderMore(territories: map<Id, Territory>, front: seq<Id>, last: Id, team: Team)
    ensures
      var mine := At(territories, last).owner == team;
      && TowersOf(territories, front + [last], team) == TowersOf(territories, front, team) + (if mine then 1 else 0)
      && UnitsOf(territories, front + [last], team) ==
         UnitsOf(territories, front, team) + (if mine then At(territories, last).units else 0)
  {
    assert (front + [last])[..|front|] == front;
  }

  lemma SetMore(territories: map<Id, Territory>, before: set<Id>, last: Id)
    requires last !in before
    ensures |before + {last}| == |before| + 1
    ensures UnitsIn(territories, before + {last}) == UnitsIn(territories, before) + At(territories, last).units
  {
    hide UnitsIn;
    assert before + {last} - {last} == before;
    UnitsWithout(territories, before + {last}, last);
  }

  lemma SimpleFront(order: seq<Id>)
    requires Simple(order) && order != []
    ensures
      var front, last := order[..|order| - 1], order[|order| - 1];
      order == front + [last] && Simple(front) && last !in front
  {
  }

  /** Counting over an order that lists the towers is counting the set. */
  lemma {:induction false} CountsAgree(territories: map<Id, Territory>, order: seq<Id>, team: Team)
    requires Simple(order)
    ensures TowersOf(territories, order, team) == |HeldIn(territories, order, team)|
    ensures UnitsOf(territories, order, team) == UnitsIn(territories, HeldIn(territories, order, team))
  {
    if order == [] {
      assert HeldIn(territories, order, team) == {};
    } else {
      hide HeldIn, UnitsIn, TowersOf, UnitsOf, Simple;
      var front, last := order[..|order| - 1], order[|order| - 1];
      SimpleFront(order);
      CountsAgree(territories, front, team);
      OrderMore(territories, front, last, team);
      HeldInMore(territories, front, last, team);
      var before := HeldIn(territories, front, team);
      SetMore(territories, before, last);
      assert before + {} == before;
    }
  }

  lemma CountsHeld(g: GameState, team: Team)
    requires GoodBoard(g)
    ensures TowersOf(g.territories, g.board.order, team) == |Held(g.territories, team)|
    ensures UnitsOf(g.territories, g.board.order, team) == UnitsIn(g.territories, Held(g.territories, team))
  {
    hide TowersOf, UnitsOf, UnitsIn;
    CountsAgree(g.territories, g.board.order, team);
    assert Held(g.territories, team) == HeldIn(g.territories, g.board.order, team);
  }

  lemma OutIff(g: GameState, team: Team)
    requires GoodBoard(g)
    ensures Eliminated(g, team) <==> Out(g, team)
  {
    hide TowersOf, UnitsOf;
    CountsHeld(g, team);
    assert HasArmy(g.armies, team) <==> exists a :: a in g.armies && a.owner == team;
  }

  /** The verdict of an undecided battle is the ruling. */
  lemma VerdictIs(g: GameState)
    requires GoodBoard(g)
    ensures Verdict(g.(status := Playing)) == Ruling(g)
  {
    hide TowersOf, UnitsOf, Eliminated, Out, UnitsIn, Held;
    var p := g.(status := Playing);
    OutIff(p, Player);
    OutIff(p, Enemy);
    SameOut(g, Player);
    SameOut(g, Enemy);
    CountsHeld(p, Player);
    CountsHeld(p, Enemy);
  }

  lemma SameOut(g: GameState, team: Team)
    ensures Out(g.(status := Playing), team) <==> Out(g, team)
  {
  }

  lemma StepKeepsBoard(g: GameState, acc: Accumulators, delta: real)
    requires GoodBoard(g)
    ensures GoodBoard(Produced(g, acc, delta).g) && GoodBoard(Step(g, acc, delta).g)
  {
    hide HandleArmies, Produce, Verdict, Round;
    var start := Phase(Tick(g, delta).(armies := []), acc);
    HandleArmiesFrame(start, g.armies, delta);
    var m := Marched(g, acc, delta);
    ProduceFrame(m.g, m.acc, delta, g.board.order);
    ProduceKeys(m.g, m.acc, delta, g.board.order);
  }

  lemma {:induction false} ProduceKeys(g: GameState, acc: Accumulators, delta: real, order: seq<Id>)
    requires forall id :: id in order ==> id in g.territories
    ensures Produce(g, acc, delta, order).g.territories.Keys == g.territories.Keys
  {
    hide ProduceAt;
    if order != [] {
      var front := order[..|order| - 1];
      assert order == front + [order[|order| - 1]];
      ProduceKeys(g, acc, delta, front);
    }
  }

  /** A step of an undecided battle leaves it with the status the rules give the state it reaches. */
  lemma StepRules(g: GameState, acc: Accumulators, delta: real)
    requires GoodBoard(g) && g.status == Playing
    ensures
      var h := Step(g, acc, delta).g;
      GoodBoard(h) && h.status == Ruling(h)
  {
    hide Produced, Verdict, Ruling;
    StepKeepsBoard(g, acc, delta);
    SwapProduced(g, acc, delta);
    var h := Step(g, acc, delta).g;
    VerdictIs(Produced(g, acc, delta).g);
    SameRuling(Produced(g, acc, delta).g, h.status);
  }

  lemma SameRuling(g: GameState, status: Status)
    ensures Ruling(g.(status := status)) == Ruling(g)
  {
    hide UnitsIn;
  }
}
