/** Armies on the road: the leg-by-leg mover, and the closed-form arrival time that must agree
    with it. */
module March {
  import opened Text
  import opened World
  import opened Routes

  const BASE_ARMY_TRAVEL_SPEED := 140.0
  const MIN_LEG_SECONDS := 2.0

  function LegSeconds(b: Board, pace: Positive, from: Id, to: Id): Positive {
    MaxReal(MIN_LEG_SECONDS, b.distance(from, to) / (BASE_ARMY_TRAVEL_SPEED * pace))
  }

  /** The army at the start of the leg `from`-`to`. */
  function SetArmyLeg(b: Board, a: Army, from: Id, to: Id, leg: nat): Army {
    a.(leg := leg, target := to, progress := 0.0, speed := 1.0 / LegSeconds(b, a.pace, from, to))
  }

  /** The army stops at its present target: the tower is missing, not its own, or the last stop. */
  predicate StopsHere(a: Army, territories: map<Id, Territory>) {
    a.target !in territories || territories[a.target].owner != a.owner || a.leg + 1 >= |a.route| - 1
  }

  function NextLeg(b: Board, a: Army, territories: map<Id, Territory>): Army
    requires !StopsHere(a, territories)
  {
    var to := a.route[a.leg + 2];
    SetArmyLeg(b, a, a.target, if to in territories then to else "", a.leg + 1)
  }

  function Progress(a: Army, delta: real): real {
    a.progress + a.speed * delta
  }

  /** What is left of `delta` seconds when the army completes its leg. */
  function TimeLeft(a: Army, delta: real): real {
    (Progress(a, delta) - 1.0) / a.speed
  }

  /** Moving for `delta` seconds: the army, and whether it has arrived. */
  function Advance(b: Board, a: Army, territories: map<Id, Territory>, delta: real): (Army, bool)
    decreases |a.route| - a.leg
  {
    if Progress(a, delta) < 1.0 then (a.(progress := Progress(a, delta)), false)
    else if StopsHere(a, territories) then (a.(progress := 1.0), true)
    else Advance(b, NextLeg(b, a, territories), territories, TimeLeft(a, delta))
  }

  method AdvanceRoutedArmy(b: Board, a: Army, territories: map<Id, Territory>, delta: real) returns (army: Army,
    arrived: bool)
    ensures (army, arrived) == Advance(b, a, territories, delta)
  {
    army := a;
    var left := delta;
    while true
      invariant Advance(b, army, territories, left) == Advance(b, a, territories, delta)
      decreases |army.route| - army.leg
    {
      var progress := Progress(army, left);
      if progress < 1.0 {
        return army.(progress := progress), false;
      }
      var nextLeg := army.leg + 1;
      if army.target !in territories || territories[army.target].owner != army.owner || nextLeg >= |army.route| - 1 {
        return army.(progress := 1.0), true;
      }
      left := TimeLeft(army, left);
      var to := army.route[nextLeg + 1];
      army := SetArmyLeg(b, army, army.target, if to in territories then to else "", nextLeg);
    }
  }

  // ----- The predictor

  /** Where the army will stop: the first stop ahead that is not its own, else the last one. */
  function Destination(a: Army, territories: map<Id, Territory>, i: nat): Id
    decreases |a.route| - i
  {
    if i < |a.route| then
      if At(territories, a.route[i]).owner != a.owner then a.route[i] else Destination(a, territories, i + 1)
    else if |a.route| > 0 then Last(a.route)
    else a.target
  }

  function ArmyDestination(a: Army, territories: map<Id, Territory>): Id
  {
    Destination(a, territories, a.leg + 1)
  }

  /** Seconds for the legs `i`, `i + 1`, ... up to the destination. */
  function LegsAhead(b: Board, a: Army, destination: Id, i: nat): real
    decreases |a.route| - i
  {
    if i >= |a.route| - 1 || a.route[i] == destination then 0.0
    else 1.0 / SetArmyLeg(b, a, a.route[i], a.route[i + 1], i).speed + LegsAhead(b, a, destination, i + 1)
  }

  function ArrivalSeconds(b: Board, a: Army, territories: map<Id, Territory>): real
  {
    (1.0 - a.progress) / a.speed + LegsAhead(b, a, ArmyDestination(a, territories), a.leg + 1)
  }

  method ArmyArrivalSeconds(b: Board, a: Army, territories: map<Id, Territory>) returns (seconds: real)
    ensures seconds == ArrivalSeconds(b, a, territories)
  {
    seconds := (1.0 - a.progress) / a.speed;
    var destination := ArmyDestination(a, territories);
    var i := a.leg + 1;
    while i < |a.route| - 1 && a.route[i] != destination
      invariant a.leg + 1 <= i
      invariant seconds + LegsAhead(b, a, destination, i) == ArrivalSeconds(b, a, territories)
      decreases |a.route| - i
    {
      seconds := seconds + 1.0 / SetArmyLeg(b, a, a.route[i], a.route[i + 1], i).speed;
      i := i + 1;
    }
  }

  // ----- Where an army goes, and for how long

  /** From stop `i` of the route to stop `k`: every leg takes its distance at 140 a second times the pace,
      and no less than two seconds. */
  function RoadSeconds(b: Board, route: seq<Id>, pace: Positive, i: nat, k: nat): real
    requires i <= k < |route|
    decreases k - i
  {
    if i == k then 0.0
    else
      var seconds := b.distance(route[i], route[i + 1]) / (140.0 * pace);
      (if seconds < 2.0 then 2.0 else seconds) + RoadSeconds(b, route, pace, i + 1, k)
  }

  /** Stop `k` is the first one ahead that is not the army's own, or the last one of the route. */
  ghost predicate StopsFirst(a: Army, territories: map<Id, Territory>, k: nat) {
    && a.leg < k < |a.route| && (At(territories, a.route[k]).owner != a.owner || k == |a.route| - 1)
    && forall j :: a.leg < j < k ==> At(territories, a.route[j]).owner == a.owner
  }

  lemma {:induction false} DestinationIs(a: Army, territories: map<Id, Territory>, i: nat)
    requires a.leg < i < |a.route| && forall j :: a.leg < j < i ==> At(territories, a.route[j]).owner == a.owner
    ensures exists k: nat :: i <= k && StopsFirst(a, territories, k) && Destination(a, territories, i) == a.route[k]
    decreases |a.route| - i
  {
    if At(territories, a.route[i]).owner == a.owner && i < |a.route| - 1 {
      DestinationIs(a, territories, i + 1);
    } else {
      assert StopsFirst(a, territories, i);
      assert i == |a.route| - 1 ==> Destination(a, territories, i + 1) == a.route[i];
    }
  }

  lemma {:induction false} LegsAre(b: Board, a: Army, i: nat, k: nat)
    requires i <= k < |a.route| && Simple(a.route)
    ensures LegsAhead(b, a, a.route[k], i) == RoadSeconds(b, a.route, a.pace, i, k)
    decreases k - i
  {
    if i < k {
      LegsAre(b, a, i + 1, k);
      assert a.route[i] != a.route[k];
      LegIs(b, a, i);
    }
  }

  lemma LegIs(b: Board, a: Army, i: nat)
    requires i < |a.route| - 1
    ensures 1.0 / SetArmyLeg(b, a, a.route[i], a.route[i + 1], i).speed ==
            RoadSeconds(b, a.route, a.pace, i, i + 1)
  {
    var seconds := LegSeconds(b, a.pace, a.route[i], a.route[i + 1]);
    assert BASE_ARMY_TRAVEL_SPEED == 140.0 && MIN_LEG_SECONDS == 2.0;
    assert 1.0 / (1.0 / seconds) == seconds;
  }

  /** The prediction is the way to the first stop ahead that is not the army's own: the rest of its leg and
      the legs from there. */
  lemma JourneyIs(b: Board, a: Army, territories: map<Id, Territory>)
    requires a.leg < |a.route| - 1 && Simple(a.route)
    ensures exists k: nat ::
      && StopsFirst(a, territories, k) && ArmyDestination(a, territories) == a.route[k]
      && ArrivalSeconds(b, a, territories) ==
           (1.0 - a.progress) / a.speed + RoadSeconds(b, a.route, a.pace, a.leg + 1, k)
  {
    DestinationIs(a, territories, a.leg + 1);
    var k: nat :| a.leg + 1 <= k && StopsFirst(a, territories, k) && ArmyDestination(a, territories) == a.route[k];
    LegsAre(b, a, a.leg + 1, k);
  }

  // ----- The mover and the predictor agree

  /** An army under way on a simple route between existing towers. */
  ghost predicate OnRoute(a: Army, territories: map<Id, Territory>) {
    && a.leg < |a.route| - 1 && a.target == a.route[a.leg + 1]
    && Simple(a.route) && forall i :: 0 <= i < |a.route| ==> a.route[i] in territories
  }

  lemma MoveTime(a: Army, d: real)
    ensures Progress(a, d) < 1.0 <==> d < (1.0 - a.progress) / a.speed
    ensures TimeLeft(a, d) == d - (1.0 - a.progress) / a.speed
  {
    var s, t := a.speed, (1.0 - a.progress) / a.speed;
    assert s * t == 1.0 - a.progress;
    if d < t {
      assert s * d < s * t;
    } else {
      assert s * d >= s * t;
    }
    assert Progress(a, d) - 1.0 == s * (d - t);
    assert s * (d - t) / s == d - t;
  }

  /** The journey ahead of an army depends only on its route, owner and pace. */
  lemma {:induction false} SameJourney(b: Board, a: Army, c: Army, territories: map<Id, Territory>, destination: Id,
    i: nat)
    requires a.route == c.route && a.owner == c.owner && a.pace == c.pace && a.route != []
    ensures Destination(a, territories, i) == Destination(c, territories, i)
    ensures LegsAhead(b, a, destination, i) == LegsAhead(b, c, destination, i)
    decreases |a.route| - i
  {
    if i < |a.route| {
      SameJourney(b, a, c, territories, destination, i + 1);
    }
  }

  /** At a stop the destination is the present target; otherwise it lies further along. */
  lemma DestinationAhead(b: Board, a: Army, territories: map<Id, Territory>)
    requires OnRoute(a, territories)
    ensures StopsHere(a, territories) ==>
      ArmyDestination(a, territories) == a.target && ArrivalSeconds(b, a, territories) == (1.0 - a.progress) / a.speed
    ensures !StopsHere(a, territories) ==>
      var n := NextLeg(b, a, territories);
      && OnRoute(n, territories)
      && ArmyDestination(a, territories) == ArmyDestination(n, territories)
      && ArrivalSeconds(b, a, territories) == (1.0 - a.progress) / a.speed + ArrivalSeconds(b, n, territories)
  {
    if StopsHere(a, territories) {
      assert Destination(a, territories, a.leg + 1) == a.target;
    } else {
      var n := NextLeg(b, a, territories);
      var d := ArmyDestination(a, territories);
      assert d == Destination(a, territories, a.leg + 2);
      SameJourney(b, a, n, territories, d, a.leg + 2);
      DestinationFurther(a, territories, a.leg + 2);
      assert a.route[a.leg + 1] != d;
      assert n.speed == SetArmyLeg(b, a, a.route[a.leg + 1], a.route[a.leg + 2], a.leg + 1).speed;
    }
  }

  lemma {:induction false} DestinationFurther(a: Army, territories: map<Id, Territory>, i: nat)
    requires i <= |a.route| && a.route != []
    ensures i < |a.route| ==> exists j :: i <= j < |a.route| && Destination(a, territories, i) == a.route[j]
    ensures i == |a.route| ==> Destination(a, territories, i) == Last(a.route)
    decreases |a.route| - i
  {
    if i < |a.route| && At(territories, a.route[i]).owner == a.owner {
      DestinationFurther(a, territories, i + 1);
    }
  }

  /** With ownership frozen, the mover reports arrival exactly from the predicted time on, at the
      predicted tower. */
  lemma {:induction false} AdvanceMatchesPrediction(b: Board, a: Army, territories: map<Id, Territory>, delta: real)
    requires OnRoute(a, territories)
    ensures
      var (army, arrived) := Advance(b, a, territories, delta);
      && (arrived <==> delta >= ArrivalSeconds(b, a, territories))
      && (arrived ==> army.target == ArmyDestination(a, territories))
      && (!arrived ==> OnRoute(army, territories) && army.progress < 1.0
                       && ArmyDestination(army, territories) == ArmyDestination(a, territories)
                       && ArrivalSeconds(b, army, territories) == ArrivalSeconds(b, a, territories) - delta)
    decreases |a.route| - a.leg
  {
    if Progress(a, delta) < 1.0 {
      WithinLeg(b, a, territories, delta);
    } else {
      PastLeg(b, a, territories, delta);
      if !StopsHere(a, territories) {
        AdvanceMatchesPrediction(b, NextLeg(b, a, territories), territories, TimeLeft(a, delta));
      }
    }
  }

  lemma PastLeg(b: Board, a: Army, territories: map<Id, Territory>, delta: real)
    requires OnRoute(a, territories) && Progress(a, delta) >= 1.0
    ensures StopsHere(a, territories) ==>
      && Advance(b, a, territories, delta) == (a.(progress := 1.0), true)
      && delta >= ArrivalSeconds(b, a, territories) && a.target == ArmyDestination(a, territories)
    ensures !StopsHere(a, territories) ==>
      var n := NextLeg(b, a, territories);
      && Advance(b, a, territories, delta) == Advance(b, n, territories, TimeLeft(a, delta))
      && OnRoute(n, territories) && ArmyDestination(n, territories) == ArmyDestination(a, territories)
      && delta - ArrivalSeconds(b, a, territories) == TimeLeft(a, delta) - ArrivalSeconds(b, n, territories)
  {
    MoveTime(a, delta);
    DestinationAhead(b, a, territories);
  }

  lemma WithinLeg(b: Board, a: Army, territories: map<Id, Territory>, delta: real)
    requires OnRoute(a, territories)
    ensures
      var army := a.(progress := Progress(a, delta));
      && OnRoute(army, territories)
      && ArmyDestination(army, territories) == ArmyDestination(a, territories)
      && ArrivalSeconds(b, army, territories) == ArrivalSeconds(b, a, territories) - delta
    ensures Progress(a, delta) < 1.0 ==> delta < ArrivalSeconds(b, a, territories)
  {
    MoveTime(a, delta);
    var army := a.(progress := Progress(a, delta));
    var d := ArmyDestination(a, territories);
    SameJourney(b, a, army, territories, d, a.leg + 1);
    LegsAheadNonNegative(b, a, d, a.leg + 1);
    MovedTimeLeft(a, delta);
  }

  lemma {:induction false} LegsAheadNonNegative(b: Board, a: Army, destination: Id, i: nat)
    ensures LegsAhead(b, a, destination, i) >= 0.0
    decreases |a.route| - i
  {
    if i < |a.route| - 1 {
      LegsAheadNonNegative(b, a, destination, i + 1);
    }
  }

  lemma MovedTimeLeft(a: Army, d: real)
    ensures (1.0 - Progress(a, d)) / a.speed == (1.0 - a.progress) / a.speed - d
  {
    var s := a.speed;
    assert 1.0 - Progress(a, d) == (1.0 - a.progress) - s * d;
    assert s * d / s == d;
  }

  /** Moving for `d1` and then for `d2` seconds is moving for `d1 + d2` seconds; an arrival is
      final. */
  lemma {:induction false} AdvanceAdds(b: Board, a: Army, territories: map<Id, Territory>, d1: real, d2: real)
    requires OnRoute(a, territories) && 0.0 <= d2
    ensures
      var (army, arrived) := Advance(b, a, territories, d1);
      && (!arrived ==> Advance(b, army, territories, d2) == Advance(b, a, territories, d1 + d2))
      && (arrived ==> Advance(b, a, territories, d1 + d2) == (army, true))
    decreases |a.route| - a.leg
  {
    SplitTime(a, d1, d2);
    if Progress(a, d1) < 1.0 {
      ResumeWithinLeg(b, a, territories, d1, d2);
    } else {
      PastLeg(b, a, territories, d1);
      PastLeg(b, a, territories, d1 + d2);
      if !StopsHere(a, territories) {
        AdvanceAdds(b, NextLeg(b, a, territories), territories, TimeLeft(a, d1), d2);
      }
    }
  }

  lemma {:induction false} ResumeWithinLeg(b: Board, a: Army, territories: map<Id, Territory>, d1: real, d2: real)
    ensures Advance(b, a.(progress := Progress(a, d1)), territories, d2) == Advance(b, a, territories, d1 + d2)
  {
    var army := a.(progress := Progress(a, d1));
    assert Progress(army, d2) == Progress(a, d1 + d2);
    assert !StopsHere(a, territories) ==> NextLeg(b, army, territories) == NextLeg(b, a, territories);
  }

  lemma SplitTime(a: Army, d1: real, d2: real)
    requires 0.0 <= d2
    ensures Progress(a, d1) <= Progress(a, d1 + d2)
    ensures TimeLeft(a, d1 + d2) == TimeLeft(a, d1) + d2
  {
    var s, x := a.speed, Progress(a, d1) - 1.0;
    assert Progress(a, d1 + d2) - 1.0 == x + s * d2;
    assert s * d2 >= 0.0;
    assert (x + s * d2) / s == x / s + s * d2 / s;
  }
}
