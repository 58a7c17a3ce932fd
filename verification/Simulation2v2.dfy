/** The four-player battle rebuilt from its action log: the opening with one base per slot, and a
    replay that refuses every action it cannot carry out. */
module Simulation2v2 {
  import opened Text
  import opened Sorting
  import opened World
  import opened BattleRules
  import opened Battle
  import opened Roles
  import opened Production
  import opened ReplayRules
  import opened ReplayLaws
  import opened Canonical

  datatype TeamId = TeamA | TeamB

  function TeamForSlot(slot: int): TeamId {
    if slot < 2 then TeamA else TeamB
  }

  function SideForTeam(team: TeamId): Team {
    if team == TeamA then Player else Enemy
  }

  function SideForSlot(slot: int): Team {
    SideForTeam(TeamForSlot(slot))
  }

  // ----- The opening

  datatype Modifiers = Modifiers(startingUnits: int, production: real, speed: real)

  const NO_MODIFIERS := Modifiers(0, 0.0, 0.0)

  datatype Spawn = Spawn(slot: int, tower: Id)

  datatype InitError = SpawnAssignments | SpawnSlot | SpawnNotFound | SpawnOwner

  /** A battlefield before the battle. */
  datatype Arena = Arena(board: Board, territories: map<Id, Territory>)

  function ModifiersOf(modifiers: map<int, Modifiers>, slot: int): Modifiers {
    if slot in modifiers then modifiers[slot] else NO_MODIFIERS
  }

  predicate TakenSpawn(before: seq<Spawn>, s: Spawn) {
    exists i :: 0 <= i < |before| && (before[i].slot == s.slot || before[i].tower == s.tower)
  }

  function SpawnFault(territories: map<Id, Territory>, before: seq<Spawn>, s: Spawn): Option<InitError> {
    if s.slot < 0 || s.slot >= SLOT_COUNT then Some(SpawnSlot)
    else if TakenSpawn(before, s) then Some(SpawnAssignments)
    else if s.tower !in territories then Some(SpawnNotFound)
    else if territories[s.tower].owner != SideForSlot(s.slot) then Some(SpawnOwner)
    else None
  }

  function FirstSpawnFault(territories: map<Id, Territory>, spawns: seq<Spawn>, i: nat): Option<InitError>
    requires i <= |spawns|
    decreases |spawns| - i
  {
    if i == |spawns| then None
    else
      match SpawnFault(territories, spawns[..i], spawns[i])
      case Some(e) => Some(e)
      case None => FirstSpawnFault(territories, spawns, i + 1)
  }

  function Equipped(t: Territory, m: Modifiers): Territory {
    t.(units := m.startingUnits, productionRate := t.productionRate * m.production)
  }

  function EquipAll(territories: map<Id, Territory>, spawns: seq<Spawn>, modifiers: map<int, Modifiers>): map<Id,
    Territory> {
    if spawns == [] then territories
    else
      var before := EquipAll(territories, spawns[..|spawns| - 1], modifiers);
      var s := spawns[|spawns| - 1];
      before[s.tower := Equipped(At(before, s.tower), ModifiersOf(modifiers, s.slot))]
  }

  const NO_STATS := Stats(0.0, 0, 0, 0, 0)

  function CreateInitial(arena: Arena, spawns: seq<Spawn>, modifiers: map<int, Modifiers>,
    limit: real): Result<GameState, InitError> {
    if |spawns| != SLOT_COUNT then Err(SpawnAssignments)
    else
      match FirstSpawnFault(arena.territories, spawns, 0)
      case Some(e) => Err(e)
      case None =>
        Ok(GameState(arena.board, EquipAll(arena.territories, spawns, modifiers), [], Playing, 0.0,
                     if limit <= 0.0 then TIME_LIMIT else limit, NO_STATS, 2, map[], map[], false, false))
  }

  ghost predicate GoodSpawn(territories: map<Id, Territory>, spawns: seq<Spawn>, i: nat)
    requires i < |spawns|
  {
    var s := spawns[i];
    && 0 <= s.slot < SLOT_COUNT && s.tower in territories && territories[s.tower].owner == SideForSlot(s.slot)
    && forall j :: 0 <= j < i ==> spawns[j].slot != s.slot && spawns[j].tower != s.tower
  }

  lemma {:induction false} NoSpawnFault(territories: map<Id, Territory>, spawns: seq<Spawn>, i: nat)
    requires i <= |spawns|
    ensures FirstSpawnFault(territories, spawns, i) == None <==> forall j :: i <= j < |spawns| ==>
      GoodSpawn(territories, spawns, j)
    decreases |spawns| - i
  {
    if i < |spawns| {
      NoSpawnFault(territories, spawns, i + 1);
      assert forall j :: 0 <= j < i ==> spawns[..i][j] == spawns[j];
      assert SpawnFault(territories, spawns[..i], spawns[i]) == None <==> GoodSpawn(territories, spawns, i);
    }
  }

  /** Each spawn tower carries its slot's garrison and production; every other tower is untouched. */
  ghost predicate Equips(before: map<Id, Territory>, spawns: seq<Spawn>, modifiers: map<int, Modifiers>, after: map<Id,
    Territory>) {
    && after.Keys == before.Keys
    && (forall i :: 0 <= i < |spawns| ==> EquippedAt(before, spawns[i], modifiers, after))
    && (forall id :: id in before && (forall i :: 0 <= i < |spawns| ==> spawns[i].tower != id) ==>
      after[id] == before[id])
  }

  ghost predicate EquippedAt(before: map<Id, Territory>, s: Spawn, modifiers: map<int, Modifiers>, after: map<Id,
    Territory>) {
    && s.tower in before && s.tower in after
    && var m := if s.slot in modifiers then modifiers[s.slot] else NO_MODIFIERS;
       var t := before[s.tower];
       after[s.tower] == t.(units := m.startingUnits, productionRate := t.productionRate * m.production)
  }

  lemma {:induction false} EquipSpawns(territories: map<Id, Territory>, spawns: seq<Spawn>, modifiers: map<int,
    Modifiers>)
    requires forall j :: 0 <= j < |spawns| ==> GoodSpawn(territories, spawns, j)
    ensures Equips(territories, spawns, modifiers, EquipAll(territories, spawns, modifiers))
  {
    hide Equipped, ModifiersOf, Equips;
    if spawns == [] {
      NothingEquipped(territories, modifiers);
    } else {
      var front, s := spawns[..|spawns| - 1], spawns[|spawns| - 1];
      assert spawns == front + [s];
      forall j | 0 <= j < |front| ensures GoodSpawn(territories, front, j) {
        assert GoodSpawn(territories, spawns, j);
      }
      EquipSpawns(territories, front, modifiers);
      assert GoodSpawn(territories, spawns, |front|);
      EquipOneMore(territories, front, s, modifiers, EquipAll(territories, front, modifiers));
    }
  }

  lemma NothingEquipped(territories: map<Id, Territory>, modifiers: map<int, Modifiers>)
    ensures Equips(territories, [], modifiers, territories)
  {
  }

  lemma EquipOneMore(territories: map<Id, Territory>, front: seq<Spawn>, s: Spawn, modifiers: map<int, Modifiers>,
    before: map<Id, Territory>)
    requires Equips(territories, front, modifiers, before) && s.tower in territories
    requires forall j :: 0 <= j < |front| ==> front[j].tower != s.tower
    ensures Equips(territories, front + [s], modifiers,
      before[s.tower := Equipped(At(before, s.tower), ModifiersOf(modifiers, s.slot))])
  {
    var after := before[s.tower := Equipped(At(before, s.tower), ModifiersOf(modifiers, s.slot))];
    var spawns := front + [s];
    assert spawns[|front|] == s;
    assert forall i :: 0 <= i < |front| ==> spawns[i] == front[i];
    assert before[s.tower] == territories[s.tower];
    forall i | 0 <= i < |spawns| ensures EquippedAt(territories, spawns[i], modifiers, after) {
      assert i < |front| ==> EquippedAt(territories, front[i], modifiers, before);
    }
  }

  /** An opening exists exactly when the four spawns are four different slots on four different
      towers, each held by the slot's side; then those four towers get their slot's garrison and
      production, and every other tower is as on the battlefield. */
  lemma OpeningIff(arena: Arena, spawns: seq<Spawn>, modifiers: map<int, Modifiers>, limit: real)
    ensures
      var r := CreateInitial(arena, spawns, modifiers, limit);
      && (r.Ok? <==> |spawns| == SLOT_COUNT && forall j :: 0 <= j < |spawns| ==>
        GoodSpawn(arena.territories, spawns, j))
      && (r.Ok? ==>
            && r.value == GameState(arena.board, r.value.territories, [], Playing, 0.0, if limit > 0.0 then limit
              else 90.0,
                 Stats(0.0, 0, 0, 0, 0), 2, map[], map[], false, false)
            && Equips(arena.territories, spawns, modifiers, r.value.territories))
  {
    hide EquipAll, Equips, GoodSpawn, FirstSpawnFault;
    NoSpawnFault(arena.territories, spawns, 0);
    if CreateInitial(arena, spawns, modifiers, limit).Ok? {
      EquipSpawns(arena.territories, spawns, modifiers);
    }
  }

  method CheckSpawns(territories: map<Id, Territory>, spawns: seq<Spawn>) returns (fault: Option<InitError>)
    ensures fault == FirstSpawnFault(territories, spawns, 0)
  {
    hide TakenSpawn;
    var seenSlots: set<int>, seenTowers: set<Id> := {}, {};
    NothingTaken();
    assert spawns[..0] == [];
    for i := 0 to |spawns|
      invariant FirstSpawnFault(territories, spawns, i) == FirstSpawnFault(territories, spawns, 0)
      invariant forall s: Spawn :: s.slot in seenSlots || s.tower in seenTowers <==> TakenSpawn(spawns[..i], s)
    {
      var s := spawns[i];
      TakenNext(spawns, i);
      if s.slot < 0 || s.slot >= SLOT_COUNT {
        return Some(SpawnSlot);
      }
      if s.slot in seenSlots || s.tower in seenTowers {
        return Some(SpawnAssignments);
      }
      if s.tower !in territories {
        return Some(SpawnNotFound);
      }
      if territories[s.tower].owner != SideForSlot(s.slot) {
        return Some(SpawnOwner);
      }
      seenSlots, seenTowers := seenSlots + {s.slot}, seenTowers + {s.tower};
    }
    return None;
  }

  method CreateInitial2v2(arena: Arena, spawns: seq<Spawn>, modifiers: map<int, Modifiers>, limit: real)
    returns (r: Result<GameState, InitError>)
    ensures r == CreateInitial(arena, spawns, modifiers, limit)
  {
    hide Equipped, FirstSpawnFault;
    if |spawns| != SLOT_COUNT {
      return Err(SpawnAssignments);
    }
    var fault := CheckSpawns(arena.territories, spawns);
    if fault.Some? {
      return Err(fault.value);
    }
    var cloned := arena.territories;
    for i := 0 to |spawns|
      invariant cloned == EquipAll(arena.territories, spawns[..i], modifiers)
    {
      assert spawns[..i + 1][..i] == spawns[..i];
      cloned := cloned[spawns[i].tower := Equipped(At(cloned, spawns[i].tower),
        ModifiersOf(modifiers, spawns[i].slot))];
    }
    assert spawns[..|spawns|] == spawns;
    var seconds := if limit <= 0.0 then TIME_LIMIT else limit;
    return Ok(GameState(arena.board, cloned, [], Playing, 0.0, seconds, NO_STATS, 2, map[], map[], false, false));
  }

  lemma NothingTaken()
    ensures forall s: Spawn :: !TakenSpawn([], s)
  {
  }

  lemma TakenNext(spawns: seq<Spawn>, i: nat)
    requires i < |spawns|
    ensures forall s: Spawn :: TakenSpawn(spawns[..i + 1], s) <==>
      TakenSpawn(spawns[..i], s) || spawns[i].slot == s.slot || spawns[i].tower == s.tower
  {
    var front, all := spawns[..i], spawns[..i + 1];
    forall s: Spawn ensures TakenSpawn(all, s) <==>
      TakenSpawn(front, s) || spawns[i].slot == s.slot || spawns[i].tower == s.tower {
      assert all[i] == spawns[i] && forall k :: 0 <= k < i ==> front[k] == all[k];
    }
  }

  // ----- The replay of a log

  datatype SimError = BadLog(error: LogError) | BadOpening(init: InitError) | BadModifiers | UnsupportedRules

  datatype Options = Options(
    arena: Arena, spawns: seq<Spawn>, modifiers: map<int, Modifiers>, limit: real,
    actions: seq<SlotAction>, rules: int, maxActions: int)

  datatype Outcome2v2 = Outcome2v2(actions: seq<SlotAction>, final: GameState, processed: nat)

  function MaximumTick(limit: real): int {
    (limit / TICK + EPSILON).Floor
  }

  function DispatchFault(e: DispatchError): LogError {
    match e
    case InvalidSource => LogError.InvalidSource
    case InvalidTarget => LogError.InvalidTarget
    case InvalidDispatch => LogError.InvalidDispatch
  }

  function PlayAction(c: Clock, modifiers: map<int, Modifiers>, a: SlotAction): Result<Clock, LogError> {
    if a.tick > MaximumTick(c.p.g.limit) then Err(InvalidTick)
    else
      var at := StepToTick(c, a.tick);
      var g := at.p.g;
      if g.status != Playing then Err(ActionAfterBattleEnd)
      else if a.source !in g.territories then Err(LogError.InvalidSource)
      else if a.target !in g.territories then Err(LogError.InvalidTarget)
      else if g.territories[a.source].owner != SideForSlot(a.slot) then Err(SlotNotPermitted)
      else match Dispatch(g, a.source, a.target, SideForSlot(a.slot), ModifiersOf(modifiers, a.slot).speed)
        case Ok(h) => Ok(at.(p := at.p.(g := h)))
        case Err(e) => Err(DispatchFault(e))
  }

  function PlayLog(c: Clock, modifiers: map<int, Modifiers>, actions: seq<SlotAction>): Result<Clock, LogError>
    decreases |actions|
  {
    if actions == [] then Ok(c)
    else match PlayAction(c, modifiers, actions[0])
      case Err(e) => Err(e)
      case Ok(next) => PlayLog(next, modifiers, actions[1..])
  }

  /** The steps to the last full tick, then one step for what is left of the time. */
  function Finale(c: Clock): GameState {
    var at := StepToTick(c, MaximumTick(c.p.g.limit));
    if at.p.g.status == Playing then Step(at.p.g, at.p.acc, MaxReal(0.0, at.p.g.limit - at.p.g.elapsed)).g else at.p.g
  }

  function RulesOf(rules: int): Option<int> {
    if rules == 0 then Some(2) else if rules == 1 then Some(0) else if rules == 2 then Some(2) else None
  }

  function Simulate(o: Options): Result<Outcome2v2, SimError> {
    match Canonicalize(o.actions, o.maxActions)
    case Err(e) => Err(BadLog(e))
    case Ok(actions) =>
      if |o.modifiers| != SLOT_COUNT then Err(BadModifiers)
      else match CreateInitial(o.arena, o.spawns, o.modifiers, o.limit)
        case Err(e) => Err(BadOpening(e))
        case Ok(opening) =>
          match RulesOf(o.rules)
          case None => Err(UnsupportedRules)
          case Some(rules) =>
            match PlayLog(Clock(Phase(opening.(rules := rules), map[]), 0, 0.0), o.modifiers, actions)
            case Err(e) => Err(BadLog(e))
            case Ok(c) => Ok(Outcome2v2(actions, Finale(c), |actions|))
  }

  /** Whatever order the log arrives in, the simulated battle is the same. */
  lemma SimulationIgnoresOrder(o: Options, shuffled: seq<SlotAction>)
    requires multiset(shuffled) == multiset(o.actions)
    ensures Canonicalize(o.actions, o.maxActions).Ok? ==> Simulate(o.(actions := shuffled)) == Simulate(o)
    ensures Simulate(o).Ok? <==> Simulate(o.(actions := shuffled)).Ok?
  {
    hide Canonicalize, CreateInitial, PlayLog, Finale;
    if Canonicalize(o.actions, o.maxActions).Ok? {
      AnyShuffle(o.actions, shuffled, o.maxActions);
    } else if Canonicalize(shuffled, o.maxActions).Ok? {
      AnyShuffle(shuffled, o.actions, o.maxActions);
    }
  }

  // ----- The simulation ends in a verdict

  ghost predicate ClockRuns(c: Clock) {
    && (c.p.g.rules == 0 || c.p.g.rules == 2) && 0 <= c.tick && c.p.g.elapsed == c.tick as real * TICK
      && 0.0 < c.p.g.limit
  }

  lemma StepRuns(c: Clock)
    requires ClockRuns(c) && Live(c)
    ensures
      var d := c.(p := Step(c.p.g, c.p.acc, TICK), tick := c.tick + 1);
      ClockRuns(d) && d.p.g.limit == c.p.g.limit && d.p.g.rules == c.p.g.rules
  {
    hide Step, OnGrid;
    StepFrame(c.p.g, c.p.acc, TICK);
    GridTick(c.tick + 1);
    assert c.p.g.elapsed + TICK == (c.tick + 1) as real * TICK;
    TickClock(c.p.g, TICK);
  }

  lemma TickClock(g: GameState, delta: real)
    ensures Tick(g, delta).elapsed == if HasCaptureRecovery(g.rules) then OnGrid(g.elapsed + delta)
      else g.elapsed + delta
  {
  }

  lemma {:induction false} RunsTo(c: Clock, target: int)
    requires ClockRuns(c)
    ensures
      var d := StepToTick(c, target);
      ClockRuns(d) && d.p.g.limit == c.p.g.limit && d.p.g.rules == c.p.g.rules
    decreases target - c.tick
  {
    hide Step, ClockRuns;
    if Live(c) && c.tick < target {
      StepRuns(c);
      RunsTo(c.(p := Step(c.p.g, c.p.acc, TICK), tick := c.tick + 1), target);
    }
  }

  lemma {:induction false} LogRuns(c: Clock, modifiers: map<int, Modifiers>, actions: seq<SlotAction>)
    requires ClockRuns(c)
    ensures
      var r := PlayLog(c, modifiers, actions);
      r.Ok? ==> ClockRuns(r.value) && r.value.p.g.limit == c.p.g.limit && r.value.p.g.rules == c.p.g.rules
    decreases |actions|
  {
    hide StepToTick, Dispatch;
    if actions != [] {
      var a := actions[0];
      RunsTo(c, a.tick);
      var g := StepToTick(c, a.tick).p.g;
      DispatchSameClock(g, a.source, a.target, SideForSlot(a.slot), ModifiersOf(modifiers, a.slot).speed);
      var next := PlayAction(c, modifiers, a);
      if next.Ok? {
        LogRuns(next.value, modifiers, actions[1..]);
      }
    }
  }

  /** Neither side is out. */
  predicate BothIn(g: GameState) {
    !Eliminated(g, Player) && !Eliminated(g, Enemy)
  }

  /** Whether rounding the clock to nanoseconds makes it miss the time limit. */
  ghost predicate Misses(g: GameState) {
    HasCaptureRecovery(g.rules) && OnGrid(g.limit) < g.limit
  }

  /** No later than the last full tick; with both sides in, time alone has ended no battle whose clock
      misses its limit. */
  ghost predicate InTime(c: Clock) {
    c.tick <= MaximumTick(c.p.g.limit) && (!Live(c) && Misses(c.p.g) ==> !BothIn(c.p.g))
  }

  lemma StepVerdictIff(g: GameState, acc: Accumulators, delta: real)
    requires g.status == Playing
    ensures
      var h := Step(g, acc, delta).g;
      h.status == Playing <==> BothIn(h) && h.elapsed < h.limit
  {
    hide Produced, TowersOf, UnitsOf, HasArmy;
    SwapProduced(g, acc, delta);
  }

  lemma StepInTime(c: Clock)
    requires ClockRuns(c) && Live(c) && c.tick < MaximumTick(c.p.g.limit)
    ensures InTime(c.(p := Step(c.p.g, c.p.acc, TICK), tick := c.tick + 1))
  {
    hide Step, OnGrid, MaximumTick, BothIn;
    StepRuns(c);
    StepVerdictIff(c.p.g, c.p.acc, TICK);
    var h := Step(c.p.g, c.p.acc, TICK).g;
    if h.elapsed >= h.limit {
      LastTickRounds(h.limit, c.tick + 1);
    }
  }

  lemma {:induction false} RunInTime(c: Clock, target: int)
    requires ClockRuns(c) && InTime(c) && target <= MaximumTick(c.p.g.limit)
    ensures InTime(StepToTick(c, target))
    decreases target - c.tick
  {
    hide Step, ClockRuns, InTime, MaximumTick;
    if Live(c) && c.tick < target {
      StepRuns(c);
      StepInTime(c);
      RunInTime(c.(p := Step(c.p.g, c.p.acc, TICK), tick := c.tick + 1), target);
    }
  }

  lemma DispatchInTime(c: Clock, g: GameState)
    requires InTime(c) && Live(c) && g.status == Playing && g.limit == c.p.g.limit
    ensures InTime(c.(p := c.p.(g := g)))
  {
    hide BothIn, MaximumTick;
  }

  lemma {:induction false} LogInTime(c: Clock, modifiers: map<int, Modifiers>, actions: seq<SlotAction>)
    requires ClockRuns(c) && InTime(c)
    ensures PlayLog(c, modifiers, actions).Ok? ==> InTime(PlayLog(c, modifiers, actions).value)
    decreases |actions|
  {
    hide StepToTick, Dispatch, InTime, MaximumTick;
    if actions != [] {
      var a := actions[0];
      var next := PlayAction(c, modifiers, a);
      if next.Ok? {
        RunsTo(c, a.tick);
        RunInTime(c, a.tick);
        var at := StepToTick(c, a.tick);
        DispatchSameClock(at.p.g, a.source, a.target, SideForSlot(a.slot), ModifiersOf(modifiers, a.slot).speed);
        DispatchInTime(at, next.value.p.g);
        LogInTime(next.value, modifiers, actions[1..]);
      }
    }
  }

  lemma FinaleDecides(c: Clock)
    requires ClockRuns(c) && InTime(c)
    ensures
      var g := Finale(c);
      g.limit == c.p.g.limit && g.rules == c.p.g.rules && (g.status == Playing <==> Misses(g) && BothIn(g))
  {
    hide Step, Tick, OnGrid, MaximumTick, BothIn;
    var last := MaximumTick(c.p.g.limit);
    RunsTo(c, last);
    RunInTime(c, last);
    var at := StepToTick(c, last);
    if Live(at) {
      var delta := MaxReal(0.0, at.p.g.limit - at.p.g.elapsed);
      StepFrame(at.p.g, at.p.acc, delta);
      StepVerdictIff(at.p.g, at.p.acc, delta);
      TickClock(at.p.g, delta);
      GridTick(at.tick);
      if at.p.g.elapsed >= at.p.g.limit {
        LastTickRounds(at.p.g.limit, at.tick);
      }
    }
  }

  /** A simulation carries out every action of its log, and ends undecided exactly when, with neither
      side out at its end, rounding the clock to nanoseconds makes it miss the time limit. */
  lemma SimulationDecides(o: Options)
    requires Simulate(o).Ok?
    ensures
      var r, limit := Simulate(o).value, if o.limit <= 0.0 then TIME_LIMIT else o.limit;
      && r.processed == |o.actions| && r.final.limit == limit
      && (r.final.status == Playing <==>
            o.rules != 1 && OnGrid(limit) < limit && !Eliminated(r.final, Player) && !Eliminated(r.final, Enemy))
  {
    hide Canonicalize, PlayLog, Finale, OnGrid, EquipAll, FirstSpawnFault, Eliminated;
    CanonicalIff(o.actions, o.maxActions);
    var actions := Canonicalize(o.actions, o.maxActions).value;
    SameElements(actions, o.actions);
    var opening := CreateInitial(o.arena, o.spawns, o.modifiers, o.limit).value;
    var start := Clock(Phase(opening.(rules := RulesOf(o.rules).value), map[]), 0, 0.0);
    LastTickNonNegative(start.p.g.limit);
    LogRuns(start, o.modifiers, actions);
    LogInTime(start, o.modifiers, actions);
    FinaleDecides(PlayLog(start, o.modifiers, actions).value);
  }

  // ----- Exactly when an idle battle ends undecided

  lemma ProduceOneOwners(p: Phase, acc: Accumulators, delta: real, id: Id, x: Id)
    ensures At(ProduceOne(p, acc, delta, id).g.territories, x).owner == At(p.g.territories, x).owner
  {
    hide ProduceAt;
  }

  lemma {:induction false} ProduceOwners(g: GameState, acc: Accumulators, delta: real, order: seq<Id>, x: Id)
    ensures At(Produce(g, acc, delta, order).g.territories, x).owner == At(g.territories, x).owner
  {
    hide ProduceOne;
    if order != [] {
      var front := order[..|order| - 1];
      ProduceOwners(g, acc, delta, front, x);
      ProduceOneOwners(Produce(g, acc, delta, front), acc, delta, order[|order| - 1], x);
    }
  }

  /** Nobody marches, and both sides hold a tower of the order. */
  ghost predicate Idle(g: GameState, a: Id, b: Id) {
    && g.armies == [] && a in g.board.order && b in g.board.order
    && At(g.territories, a).owner == Player && At(g.territories, b).owner == Enemy
  }

  /** An idle battle stays idle, and only the clock can decide it. */
  lemma IdleStep(g: GameState, acc: Accumulators, delta: real, a: Id, b: Id)
    requires Idle(g, a, b) && g.status == Playing
    ensures
      var h := Step(g, acc, delta).g;
      Idle(h, a, b) && (h.status == Playing <==> h.elapsed < h.limit)
  {
    hide Produce, Tick, TowersOf, UnitsOf;
    TickSame(g, delta);
    assert Marched(g, acc, delta) == Phase(Tick(g, delta), acc);
    ProduceWritesTowers(Tick(g, delta), acc, delta, g.board.order);
    ProduceOwners(Tick(g, delta), acc, delta, g.board.order, a);
    ProduceOwners(Tick(g, delta), acc, delta, g.board.order, b);
    var h := Produced(g, acc, delta).g;
    OwnedTowerCounts(h.territories, h.board.order, a);
    OwnedTowerCounts(h.territories, h.board.order, b);
  }

  lemma TickSame(g: GameState, delta: real)
    ensures
      var h := Tick(g, delta);
      && h.board == g.board && h.territories == g.territories && h.armies == g.armies && h.status == g.status
        && h.limit == g.limit
  {
  }

  lemma {:induction false} IdleRun(c: Clock, target: int, a: Id, b: Id)
    requires ClockRuns(c) && Idle(c.p.g, a, b) && (Live(c) <==> c.p.g.elapsed < c.p.g.limit)
    ensures
      var d := StepToTick(c, target);
      && Idle(d.p.g, a, b) && (Live(d) <==> d.p.g.elapsed < d.p.g.limit)
        && (Live(d) && c.tick <= target ==> d.tick == target)
      && (!Live(d) ==> d.tick <= target || !Live(c))
    decreases target - c.tick
  {
    hide Step, ClockRuns, Idle;
    if Live(c) && c.tick < target {
      StepRuns(c);
      IdleStep(c.p.g, c.p.acc, TICK, a, b);
      IdleRun(c.(p := Step(c.p.g, c.p.acc, TICK), tick := c.tick + 1), target, a, b);
    }
  }

  /** The last full tick lies so close above its limit, if at all, that rounding the limit to
      nanoseconds gives that tick. */
  lemma LastTickRounds(limit: real, k: int)
    requires k <= MaximumTick(limit) && limit <= k as real * TICK
    ensures OnGrid(limit) >= limit
  {
    var n := 20000000 * k;
    assert k as real <= limit / TICK + EPSILON;
    assert k as real * TICK * 1000000000.0 == n as real;
    assert n as real - 1.0 / 2.0 < limit * 1000000000.0 <= n as real;
    RoundsUp(limit, n);
  }

  lemma RoundsUp(x: real, n: int)
    requires n as real - 0.5 < x * 1000000000.0 <= n as real
    ensures OnGrid(x) >= x
  {
    assert Round(x * 1000000000.0) == n;
    assert OnGrid(x) == n as real / 1000000000.0;
  }

  lemma IdleFinale(c: Clock, a: Id, b: Id)
    requires ClockRuns(c) && c.tick == 0 && Idle(c.p.g, a, b) && Live(c)
    ensures Finale(c).status == Playing <==> HasCaptureRecovery(c.p.g.rules) && OnGrid(c.p.g.limit) < c.p.g.limit
  {
    hide Step, OnGrid, Idle, Tick, MaximumTick;
    var last := MaximumTick(c.p.g.limit);
    LastTickNonNegative(c.p.g.limit);
    IdleRun(c, last, a, b);
    RunsTo(c, last);
    var at := StepToTick(c, last);
    if Live(at) {
      var delta := MaxReal(0.0, at.p.g.limit - at.p.g.elapsed);
      IdleStep(at.p.g, at.p.acc, delta, a, b);
      StepFrame(at.p.g, at.p.acc, delta);
      TickClock(at.p.g, delta);
    } else {
      LastTickRounds(at.p.g.limit, at.tick);
    }
  }

  lemma LastTickNonNegative(limit: real)
    requires 0.0 < limit
    ensures 0 <= MaximumTick(limit)
  {
    assert 0.0 <= limit / TICK;
  }

  lemma OpeningHasBothSides(arena: Arena, spawns: seq<Spawn>, modifiers: map<int, Modifiers>,
    limit: real) returns (a: Id, b: Id)
    requires CreateInitial(arena, spawns, modifiers, limit).Ok? && forall id :: id in arena.territories ==>
      id in arena.board.order
    ensures Idle(CreateInitial(arena, spawns, modifiers, limit).value, a, b)
  {
    hide EquipAll, FirstSpawnFault;
    OpeningIff(arena, spawns, modifiers, limit);
    var low := FirstOfTeam(arena, spawns, 0);
    var high := FirstOfTeam(arena, spawns, 1);
    a, b := spawns[low].tower, spawns[high].tower;
    var g := CreateInitial(arena, spawns, modifiers, limit).value;
    assert EquippedAt(arena.territories, spawns[low], modifiers, g.territories);
    assert EquippedAt(arena.territories, spawns[high], modifiers, g.territories);
  }

  /** Four different slots include one of each team. */
  lemma FirstOfTeam(arena: Arena, spawns: seq<Spawn>, team: int) returns (i: nat)
    requires |spawns| == SLOT_COUNT && forall j :: 0 <= j < |spawns| ==> GoodSpawn(arena.territories, spawns, j)
    requires 0 <= team <= 1
    ensures i < |spawns| && spawns[i].tower in arena.territories
    ensures arena.territories[spawns[i].tower].owner == if team == 0 then Player else Enemy
  {
    assert GoodSpawn(arena.territories, spawns, 0) && GoodSpawn(arena.territories, spawns, 1)
      && GoodSpawn(arena.territories, spawns, 2);
    assert GoodSpawn(arena.territories, spawns, 3);
    i := if (spawns[0].slot < 2) == (team == 0) then 0
         else if (spawns[1].slot < 2) == (team == 0) then 1
         else 2;
  }

  /** A battle nobody plays ends undecided exactly when rounding its clock to nanoseconds misses its
      time limit. */
  lemma IdleSimulation(o: Options)
    requires o.actions == [] && |o.modifiers| == SLOT_COUNT && RulesOf(o.rules).Some?
    requires CreateInitial(o.arena, o.spawns, o.modifiers, o.limit).Ok?
    requires forall id :: id in o.arena.territories ==> id in o.arena.board.order
    ensures
      var limit := if o.limit <= 0.0 then TIME_LIMIT else o.limit;
      && Simulate(o).Ok?
      && (Simulate(o).value.final.status == Playing <==> o.rules != 1 && OnGrid(limit) < limit)
  {
    hide Finale, OnGrid, EquipAll, FirstSpawnFault, Idle;
    CanonicalUnchanged([], o.maxActions);
    var opening := CreateInitial(o.arena, o.spawns, o.modifiers, o.limit).value;
    var a, b := OpeningHasBothSides(o.arena, o.spawns, o.modifiers, o.limit);
    var c := Clock(Phase(opening.(rules := RulesOf(o.rules).value), map[]), 0, 0.0);
    IdleRules(opening, RulesOf(o.rules).value, a, b);
    IdleFinale(c, a, b);
  }

  lemma IdleRules(g: GameState, rules: int, a: Id, b: Id)
    requires Idle(g, a, b)
    ensures Idle(g.(rules := rules), a, b)
  {
  }

  // ----- The loops

  ghost function ClockOf(battle: Battle, tick: int): Clock
    reads battle
  {
    Clock(Phase(battle.View(), battle.accumulators), tick, 0.0)
  }

  method StepUntil(battle: Battle, tick: int, target: int) returns (reached: int)
    modifies battle
    ensures ClockOf(battle, reached) == StepToTick(old(ClockOf(battle, tick)), target)
  {
    hide Step;
    reached := tick;
    while battle.status == Playing && reached < target
      invariant StepToTick(ClockOf(battle, reached), target) == StepToTick(old(ClockOf(battle, tick)), target)
      decreases target - reached
    {
      battle.StepSimulation(TICK);
      reached := reached + 1;
    }
  }

  method RunAction(battle: Battle, tick: int, modifiers: map<int, Modifiers>, a: SlotAction) returns (reached: int,
    error: Option<LogError>)
    modifies battle
    ensures match PlayAction(old(ClockOf(battle, tick)), modifiers, a)
            case Ok(c) => error == None && ClockOf(battle, reached) == c
            case Err(e) => error == Some(e)
  {
    hide StepToTick, BattleRules.Dispatch;
    if a.tick > MaximumTick(battle.limit) {
      return tick, Some(InvalidTick);
    }
    reached := StepUntil(battle, tick, a.tick);
    if battle.status != Playing {
      return reached, Some(ActionAfterBattleEnd);
    }
    if a.source !in battle.territories {
      return reached, Some(LogError.InvalidSource);
    }
    if a.target !in battle.territories {
      return reached, Some(LogError.InvalidTarget);
    }
    if battle.territories[a.source].owner != SideForSlot(a.slot) {
      return reached, Some(SlotNotPermitted);
    }
    var refused := battle.Dispatch(a.source, a.target, SideForSlot(a.slot), ModifiersOf(modifiers, a.slot).speed);
    if refused.Some? {
      return reached, Some(DispatchFault(refused.value));
    }
    return reached, None;
  }

  method Simulate2v2Battle(o: Options) returns (r: Result<Outcome2v2, SimError>)
    ensures r == Simulate(o)
  {
    hide StepToTick, PlayAction, Step, Canonicalize, CreateInitial;
    var canonical := CanonicalizeActions(o.actions, o.maxActions);
    if canonical.Err? {
      return Err(BadLog(canonical.error));
    }
    var actions := canonical.value;
    if |o.modifiers| != SLOT_COUNT {
      return Err(BadModifiers);
    }
    var opening := CreateInitial2v2(o.arena, o.spawns, o.modifiers, o.limit);
    if opening.Err? {
      return Err(BadOpening(opening.error));
    }
    var rules := RulesOf(o.rules);
    if rules == None {
      return Err(UnsupportedRules);
    }
    var battle := new Battle(opening.value.(rules := rules.value));
    ghost var start := ClockOf(battle, 0);
    var tick, processed: nat := 0, 0;
    for i := 0 to |actions|
      invariant fresh(battle) && processed == i
      invariant PlayLog(ClockOf(battle, tick), o.modifiers, actions[i..]) == PlayLog(start, o.modifiers, actions)
    {
      assert actions[i..][1..] == actions[i + 1..];
      var error;
      tick, error := RunAction(battle, tick, o.modifiers, actions[i]);
      if error.Some? {
        return Err(BadLog(error.value));
      }
      processed := processed + 1;
    }
    tick := StepUntil(battle, tick, MaximumTick(battle.limit));
    if battle.status == Playing {
      battle.StepSimulation(MaxReal(0.0, battle.limit - battle.elapsed));
    }
    return Ok(Outcome2v2(actions, battle.View(), processed));
  }
}
