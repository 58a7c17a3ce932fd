/** Which four-player logs a simulation plays, and what each command does in it. */
module SimulationLaws {
  import opened Text
  import opened World
  import opened DispatchRoute
  import opened BattleRules
  import opened OrderLaws
  import opened ReplayRules
  import opened Canonical
  import opened Simulation2v2

  function SideOf(slot: int): Team {
    if slot < 2 then Player else Enemy
  }

  /** From one state of the simulation to the next: the battle is brought to the command's tick, no later
      than the last full one, is undecided there, and the slot's side makes the send at the slot's speed. */
  ghost predicate CommandPlayed(modifiers: map<int, Modifiers>, c: Clock, d: Clock, a: SlotAction) {
    var at := StepToTick(c, a.tick);
    && a.tick <= MaximumTick(c.p.g.limit) && at.p.g.status == Playing
    && CanDispatch(at.p.g, a.source, a.target, SideOf(a.slot))
    && d == at.(p := at.p.(g := d.p.g))
    && Dispatched(at.p.g, d.p.g, a.source, a.target, SideOf(a.slot),
         if a.slot in modifiers then modifiers[a.slot].speed else 0.0)
  }

  ghost predicate CommandHistory(modifiers: map<int, Modifiers>, actions: seq<SlotAction>, states: seq<Clock>) {
    |states| == |actions| + 1
    && forall i :: 0 <= i < |actions| ==> CommandPlayed(modifiers, states[i], states[i + 1], actions[i])
  }

  ghost predicate PlaysTo(modifiers: map<int, Modifiers>, c: Clock, actions: seq<SlotAction>, d: Clock) {
    exists states :: CommandHistory(modifiers, actions, states) && states[0] == c && states[|actions|] == d
  }

  lemma SpeedOf(modifiers: map<int, Modifiers>, slot: int)
    ensures ModifiersOf(modifiers, slot).speed == if slot in modifiers then modifiers[slot].speed else 0.0
  {
  }

  /** Without routes to choose from, a send has one outcome. */
  lemma OneOutcome(g: GameState, h: GameState, k: GameState, source: Id, target: Id, team: Team, multiplier: real)
    requires !UsesTacticalRules(g.rules)
    requires Dispatched(g, h, source, target, team, multiplier) && Dispatched(g, k, source, target, team, multiplier)
    ensures h == k
  {
    hide LegalRoute, LeastRoute, DirectAttack;
    var a, b := h.armies[|g.armies|], k.armies[|g.armies|];
    assert a == b;
  }

  lemma CommandIff(modifiers: map<int, Modifiers>, c: Clock, a: SlotAction, d: Clock)
    requires !UsesTacticalRules(StepToTick(c, a.tick).p.g.rules)
    ensures PlayAction(c, modifiers, a) == Ok(d) <==> CommandPlayed(modifiers, c, d, a)
  {
    hide StepToTick, Dispatch, CanDispatch, Dispatched, MaximumTick, ModifiersOf;
    var g := StepToTick(c, a.tick).p.g;
    var side, speed := SideOf(a.slot), ModifiersOf(modifiers, a.slot).speed;
    SpeedOf(modifiers, a.slot);
    DispatchIff(g, a.source, a.target, side, speed);
    CanNeedsOwn(g, a.source, a.target, side);
    var r := Dispatch(g, a.source, a.target, side, speed);
    if r.Ok? && Dispatched(g, d.p.g, a.source, a.target, side, speed) {
      OneOutcome(g, r.value, d.p.g, a.source, a.target, side, speed);
    }
  }

  lemma CanNeedsOwn(g: GameState, source: Id, target: Id, team: Team)
    ensures CanDispatch(g, source, target, team) ==>
      source in g.territories && target in g.territories && g.territories[source].owner == team
  {
  }

  lemma CommandRuns(modifiers: map<int, Modifiers>, c: Clock, a: SlotAction)
    requires ClockRuns(c)
    ensures !UsesTacticalRules(StepToTick(c, a.tick).p.g.rules)
    ensures forall d :: PlayAction(c, modifiers, a) == Ok(d) ==> ClockRuns(d)
  {
    hide StepToTick, Dispatch, MaximumTick;
    RunsTo(c, a.tick);
    if PlayAction(c, modifiers, a).Ok? {
      LogRuns(c, modifiers, [a]);
      var d := PlayAction(c, modifiers, a).value;
      assert [a][1..] == [];
      assert PlayLog(d, modifiers, []) == Ok(d);
    }
  }

  /** A log plays exactly when it has a history, and to the state the history ends in. */
  lemma {:induction false} LogHistory(modifiers: map<int, Modifiers>, c: Clock, actions: seq<SlotAction>, d: Clock)
    requires ClockRuns(c)
    ensures PlayLog(c, modifiers, actions) == Ok(d) <==> PlaysTo(modifiers, c, actions, d)
    decreases |actions|
  {
    hide PlayAction, CommandPlayed, ClockRuns, StepToTick;
    if actions == [] {
      assert CommandHistory(modifiers, actions, [c]);
    } else {
      var a, rest := actions[0], actions[1..];
      CommandRuns(modifiers, c, a);
      if PlayLog(c, modifiers, actions) == Ok(d) {
        var next := PlayAction(c, modifiers, a).value;
        CommandIff(modifiers, c, a, next);
        LogHistory(modifiers, next, rest, d);
        var later :| CommandHistory(modifiers, rest, later) && later[0] == next && later[|rest|] == d;
        HistoryLonger(modifiers, c, actions, later);
      }
      if PlaysTo(modifiers, c, actions, d) {
        var states :| CommandHistory(modifiers, actions, states) && states[0] == c && states[|actions|] == d;
        assert CommandPlayed(modifiers, states[0], states[1], actions[0]);
        CommandIff(modifiers, c, a, states[1]);
        HistoryShorter(modifiers, actions, states);
        LogHistory(modifiers, states[1], rest, d);
      }
    }
  }

  lemma HistoryLonger(modifiers: map<int, Modifiers>, c: Clock, actions: seq<SlotAction>, later: seq<Clock>)
    requires actions != [] && CommandHistory(modifiers, actions[1..], later)
    requires CommandPlayed(modifiers, c, later[0], actions[0])
    ensures CommandHistory(modifiers, actions, [c] + later)
  {
    hide CommandPlayed;
    var states, rest := [c] + later, actions[1..];
    forall i | 0 <= i < |actions| ensures CommandPlayed(modifiers, states[i], states[i + 1], actions[i]) {
      if i > 0 {
        assert rest[i - 1] == actions[i] && later[i - 1] == states[i] && later[i] == states[i + 1];
      }
    }
  }

  lemma HistoryShorter(modifiers: map<int, Modifiers>, actions: seq<SlotAction>, states: seq<Clock>)
    requires actions != [] && CommandHistory(modifiers, actions, states)
    ensures CommandHistory(modifiers, actions[1..], states[1..])
  {
    hide CommandPlayed;
    var rest, later := actions[1..], states[1..];
    forall i | 0 <= i < |rest| ensures CommandPlayed(modifiers, later[i], later[i + 1], rest[i]) {
      assert rest[i] == actions[i + 1] && later[i] == states[i + 1] && later[i + 1] == states[i + 2];
    }
  }

  /** The first state of a simulation: the opening, under the rules asked for. */
  ghost predicate Opens(o: Options, start: Clock) {
    && |o.modifiers| == SLOT_COUNT && CreateInitial(o.arena, o.spawns, o.modifiers, o.limit).Ok?
    && (o.rules == 0 || o.rules == 1 || o.rules == 2)
    && start == Clock(Phase(
         CreateInitial(o.arena, o.spawns, o.modifiers, o.limit).value.(rules := if o.rules == 1 then 0 else 2), map[]),
           0, 0.0)
  }

  ghost predicate LeadsTo(o: Options, actions: seq<SlotAction>, last: Clock) {
    exists start :: Opens(o, start) && PlaysTo(o.modifiers, start, actions, last)
  }

  /** A simulation succeeds exactly when its log is canonical up to order, its opening exists, and the
      commands can be played one after the other; it then ends where they and the remaining time lead. */
  lemma SimulationPlays(o: Options)
    ensures Simulate(o).Ok? <==>
      && Canonicalize(o.actions, o.maxActions).Ok?
      && exists last :: LeadsTo(o, Canonicalize(o.actions, o.maxActions).value, last)
    ensures Simulate(o).Ok? ==>
      var actions := Canonicalize(o.actions, o.maxActions).value;
      exists last :: LeadsTo(o, actions, last) && Simulate(o).value == Outcome2v2(actions, Finale(last), |actions|)
  {
    hide Canonicalize, CreateInitial, PlayLog, PlaysTo, Finale;
    if Canonicalize(o.actions, o.maxActions).Ok? {
      var actions := Canonicalize(o.actions, o.maxActions).value;
      forall start, last | Opens(o, start)
        ensures PlayLog(start, o.modifiers, actions) == Ok(last) <==> PlaysTo(o.modifiers, start, actions, last)
      {
        OpensRunning(o, start);
        LogHistory(o.modifiers, start, actions, last);
      }
      if Simulate(o).Ok? {
        var start := Clock(Phase(CreateInitial(o.arena, o.spawns, o.modifiers, o.limit).value.(
          rules := RulesOf(o.rules).value), map[]), 0, 0.0);
        assert Opens(o, start);
        assert PlayLog(start, o.modifiers, actions).Ok?;
        assert LeadsTo(o, actions, PlayLog(start, o.modifiers, actions).value);
      }
    }
  }

  lemma OpensRunning(o: Options, start: Clock)
    requires Opens(o, start)
    ensures ClockRuns(start)
  {
    hide EquipAll, FirstSpawnFault;
  }
}
