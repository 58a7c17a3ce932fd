/** Why a match of a run is the way it is: which event ended it, and which events abandoned a slot. */
module MatchHistory {
  import opened Text
  import opened World
  import opened BattleRules
  import opened Canonical
  import opened Simulation2v2
  import opened MatchSlots
  import opened MatchRules
  import opened MatchLaws
  import opened MatchRuns
  import opened MatchOrders
  import opened MatchOutcomes
  import BattleInvariants
  import opened Verdicts

  // ----- What ends a match

  /** Once a match is finished, messages change neither its battle nor its slots. */
  lemma FinishedListens(m: Match, env: Env, msg: Message, number: nat)
    requires Shape(m) && m.stage == Finished
    ensures
      var r := HandleMessage(m, env, msg, number).0;
      r.stage == Finished && r.battle == m.battle && r.slots == m.slots
  {
    hide Dispatch, Logged, CheckForfeit, AllVoted;
  }

  lemma FinishSame(m: Match, env: Env)
    requires Shape(m)
    ensures
      var r := Finish(m, env);
      r.battle == m.battle && r.slots == m.slots && r.deadline == m.deadline && (!m.settled ==> r.stage == Finished)
  {
    hide SettleFault, RequestOf;
  }

  lemma ForfeitEnds(m: Match, env: Env)
    requires Shape(m) && m.stage == Running && m.battle.status == Playing && !m.settled
    ensures
      var r := CheckForfeit(m, env);
      r.deadline == m.deadline && (r.stage == Finished ==> Forfeited(r)) && (r.stage == Finished || r.stage == Running)
  {
    hide Finish, TeamDead;
    FinishSame(m.(battle := m.battle.(status := Defeat)), env);
    FinishSame(m.(battle := m.battle.(status := Victory)), env);
  }

  lemma SurrenderEnds(m: Match, env: Env, k: nat)
    requires Shape(m) && k < SLOT_COUNT && m.stage != Finished
    requires m.stage == Running ==> m.battle.status == Playing && !m.settled
    ensures
      var r := HandleSurrender(m, env, k).0;
      && r.deadline == m.deadline && (r.stage == Finished ==> m.stage == Running && Forfeited(r))
      && (m.stage != Running ==> r.stage != Running)
  {
    hide CheckForfeit, Forfeited;
    if m.stage == Running {
      ForfeitEnds(WithSlot(m, k, m.slots[k].(surrendered := true, connected := false, session := None)), env);
    }
  }

  /** Handling a message does not move the deadline, and ends a match only by a forfeit. */
  lemma MessageEnds(m: Match, env: Env, msg: Message, number: nat)
    requires Shape(m) && m.stage != Finished
    requires m.stage == Running ==> m.battle.status == Playing && !m.settled
    ensures
      var r := HandleMessage(m, env, msg, number).0;
      && r.deadline == m.deadline && (r.stage == Finished ==> m.stage == Running && Forfeited(r))
      && (m.stage != Running ==> r.stage != Running)
  {
    hide HandleDispatch, HandleSurrender, HandleRematchVote, Forfeited;
    if msg.user in m.seats && msg.payload.Payload? {
      if msg.payload.kind.DispatchKind? {
        var kind := msg.payload.kind;
        DispatchEnds(m, m.seats[msg.user], kind.sequence, kind.source, kind.target, number);
      }
      SurrenderEnds(m, env, m.seats[msg.user]);
      VoteTooEarly(m, env, m.seats[msg.user]);
    }
  }

  lemma DispatchEnds(m: Match, k: nat, sequence: int, source: Id, target: Id, number: nat)
    requires Shape(m) && k < SLOT_COUNT
    ensures
      var r := HandleDispatch(m, k, sequence, source, target, number).0;
      r.deadline == m.deadline && r.stage == m.stage
  {
    hide Dispatch;
  }

  lemma VoteTooEarly(m: Match, env: Env, k: nat)
    requires Shape(m) && m.stage != Finished && k < SLOT_COUNT
    ensures HandleRematchVote(m, env, k).0 == m
  {
  }

  lemma RunningUndecided(m: Match, bound: nat)
    requires Good2v2(m, bound) && m.stage == Running
    ensures m.battle.status == Playing && !m.settled
  {
    hide GoodLog, GoodTotals, Members, RequestOf, RulesVerdict;
  }

  lemma {:induction false} MessagesEnd(m: Match, env: Env, messages: seq<Message>)
    requires Good2v2(m, m.serverSeq) && m.stage != Finished
    ensures Shape(m)
    ensures
      var r := HandleAll(m, env, messages);
      && (r.stage == Finished ==> m.stage == Running && Forfeited(r))
      && (r.stage != Finished ==> r.deadline == m.deadline && (m.stage != Running ==> r.stage != Running))
  {
    hide Good2v2, HandleMessage, Forfeited;
    GoodShape(m, m.serverSeq);
    if messages != [] {
      var last := |messages| - 1;
      var before := HandleAll(m, env, messages[..last]);
      MessagesEnd(m, env, messages[..last]);
      if before.stage == Finished {
        FinishedListens(before, env, messages[last], m.serverSeq + last + 1);
        SameForfeit(before, HandleAll(m, env, messages));
      } else {
        HandleAllKeeps(m, env, messages[..last]);
        KeptGood(m, before, m.serverSeq + last);
        if before.stage == Running {
          RunningUndecided(before, m.serverSeq + last);
        }
        MessageEnds(before, env, messages[last], m.serverSeq + last + 1);
      }
    }
  }

  lemma SameForfeit(a: Match, b: Match)
    requires a.slots == b.slots && a.battle.status == b.battle.status
    ensures Forfeited(a) <==> Forfeited(b)
  {
  }

  /** The battle went on past the deadline. */
  predicate Overdue(m: Match, env: Env) {
    m.stage == Running && env.now > m.deadline
  }

  ghost predicate EndedWith(m: Match, overdue: bool) {
    || Forfeited(m)
    || (m.battle.status != Playing && m.battle.status == RulesVerdict(m.battle))
    || (m.battle.status == Draw && overdue)
  }

  lemma GraceEnds(m: Match, env: Env)
    requires Shape(m) && m.stage == Running
    ensures EnforceGrace(m, env).stage == Running ==> EnforceGrace(m, env).deadline == m.deadline
  {
    hide SettleFault, RequestOf, TeamDead;
  }

  lemma AdvanceEnds(m: Match, env: Env, bound: nat)
    requires Good2v2(m, bound) && m.stage == Running
    ensures Shape(m)
    ensures Advance2v2(m, env).stage == Finished ==> EndedWith(Advance2v2(m, env), Overdue(m, env))
  {
    hide Step, RulesVerdict, Finish, GoodLog, GoodTotals, GoodBooks, Seating, Forfeited;
    SteppedKept(m, bound);
    StepStays(m);
    var stepped := StepBattle(m);
    FinishSame(stepped, env);
    FinishSame(stepped.(battle := stepped.battle.(status := Draw)), env);
  }

  lemma StepStays(m: Match)
    requires Shape(m)
    ensures StepBattle(m).deadline == m.deadline && StepBattle(m).stage == m.stage
  {
    hide Step;
  }

  lemma StartDeadline(m: Match, env: Env)
    requires Shape(m) && m.stage != Finished
    ensures StartMatch(m, env).stage != Finished
    ensures StartMatch(m, env).stage == Running ==> StartMatch(m, env).deadline == env.now + MATCH_SECONDS
  {
    hide Opening;
  }

  lemma LobbyDeadline(m: Match, env: Env)
    requires Shape(m)
    ensures Lobby(m, env).stage != Finished || m.stage == Finished
    ensures Lobby(m, env).stage == Running ==>
      Lobby(m, env).deadline == if m.stage == Running then m.deadline else env.now + MATCH_SECONDS
  {
    hide StartMatch, AllJoined, AllReady;
    if m.stage == Countdown {
      StartDeadline(m, env);
    }
  }

  /** A loop ends a match by a forfeit, by the rules of the battle, or by the deadline. */
  lemma LiveEnds(m: Match, env: Env, messages: seq<Message>)
    requires Good2v2(m, m.serverSeq) && m.stage != Finished
    ensures Shape(m)
    ensures LoopLive(m, env, messages).stage == Finished ==> EndedWith(LoopLive(m, env, messages), Overdue(m, env))
  {
    hide Good2v2, EnforceGrace, HandleAll, Lobby, Advance2v2, Forfeited, RulesVerdict, Keeps;
    GoodShape(m, m.serverSeq);
    var graced := if m.stage == Running then EnforceGrace(m, env) else m;
    if m.stage == Running {
      EnforceGraceKeeps(m, env, m.serverSeq);
      KeptGood(m, graced, m.serverSeq);
      GraceCounters(m, env);
      GraceEnds(m, env);
    }
    if m.stage != Running || graced.stage == Running {
      MessagesEnd(graced, env, messages);
      ReceivedKeeps(graced, env, messages);
      var received := Received(graced, env, messages);
      KeptGood(graced, received, graced.serverSeq + |messages|);
      SameForfeit(HandleAll(graced, env, messages), received);
      if received.stage != Finished {
        LobbyKeeps(received, env, graced.serverSeq + |messages|);
        LobbyDeadline(received, env);
        var lobby := Lobby(received, env);
        KeptGood(received, lobby, graced.serverSeq + |messages|);
        if lobby.stage == Running {
          AdvanceEnds(lobby, env, graced.serverSeq + |messages|);
        }
      }
    }
  }

  lemma EventEnds(m: Match, e: Event)
    requires Good2v2(m, m.serverSeq) && (e.Loops? ==> m.tick <= e.loopTick) && m.stage != Finished
    ensures Shape(m)
    ensures Apply(m, e).stage == Finished ==> e.Loops? && EndedWith(Apply(m, e), Overdue(m, e.env))
  {
    hide Good2v2, Keeps, Join, Leave, LoopLive, EndedWith;
    GoodShape(m, m.serverSeq);
    match e
    case Joins(tick, presences) => JoinNeverFinishes(m, tick, presences);
    case Leaves(now, presences) => LeaveNeverFinishes(m, presences, now);
    case Loops(tick, env, messages) =>
      CountersChange(m, tick, m.serverSeq, m.serverSeq);
      KeptGood(m, m.(tick := tick), m.serverSeq);
      LiveEnds(m.(tick := tick), env, messages);
    case Shutdown =>
  }

  lemma {:induction false} JoinEachStage(m: Match, presences: seq<Presence>)
    requires Shape(m)
    ensures JoinEach(m, presences).stage == m.stage
  {
    if presences != [] {
      JoinEachStage(m, presences[..|presences| - 1]);
    }
  }

  lemma JoinNeverFinishes(m: Match, tick: int, presences: seq<Presence>)
    requires Shape(m) && m.stage != Finished
    ensures Join(m, tick, presences).stage != Finished
  {
    hide JoinEach, AllJoined;
    JoinEachStage(m, presences);
  }

  lemma {:induction false} LeaveEachStage(m: Match, presences: seq<Presence>, now: real)
    requires Shape(m)
    ensures LeaveEach(m, presences, now).stage == m.stage
  {
    if presences != [] {
      LeaveEachStage(m, presences[..|presences| - 1], now);
    }
  }

  lemma LeaveNeverFinishes(m: Match, presences: seq<Presence>, now: real)
    requires Shape(m) && m.stage != Finished
    ensures Leave(m, presences, now).stage != Finished
  {
    hide LeaveEach;
    LeaveEachStage(m, presences, now);
  }

  /** The event at position `k` is a loop of a battle that had gone on past its deadline. */
  ghost predicate LateLoop(info: MatchInfo, slots: seq<Slot>, events: seq<Event>, k: nat)
    requires |slots| == SLOT_COUNT
  {
    k < |events| && events[k].Loops? && Overdue(After(info, slots, events[..k]), events[k].env)
  }

  ghost predicate RanLate(info: MatchInfo, slots: seq<Slot>, events: seq<Event>)
    requires |slots| == SLOT_COUNT
  {
    exists k: nat :: LateLoop(info, slots, events, k)
  }

  /** The reasons of a match's end in the game's own terms. */
  ghost predicate Explained(m: Match, late: bool)
    requires |m.slots| == SLOT_COUNT
  {
    || (BothGone(m.slots, 0) && m.battle.status == Defeat)
    || (BothGone(m.slots, 2) && m.battle.status == Victory)
    || (m.battle.status != Playing && m.battle.status == Ruling(m.battle))
    || (m.battle.status == Draw && late)
  }

  lemma EndExplained(m: Match, bound: nat, late: bool)
    requires Good2v2(m, bound) && InfoListed(m.info) && m.stage == Finished && EndedWith(m, late)
    ensures |m.slots| == SLOT_COUNT && Explained(m, late)
  {
    hide Members, GoodLog, Ruling, Verdict, TeamDead, BothGone, BattleInvariants.GoodBoard, InfoListed, RequestOf,
      GoodInfo;
    assert |m.slots| == SLOT_COUNT by { GoodShape(m, bound); }
    GoneIff(m.slots);
    assert BattleInvariants.GoodBoard(m.battle) by { hide GoodBooks, GoodVerdict; }
    VerdictIs(m.battle);
  }

  lemma {:induction false} EndsByRules(info: MatchInfo, slots: seq<Slot>, events: seq<Event>)
    requires Created(info, slots) && InTickOrder2v2(0, events)
    ensures |slots| == SLOT_COUNT
    ensures
      var m := After(info, slots, events);
      m.stage == Finished ==> EndedWith(m, RanLate(info, slots, events))
    decreases |events|
  {
    hide Good2v2, Run2v2, Seating, GoodInfo, FreshSlots, NewMatch, Moves, Apply, EndedWith;
    SeatingFour(slots);
    if events == [] {
      StartUnfinished(info, slots);
    } else {
      var front, e := events[..|events| - 1], events[|events| - 1];
      TakeOrder(events, |front|);
      EndsByRules(info, slots, front);
      var before, m := After(info, slots, front), After(info, slots, events);
      RunsAreGood(info, slots, front);
      LastStep(info, slots, events);
      if before.stage == Finished {
        RunsMoveForward(info, slots, events, |front|);
        if k: nat :| LateLoop(info, slots, front, k) {
          LateBefore(info, slots, events, k);
        }
        ReasonStays(before, m, RanLate(info, slots, front), RanLate(info, slots, events));
      } else if m.stage == Finished {
        RunTickBound(info, slots, events);
        EventEnds(before, e);
        assert Overdue(before, e.env) ==> LateLoop(info, slots, events, |front|);
        ReasonWeaker(m, Overdue(before, e.env), RanLate(info, slots, events));
      }
    }
  }

  /** A finished match was lost by a team both of whose players have surrendered or been abandoned, has
      the status the rules give its battle (a side out, or ahead when time was up), or was drawn by a loop
      after the deadline. The rules are said by the sets of towers held wherever the battlefield lists its
      towers once each. */
  lemma EndsForAReason(info: MatchInfo, slots: seq<Slot>, events: seq<Event>)
    requires Created(info, slots) && InTickOrder2v2(0, events)
    ensures |slots| == SLOT_COUNT
    ensures
      var m, late := After(info, slots, events), RanLate(info, slots, events);
      m.stage == Finished ==>
        |m.slots| == SLOT_COUNT && EndedWith(m, late) && (InfoListed(info) ==> Explained(m, late))
  {
    hide Good2v2, Run2v2, Seating, GoodInfo, FreshSlots, NewMatch, EndedWith, Explained, InfoListed, RanLate;
    SeatingFour(slots);
    EndsByRules(info, slots, events);
    RunsAreGood(info, slots, events);
    SameInfo(info, slots, events);
    var m := After(info, slots, events);
    GoodShape(m, m.serverSeq);
    if m.stage == Finished && InfoListed(info) {
      EndExplained(m, m.serverSeq, RanLate(info, slots, events));
    }
  }

  lemma SameInfo(info: MatchInfo, slots: seq<Slot>, events: seq<Event>)
    requires Created(info, slots) && InTickOrder2v2(0, events)
    ensures |slots| == SLOT_COUNT && After(info, slots, events).info == info
  {
    hide Good2v2, Seating, GoodInfo, FreshSlots, SlotsMove, LogMoves, RecordMoves, Forward;
    RunsMoveForward(info, slots, events, 0);
    assert events[..0] == [];
  }

  lemma StartUnfinished(info: MatchInfo, slots: seq<Slot>)
    requires |slots| == SLOT_COUNT
    ensures After(info, slots, []).stage != Finished
  {
  }

  lemma LastStep(info: MatchInfo, slots: seq<Slot>, events: seq<Event>)
    requires |slots| == SLOT_COUNT && events != []
    ensures After(info, slots, events) == Apply(After(info, slots, events[..|events| - 1]), events[|events| - 1])
  {
    hide Apply, NewMatch;
  }

  /** The clock before the last event is not ahead of it. */
  lemma RunTickBound(info: MatchInfo, slots: seq<Slot>, events: seq<Event>)
    requires Created(info, slots) && InTickOrder2v2(0, events) && events != [] && |slots| == SLOT_COUNT
    ensures
      var last := |events| - 1;
      events[last].Loops? ==> After(info, slots, events[..last]).tick <= events[last].loopTick
  {
    hide Good2v2, Run2v2, Seating, GoodInfo, FreshSlots, NewMatch, Keeps;
    var last := |events| - 1;
    NewCounters(info, slots);
    CreatedGood(info, slots);
    TakeOrder(events, last);
    RunGood(NewMatch(info, slots), events[..last]);
    TicksLeft(0, events, last);
  }

  lemma LateBefore(info: MatchInfo, slots: seq<Slot>, events: seq<Event>, k: nat)
    requires |slots| == SLOT_COUNT && events != [] && LateLoop(info, slots, events[..|events| - 1], k)
    ensures LateLoop(info, slots, events, k)
  {
    hide Overdue, Run2v2, NewMatch;
    assert events[..|events| - 1][..k] == events[..k];
  }

  lemma ReasonStays(a: Match, b: Match, before: bool, after: bool)
    requires Moves(a, b) && a.stage == Finished && |a.slots| == SLOT_COUNT && EndedWith(a, before) && (before ==> after)
    ensures EndedWith(b, after)
  {
    hide Dead, RulesVerdict, LogMoves, BooksMove;
  }

  lemma ReasonWeaker(m: Match, before: bool, after: bool)
    requires EndedWith(m, before) && (before ==> after)
    ensures EndedWith(m, after)
  {
    hide Forfeited, RulesVerdict;
  }

  // ----- What abandons a slot

  /** What one loop does to a slot: it never brings a session back, and abandons only the long gone. */
  ghost predicate LoopSlot(s: Slot, t: Slot, now: real) {
    && t.disconnectedAt == s.disconnectedAt && (s.session == None ==> t.session == None)
    && (t.abandoned && !s.abandoned ==> s.disconnectedAt.Some? && now > s.disconnectedAt.value + GRACE_SECONDS)
  }

  ghost predicate LoopSlots(a: seq<Slot>, b: seq<Slot>, now: real) {
    |a| == |b| && forall k :: 0 <= k < |a| ==> LoopSlot(a[k], b[k], now)
  }

  lemma LoopSlotsOn(a: seq<Slot>, b: seq<Slot>, c: seq<Slot>, now: real)
    requires LoopSlots(a, b, now) && LoopSlots(b, c, now)
    ensures LoopSlots(a, c, now)
  {
  }

  lemma LoopSlotsSame(a: seq<Slot>, now: real)
    ensures LoopSlots(a, a, now)
  {
  }

  lemma ForfeitSlots(m: Match, env: Env)
    requires Shape(m)
    ensures CheckForfeit(m, env).slots == m.slots
  {
    hide TeamDead, SettleFault, RequestOf;
  }

  lemma GraceSlots(m: Match, env: Env)
    requires Shape(m)
    ensures LoopSlots(m.slots, EnforceGrace(m, env).slots, env.now)
  {
    hide CheckForfeit;
    ForfeitSlots(m.(slots := ExpireAll(m.slots, env.now)), env);
  }

  lemma MessageSlots(m: Match, env: Env, msg: Message, number: nat)
    requires Shape(m)
    ensures LoopSlots(m.slots, HandleMessage(m, env, msg, number).0.slots, env.now)
  {
    hide Dispatch, CheckForfeit, AllVoted;
    LoopSlotsSame(m.slots, env.now);
    if msg.user in m.seats {
      var k := m.seats[msg.user];
      ForfeitSlots(WithSlot(m, k, m.slots[k].(surrendered := true, connected := false, session := None)), env);
    }
  }

  lemma {:induction false} MessagesSlots(m: Match, env: Env, messages: seq<Message>)
    requires Shape(m)
    ensures LoopSlots(m.slots, HandleAll(m, env, messages).slots, env.now)
  {
    hide HandleMessage, LoopSlots;
    if messages == [] {
      LoopSlotsSame(m.slots, env.now);
    } else {
      var last := |messages| - 1;
      var before := HandleAll(m, env, messages[..last]);
      MessagesSlots(m, env, messages[..last]);
      MessageSlots(before, env, messages[last], m.serverSeq + last + 1);
      LoopSlotsOn(m.slots, before.slots, HandleAll(m, env, messages).slots, env.now);
    }
  }

  lemma LobbySlots(m: Match, env: Env)
    requires Shape(m)
    ensures Lobby(m, env).slots == m.slots
  {
    hide Opening, AllJoined, AllReady;
  }

  lemma AdvanceSlots(m: Match, env: Env)
    requires Shape(m)
    ensures Advance2v2(m, env).slots == m.slots
  {
    hide Step, SettleFault, RequestOf;
  }

  lemma LoopSlotsMove(m: Match, tick: int, env: Env, messages: seq<Message>)
    requires Shape(m)
    ensures LoopSlots(m.slots, Loop(m, tick, env, messages).slots, env.now)
  {
    hide EnforceGrace, HandleAll, Lobby, Advance2v2, Finish, LoopSlots;
    var now := m.(tick := tick);
    LoopSlotsSame(m.slots, env.now);
    FinishSame(now, env);
    var graced := if now.stage == Running then EnforceGrace(now, env) else now;
    GraceSlots(now, env);
    MessagesSlots(graced, env, messages);
    var received := Received(graced, env, messages);
    LoopSlotsOn(m.slots, graced.slots, received.slots, env.now);
    LobbySlots(received, env);
    AdvanceSlots(Lobby(received, env), env);
  }

  /** A slot whose player's session has left holds none. */
  ghost predicate Away(s: Slot) {
    s.disconnectedAt.Some? ==> s.session == None
  }

  /** What one event does to a slot. */
  ghost predicate SlotEvent(s: Slot, t: Slot, e: Event) {
    && Away(t)
    && (t.disconnectedAt.Some? ==>
          || (s.disconnectedAt == t.disconnectedAt && s.session == None)
          || (e.Leaves? && t.disconnectedAt == Some(e.at) && s.session.Some?))
    && (t.abandoned && !s.abandoned ==>
          e.Loops? && s.disconnectedAt.Some? && e.env.now > s.disconnectedAt.value + GRACE_SECONDS)
  }

  ghost predicate SlotsEvent(a: seq<Slot>, b: seq<Slot>, e: Event) {
    |a| == |b| && forall k :: 0 <= k < |a| ==> SlotEvent(a[k], b[k], e)
  }

  lemma {:induction false} JoinEachSlots(m: Match, tick: int, presences: seq<Presence>)
    requires Shape(m) && forall k :: 0 <= k < SLOT_COUNT ==> Away(m.slots[k])
    ensures SlotsEvent(m.slots, JoinEach(m, presences).slots, Joins(tick, presences))
  {
    hide EmptySlotFor;
    if presences != [] {
      JoinEachSlots(m, tick, presences[..|presences| - 1]);
    }
  }

  lemma {:induction false} LeaveEachSlots(m: Match, presences: seq<Presence>, now: real)
    requires Shape(m) && forall k :: 0 <= k < SLOT_COUNT ==> Away(m.slots[k])
    ensures SlotsEvent(m.slots, LeaveEach(m, presences, now).slots, Leaves(now, presences))
    ensures forall k :: 0 <= k < SLOT_COUNT ==>
      LeaveEach(m, presences, now).slots[k].session.Some? ==>
        LeaveEach(m, presences, now).slots[k].session == m.slots[k].session
  {
    if presences != [] {
      LeaveEachSlots(m, presences[..|presences| - 1], now);
    }
  }

  lemma EventSlots(m: Match, e: Event)
    requires Shape(m) && forall k :: 0 <= k < SLOT_COUNT ==> Away(m.slots[k])
    ensures SlotsEvent(m.slots, Apply(m, e).slots, e)
  {
    hide JoinEach, LeaveEach, Loop, AllJoined;
    match e
    case Joins(tick, presences) => JoinEachSlots(m, tick, presences);
    case Leaves(now, presences) => LeaveEachSlots(m, presences, now);
    case Loops(tick, env, messages) => LoopSlotsMove(m, tick, env, messages);
    case Shutdown =>
  }

  /** The session of slot `k` left at event `i` and has not been replaced since. */
  ghost predicate LeftAndStayed(info: MatchInfo, slots: seq<Slot>, events: seq<Event>, k: nat, i: nat)
    requires |slots| == SLOT_COUNT && k < SLOT_COUNT
  {
    && i < |events| && events[i].Leaves? && After(info, slots, events[..i]).slots[k].session.Some?
    && forall h :: i < h <= |events| ==> After(info, slots, events[..h]).slots[k].session == None
  }

  /** The session of slot `k` left at event `i`, was not replaced until event `j`, and that was a loop
      more than 30 seconds later. */
  ghost predicate AwayTooLong(info: MatchInfo, slots: seq<Slot>, events: seq<Event>, k: nat, i: nat, j: nat)
    requires |slots| == SLOT_COUNT && k < SLOT_COUNT
  {
    && i < j < |events| && LeftAndStayed(info, slots, events[..j], k, i)
    && events[j].Loops? && events[j].env.now > events[i].at + GRACE_SECONDS
  }

  predicate LeftAt(events: seq<Event>, i: nat, at: real) {
    i < |events| && events[i].Leaves? && events[i].at == at
  }

  ghost predicate SlotHistory(info: MatchInfo, slots: seq<Slot>, events: seq<Event>, k: nat)
    requires |slots| == SLOT_COUNT && k < SLOT_COUNT
  {
    var s := After(info, slots, events).slots[k];
    && Away(s)
    && (s.disconnectedAt.Some? ==> exists i: nat ::
      LeftAndStayed(info, slots, events, k, i) && LeftAt(events, i, s.disconnectedAt.value))
    && (s.abandoned ==> exists i: nat, j: nat :: AwayTooLong(info, slots, events, k, i, j))
  }

  lemma StayedOn(info: MatchInfo, slots: seq<Slot>, events: seq<Event>, k: nat, i: nat)
    requires |slots| == SLOT_COUNT && k < SLOT_COUNT && events != []
    requires LeftAndStayed(info, slots, events[..|events| - 1], k, i)
      && After(info, slots, events).slots[k].session == None
    ensures LeftAndStayed(info, slots, events, k, i) && events[..|events| - 1][i] == events[i]
  {
    hide Run2v2, NewMatch;
    var front := events[..|events| - 1];
    assert front[..i] == events[..i];
    forall h | i < h <= |events| ensures After(info, slots, events[..h]).slots[k].session == None {
      if h < |events| {
        assert front[..h] == events[..h];
      } else {
        assert events[..h] == events;
      }
    }
  }

  lemma LongAgo(info: MatchInfo, slots: seq<Slot>, events: seq<Event>, k: nat, i: nat, j: nat)
    requires |slots| == SLOT_COUNT && k < SLOT_COUNT && events != []
    requires AwayTooLong(info, slots, events[..|events| - 1], k, i, j)
    ensures AwayTooLong(info, slots, events, k, i, j)
  {
    hide LeftAndStayed;
    assert events[..|events| - 1][..j] == events[..j];
  }

  lemma JustLeft(info: MatchInfo, slots: seq<Slot>, events: seq<Event>, k: nat)
    requires |slots| == SLOT_COUNT && k < SLOT_COUNT && events != []
    requires
      var last := |events| - 1;
      events[last].Leaves? && After(info, slots, events[..last]).slots[k].session.Some?
    requires After(info, slots, events).slots[k].session == None
    ensures LeftAndStayed(info, slots, events, k, |events| - 1)
  {
    hide Run2v2, NewMatch;
    assert events[..|events|] == events;
  }

  lemma {:induction false} SlotHistories(info: MatchInfo, slots: seq<Slot>, events: seq<Event>)
    requires |slots| == SLOT_COUNT && forall k :: 0 <= k < SLOT_COUNT ==>
      slots[k].disconnectedAt == None && !slots[k].abandoned
    ensures forall k :: 0 <= k < SLOT_COUNT ==> SlotHistory(info, slots, events, k)
    decreases |events|
  {
    hide Run2v2, Apply, LeftAndStayed, AwayTooLong;
    if events == [] {
      NobodyAway(info, slots);
    } else {
      var front, e := events[..|events| - 1], events[|events| - 1];
      SlotHistories(info, slots, front);
      LastStep(info, slots, events);
      assert forall k :: 0 <= k < SLOT_COUNT ==> SlotHistory(info, slots, front, k) ==>
        Away(After(info, slots, front).slots[k]);
      EventSlots(After(info, slots, front), e);
      forall k | 0 <= k < SLOT_COUNT ensures SlotHistory(info, slots, events, k) {
        HistoryStep(info, slots, events, k);
      }
    }
  }

  lemma NobodyAway(info: MatchInfo, slots: seq<Slot>)
    requires |slots| == SLOT_COUNT && forall k :: 0 <= k < SLOT_COUNT ==>
      slots[k].disconnectedAt == None && !slots[k].abandoned
    ensures forall k :: 0 <= k < SLOT_COUNT ==> SlotHistory(info, slots, [], k)
  {
    assert After(info, slots, []).slots == slots;
  }

  lemma HistoryStep(info: MatchInfo, slots: seq<Slot>, events: seq<Event>, k: nat)
    requires |slots| == SLOT_COUNT && k < SLOT_COUNT && events != []
    requires SlotHistory(info, slots, events[..|events| - 1], k)
    requires
      var last := |events| - 1;
      SlotEvent(After(info, slots, events[..last]).slots[k], After(info, slots, events).slots[k], events[last])
    ensures SlotHistory(info, slots, events, k)
  {
    hide Run2v2, NewMatch, LeftAndStayed, AwayTooLong;
    var last := |events| - 1;
    var s, t := After(info, slots, events[..last]).slots[k], After(info, slots, events).slots[k];
    if t.disconnectedAt.Some? {
      if s.disconnectedAt == t.disconnectedAt && s.session == None {
        var i: nat :| LeftAndStayed(info, slots, events[..last], k, i)
          && LeftAt(events[..last], i, s.disconnectedAt.value);
        StayedOn(info, slots, events, k, i);
      } else {
        JustLeft(info, slots, events, k);
      }
    }
    if t.abandoned {
      if s.abandoned {
        var i: nat, j: nat :| AwayTooLong(info, slots, events[..last], k, i, j);
        LongAgo(info, slots, events, k, i, j);
      } else {
        var i: nat :| LeftAndStayed(info, slots, events[..last], k, i)
          && LeftAt(events[..last], i, s.disconnectedAt.value);
        AbandonedNow(info, slots, events, k, i);
      }
    }
  }

  lemma AbandonedNow(info: MatchInfo, slots: seq<Slot>, events: seq<Event>, k: nat, i: nat)
    requires |slots| == SLOT_COUNT && k < SLOT_COUNT && events != []
    requires LeftAndStayed(info, slots, events[..|events| - 1], k, i)
    requires
      var e := events[|events| - 1];
      e.Loops? && e.env.now > events[i].at + GRACE_SECONDS
    ensures AwayTooLong(info, slots, events, k, i, |events| - 1)
  {
    hide Run2v2, NewMatch;
  }

  /** In every run a slot is abandoned only after its player's session has left and stayed away for
      more than 30 seconds. */
  lemma GraceIsGranted(info: MatchInfo, slots: seq<Slot>, events: seq<Event>, k: nat)
    requires Created(info, slots) && k < SLOT_COUNT
    ensures |slots| == SLOT_COUNT
    ensures After(info, slots, events).slots[k].abandoned ==> exists i: nat, j: nat ::
      AwayTooLong(info, slots, events, k, i, j)
  {
    hide Run2v2, AwayTooLong, LeftAndStayed, Seating, GoodInfo;
    SeatingFour(slots);
    SlotHistories(info, slots, events);
    assert SlotHistory(info, slots, events, k);
  }

  // ----- What ends the countdown

  predicate Surrenders(msg: Message) {
    msg.payload.Payload? && msg.payload.schema == SCHEMA_VERSION && msg.payload.kind.SurrenderKind?
  }

  /** The message says ready for slot `k`, in the session that holds it. */
  predicate SaysReady(m: Match, k: nat, msg: Message)
    requires k < |m.slots|
  {
    && msg.user in m.seats && m.seats[msg.user] == k && m.slots[k].session == Some(msg.session)
    && msg.payload == Payload(SCHEMA_VERSION, ReadyKind)
  }

  predicate ReadyBy(m: Match, messages: seq<Message>, k: nat)
    requires k < |m.slots|
  {
    m.slots[k].ready || exists j :: 0 <= j < |messages| && SaysReady(m, k, messages[j])
  }

  predicate AllReadyBy(m: Match, messages: seq<Message>) {
    forall k :: 0 <= k < |m.slots| ==> ReadyBy(m, messages, k)
  }

  lemma CountdownMessage(m: Match, env: Env, msg: Message, number: nat)
    requires Shape(m) && m.stage == Countdown && !Surrenders(msg)
    ensures
      var r := HandleMessage(m, env, msg, number).0;
      && r == m.(slots := r.slots)
      && forall k :: 0 <= k < SLOT_COUNT ==>
        r.slots[k] == m.slots[k].(ready := m.slots[k].ready || SaysReady(m, k, msg))
  {
    hide Dispatch, CheckForfeit, AllVoted;
  }

  lemma {:induction false} CountdownMessages(m: Match, env: Env, messages: seq<Message>)
    requires Shape(m) && m.stage == Countdown && forall j :: 0 <= j < |messages| ==> !Surrenders(messages[j])
    ensures
      var r := HandleAll(m, env, messages);
      && r == m.(slots := r.slots)
      && forall k :: 0 <= k < SLOT_COUNT ==> r.slots[k] == m.slots[k].(ready := ReadyBy(m, messages, k))
  {
    hide HandleMessage, Surrenders, SaysReady;
    if messages != [] {
      var last := |messages| - 1;
      var before := HandleAll(m, env, messages[..last]);
      CountdownMessages(m, env, messages[..last]);
      CountdownMessage(before, env, messages[last], m.serverSeq + last + 1);
      forall k | 0 <= k < SLOT_COUNT
        ensures ReadyBy(m, messages, k) == (ReadyBy(m, messages[..last], k) || SaysReady(before, k, messages[last]))
      {
        SameReady(m, before, k, messages[last]);
        OneMoreReady(m, messages, k);
      }
    }
  }

  lemma SameReady(a: Match, b: Match, k: nat, msg: Message)
    requires k < |a.slots| && k < |b.slots| && a.seats == b.seats && a.slots[k].session == b.slots[k].session
    ensures SaysReady(a, k, msg) <==> SaysReady(b, k, msg)
  {
  }

  lemma OneMoreReady(m: Match, messages: seq<Message>, k: nat)
    requires k < |m.slots| && messages != []
    ensures
      var last := |messages| - 1;
      ReadyBy(m, messages, k) <==> ReadyBy(m, messages[..last], k) || SaysReady(m, k, messages[last])
  {
    hide SaysReady;
    var last := |messages| - 1;
    if j :| 0 <= j < |messages| && SaysReady(m, k, messages[j]) {
      assert j < last ==> messages[..last][j] == messages[j];
    }
    if j :| 0 <= j < last && SaysReady(m, k, messages[..last][j]) {
      assert messages[j] == messages[..last][j];
    }
  }

  /** A countdown during which nobody gives up ends at the first loop by which all four have said
      ready, or at its end. The battle then begins if its opening exists and, without four ready
      players, if all four have joined; otherwise the match is cancelled. */
  lemma CountdownEndsIff(m: Match, tick: int, env: Env, messages: seq<Message>)
    requires Good2v2(m, m.serverSeq) && m.stage == Countdown
    requires forall j :: 0 <= j < |messages| ==> !Surrenders(messages[j])
    ensures Shape(m)
    ensures
      var r := Loop(m, tick, env, messages);
      var begins := AllReadyBy(m, messages) || (tick >= m.countdownEnds && AllJoined(m));
      && (r.stage == Countdown <==> !AllReadyBy(m, messages) && tick < m.countdownEnds)
      && (Begun(r.stage) <==> begins && Opening(m).Ok?)
      && (Begun(r.stage) ==>
            && r.deadline == env.now + 120.0
            && r.battle.(status := Playing) == Step(Opening(m).value, m.acc, 0.05).g.(status := Playing))
  {
    hide Good2v2, Received, AllReadyBy, Opening, Advance2v2, Step, GoodInfo, InfoListed;
    GoodShape(m, m.serverSeq);
    CountdownReceived(m, tick, env, messages);
    var received := Received(m.(tick := tick), env, messages);
    var lobby := Lobby(received, env);
    AdvanceStage(lobby, env);
    if lobby.stage == Running {
      assert GoodInfo(m.info) by { GoodHasInfo(m, m.serverSeq); }
      OpeningFacts(m);
      AdvanceSteps(lobby, env);
    }
  }

  lemma GoodHasInfo(m: Match, bound: nat)
    requires Good2v2(m, bound)
    ensures GoodInfo(m.info)
  {
  }

  /** What the lobby sees after the messages of a countdown's loop. */
  lemma CountdownReceived(m: Match, tick: int, env: Env, messages: seq<Message>)
    requires Shape(m) && m.stage == Countdown && forall j :: 0 <= j < |messages| ==> !Surrenders(messages[j])
    ensures
      var r := Received(m.(tick := tick), env, messages);
      && r.stage == Countdown && r.countdownEnds == m.countdownEnds && r.tick == tick && Opening(r) == Opening(m)
      && r.acc == m.acc
      && (AllReady(r) <==> AllReadyBy(m, messages)) && (AllJoined(r) <==> AllJoined(m))
  {
    hide HandleAll, ReadyBy, Opening;
    var now := m.(tick := tick);
    CountdownMessages(now, env, messages);
    forall k | 0 <= k < SLOT_COUNT ensures ReadyBy(now, messages, k) <==> ReadyBy(m, messages, k) {
      TickReady(m, tick, messages, k);
    }
    OpeningSame(m, Received(now, env, messages));
  }

  lemma TickReady(m: Match, tick: int, messages: seq<Message>, k: nat)
    requires k < |m.slots|
    ensures ReadyBy(m.(tick := tick), messages, k) <==> ReadyBy(m, messages, k)
  {
    hide SaysReady;
    forall j | 0 <= j < |messages| ensures SaysReady(m.(tick := tick), k, messages[j]) <==>
      SaysReady(m, k, messages[j]) {
      SameReady(m, m.(tick := tick), k, messages[j]);
    }
  }

  lemma OpeningSame(a: Match, b: Match)
    requires Shape(a) && Shape(b) && a.info == b.info
    requires forall k :: 0 <= k < SLOT_COUNT ==> a.slots[k].career == b.slots[k].career
    ensures Opening(a) == Opening(b)
  {
    hide CreateInitial;
    assert SpeedModifiers(a.slots) == SpeedModifiers(b.slots);
  }

  lemma AdvanceStage(m: Match, env: Env)
    requires Shape(m)
    ensures Advance2v2(m, env).stage == m.stage || Advance2v2(m, env).stage == Finished
    ensures Advance2v2(m, env).deadline == m.deadline
  {
    hide Step, SettleFault, RequestOf;
  }

  lemma FinishKeepsBattle(m: Match, env: Env)
    requires Shape(m)
    ensures Finish(m, env).battle == m.battle
  {
    hide SettleFault, RequestOf;
  }

  lemma AdvanceSteps(m: Match, env: Env)
    requires Shape(m) && m.battle.status == Playing
    ensures Advance2v2(m, env).battle.(status := Playing) == Step(m.battle, m.acc, 0.05).g.(status := Playing)
  {
    hide Step, Finish;
    var stepped := StepBattle(m);
    FinishKeepsBattle(stepped, env);
    FinishKeepsBattle(stepped.(battle := stepped.battle.(status := Draw)), env);
  }

  // ----- Rematch and shutdown

  /** Between two states of a match: the fourth vote creates the rematch exactly when creation goes
      through, fewer votes do not, and after four votes nothing changes. */
  ghost predicate VotesMove(a: Match, b: Match, creates: bool) {
    && (AllVoted(a) ==> AllVoted(b) && b.rematchMade == a.rematchMade)
    && (!AllVoted(a) && !a.rematchMade ==> (b.rematchMade <==> AllVoted(b) && creates))
  }

  lemma VotesOn(a: Match, b: Match, c: Match, creates: bool)
    requires VotesMove(a, b, creates) && VotesMove(b, c, creates)
    ensures VotesMove(a, c, creates)
  {
    hide AllVoted;
  }

  lemma SameVotes(a: Match, b: Match, creates: bool)
    requires a.votes == b.votes && a.rematchMade == b.rematchMade
    ensures AllVoted(a) == AllVoted(b) && VotesMove(a, b, creates)
  {
  }

  lemma VoteMoves(m: Match, env: Env, k: nat)
    requires Shape(m) && k < SLOT_COUNT
    ensures VotesMove(m, HandleRematchVote(m, env, k).0, env.creates)
  {
    var voted := m.votes[k := true];
    assert !m.votes[k] ==> !AllVoted(m);
  }

  lemma SurrenderIsNoVote(m: Match, env: Env, k: nat)
    requires Shape(m) && k < SLOT_COUNT
    ensures
      var r := HandleSurrender(m, env, k).0;
      r.votes == m.votes && r.rematchMade == m.rematchMade
  {
    hide SettleFault, RequestOf, TeamDead;
  }

  lemma DispatchIsNoVote(m: Match, k: nat, sequence: int, source: Id, target: Id, number: nat)
    requires Shape(m) && k < SLOT_COUNT
    ensures
      var r := HandleDispatch(m, k, sequence, source, target, number).0;
      r.votes == m.votes && r.rematchMade == m.rematchMade
  {
    hide Dispatch;
  }

  lemma MessageVotes(m: Match, env: Env, msg: Message, number: nat)
    requires Shape(m)
    ensures VotesMove(m, HandleMessage(m, env, msg, number).0, env.creates)
  {
    hide HandleDispatch, HandleSurrender, HandleRematchVote, VotesMove;
    SameVotes(m, m, env.creates);
    if msg.user in m.seats && msg.payload.Payload? {
      var k, kind := m.seats[msg.user], msg.payload.kind;
      VoteMoves(m, env, k);
      SurrenderIsNoVote(m, env, k);
      SameVotes(m, HandleSurrender(m, env, k).0, env.creates);
      SameVotes(m, HandleReady(m, k).0, env.creates);
      if kind.DispatchKind? {
        DispatchIsNoVote(m, k, kind.sequence, kind.source, kind.target, number);
        SameVotes(m, HandleDispatch(m, k, kind.sequence, kind.source, kind.target, number).0, env.creates);
      }
    }
  }

  lemma {:induction false} MessagesVote(m: Match, env: Env, messages: seq<Message>)
    requires Shape(m)
    ensures VotesMove(m, HandleAll(m, env, messages), env.creates)
  {
    hide HandleMessage, VotesMove;
    if messages == [] {
      SameVotes(m, m, env.creates);
    } else {
      var last := |messages| - 1;
      var before := HandleAll(m, env, messages[..last]);
      MessagesVote(m, env, messages[..last]);
      MessageVotes(before, env, messages[last], m.serverSeq + last + 1);
      VotesOn(m, before, HandleAll(m, env, messages), env.creates);
    }
  }

  lemma GraceVotes(m: Match, env: Env)
    requires Shape(m)
    ensures EnforceGrace(m, env).votes == m.votes && EnforceGrace(m, env).rematchMade == m.rematchMade
  {
    hide SettleFault, RequestOf, TeamDead;
  }

  lemma LobbyVotes(m: Match, env: Env)
    requires Shape(m)
    ensures Lobby(m, env).votes == m.votes && Lobby(m, env).rematchMade == m.rematchMade
  {
    hide Opening, AllJoined, AllReady;
  }

  lemma AdvanceVotes(m: Match, env: Env)
    requires Shape(m)
    ensures Advance2v2(m, env).votes == m.votes && Advance2v2(m, env).rematchMade == m.rematchMade
  {
    hide Step, SettleFault, RequestOf;
  }

  lemma LoopVotes(m: Match, tick: int, env: Env, messages: seq<Message>)
    requires Shape(m)
    ensures VotesMove(m, Loop(m, tick, env, messages), env.creates)
  {
    hide EnforceGrace, HandleAll, Lobby, Advance2v2, VotesMove, SettleFault, RequestOf;
    var now := m.(tick := tick);
    SameVotes(m, now, env.creates);
    SameVotes(m, Finish(now, env), env.creates);
    GraceVotes(now, env);
    var graced := if now.stage == Running then EnforceGrace(now, env) else now;
    SameVotes(m, graced, env.creates);
    MessagesVote(graced, env, messages);
    var received := Received(graced, env, messages);
    SameVotes(HandleAll(graced, env, messages), received, env.creates);
    VotesOn(m, graced, HandleAll(graced, env, messages), env.creates);
    VotesOn(m, HandleAll(graced, env, messages), received, env.creates);
    LobbyVotes(received, env);
    var lobby := Lobby(received, env);
    SameVotes(received, lobby, env.creates);
    VotesOn(m, received, lobby, env.creates);
    AdvanceVotes(lobby, env);
    SameVotes(lobby, Advance2v2(lobby, env), env.creates);
    VotesOn(m, lobby, Advance2v2(lobby, env), env.creates);
  }

  lemma {:induction false} JoinEachVotes(m: Match, presences: seq<Presence>)
    requires Shape(m)
    ensures JoinEach(m, presences).votes == m.votes && JoinEach(m, presences).rematchMade == m.rematchMade
  {
    if presences != [] {
      JoinEachVotes(m, presences[..|presences| - 1]);
    }
  }

  lemma {:induction false} LeaveEachVotes(m: Match, presences: seq<Presence>, now: real)
    requires Shape(m)
    ensures LeaveEach(m, presences, now).votes == m.votes && LeaveEach(m, presences, now).rematchMade == m.rematchMade
  {
    if presences != [] {
      LeaveEachVotes(m, presences[..|presences| - 1], now);
    }
  }

  /** Only loops bring votes. */
  lemma EventVotes(m: Match, e: Event)
    requires Shape(m)
    ensures VotesMove(m, Apply(m, e), e.Loops? && e.env.creates)
    ensures !e.Loops? ==> AllVoted(Apply(m, e)) == AllVoted(m)
  {
    hide JoinEach, LeaveEach, Loop, AllJoined, VotesMove;
    match e
    case Joins(tick, presences) =>
      JoinEachVotes(m, presences);
      SameVotes(m, Apply(m, e), false);
    case Leaves(now, presences) =>
      LeaveEachVotes(m, presences, now);
      SameVotes(m, Apply(m, e), false);
    case Loops(tick, env, messages) => LoopVotes(m, tick, env, messages);
    case Shutdown => SameVotes(m, Apply(m, e), false);
  }

  lemma {:induction false} MadeByFour(info: MatchInfo, slots: seq<Slot>, events: seq<Event>)
    requires |slots| == SLOT_COUNT
    ensures After(info, slots, events).rematchMade ==> AllVoted(After(info, slots, events))
    decreases |events|
  {
    hide Run2v2, Apply, AllVoted;
    if events == [] {
      NothingMade(info, slots);
    } else {
      MadeByFour(info, slots, events[..|events| - 1]);
      LastStep(info, slots, events);
      EventVotes(After(info, slots, events[..|events| - 1]), events[|events| - 1]);
    }
  }

  lemma NothingMade(info: MatchInfo, slots: seq<Slot>)
    requires |slots| == SLOT_COUNT
    ensures !After(info, slots, []).rematchMade
  {
  }

  /** The event that brings the fourth vote is a loop, and whether the creation goes through in it
      decides for the rest of the run whether there is a rematch; before it there is none. */
  lemma FourthVoteCreates(info: MatchInfo, slots: seq<Slot>, events: seq<Event>, k: nat)
    requires Created(info, slots) && InTickOrder2v2(0, events) && k < |events|
    ensures |slots| == SLOT_COUNT
    ensures
      var m, t, r := After(info, slots, events[..k]), After(info, slots, events[..k + 1]), After(info, slots, events);
      && (!AllVoted(m) ==> !m.rematchMade)
      && (!AllVoted(m) && AllVoted(t) ==> events[k].Loops? && (r.rematchMade <==> events[k].env.creates))
  {
    hide Created, Run2v2, Apply, AllVoted, SlotsMove, LogMoves, RecordMoves;
    RunsMoveForward(info, slots, events, k + 1);
    MadeByFour(info, slots, events[..k]);
    LastStep(info, slots, events[..k + 1]);
    assert events[..k + 1][..k] == events[..k];
    EventVotes(After(info, slots, events[..k]), events[k]);
  }

  /** A shutdown of an unfinished match is final: it is never settled, and its record stays. A finished
      match goes on. */
  lemma ShutdownIsFinal(info: MatchInfo, slots: seq<Slot>, events: seq<Event>, k: nat)
    requires Created(info, slots) && InTickOrder2v2(0, events) && k < |events| && events[k].Shutdown?
    ensures |slots| == SLOT_COUNT
    ensures
      var m, r := After(info, slots, events[..k]), After(info, slots, events);
      if m.stage == Finished then r.stage == Finished
      else r.stage == Cancelled && r.ledger == [] && r.rematches == [] && r.log == m.log && r.battle == m.battle
  {
    hide Created, Run2v2, Members, GoodLog, GoodTotals, GoodVerdict, RequestOf, SlotsMove, LogMoves, Apply;
    RunsMoveForward(info, slots, events, k + 1);
    RunsAreGood(info, slots, events);
    var m, t := After(info, slots, events[..k]), After(info, slots, events[..k + 1]);
    LastStep(info, slots, events[..k + 1]);
    assert events[..k + 1][..k] == events[..k];
    ShutdownApplied(m);
  }

  lemma ShutdownApplied(m: Match)
    requires Shape(m)
    ensures Apply(m, Shutdown) == if Over(m.stage) then m else m.(stage := Cancelled)
  {
  }

  // ----- What is settled

  /** The request's participants stand for the four slots of the match, two of each team. */
  ghost predicate FairRequest(m: Match, r: SettleRequest) {
    && r.matchId == m.info.matchId && r.battlefieldId == m.info.battlefieldId && r.log == m.log
    && m.battle.status != Playing && |m.slots| == SLOT_COUNT && FairOutcomes(m, r.participants)
    && (forall k :: 0 <= k < SLOT_COUNT ==> r.participants[k].team == if k < 2 then TeamA else TeamB)
    && forall j, k :: 0 <= j < 2 <= k < SLOT_COUNT ==>
         !(r.participants[j].status == Victory && r.participants[k].status == Victory)
  }

  lemma RequestIsFair(m: Match, bound: nat)
    requires Good2v2(m, bound) && m.stage == Finished
    ensures FairRequest(m, RequestOf(m))
  {
    hide GoodLog, GoodTotals, GoodBooks, FairOutcome, Forfeited, RulesVerdict;
    OutcomesAreFair(m);
    var ps := RequestOf(m).participants;
    assert |m.slots| == SLOT_COUNT;
    forall k | 0 <= k < SLOT_COUNT ensures ps[k].team == m.slots[k].team == if k < 2 then TeamA else TeamB {
      assert SeatedAt(m.slots, k) && FairOutcome(m, k, ps[k]);
      FairTeam(m, k, ps[k]);
    }
    forall j, k | 0 <= j < 2 <= k < SLOT_COUNT ensures !(ps[j].status == Victory && ps[k].status == Victory) {
      assert FairOutcome(m, j, ps[j]) && FairOutcome(m, k, ps[k]);
      OneTeamWins(m, j, k, ps[j], ps[k]);
    }
  }

  lemma FairTeam(m: Match, k: nat, p: Participant)
    requires k < |m.slots| && FairOutcome(m, k, p)
    ensures p.team == m.slots[k].team
  {
  }

  /** Whatever a run settles: the match's final record, a defeat for everyone gone, and for everyone else
      victory or defeat exactly as the battle went for its own team, with its own team's counts. */
  lemma LedgerIsFair(info: MatchInfo, slots: seq<Slot>, events: seq<Event>)
    requires Created(info, slots) && InTickOrder2v2(0, events)
    ensures |slots| == SLOT_COUNT
    ensures
      var m := After(info, slots, events);
      m.info == info && |m.ledger| <= 1 && forall r :: r in m.ledger ==> FairRequest(m, r)
  {
    hide Created, RequestOf, Verdict, SettleFault, Run2v2, NewMatch, FairRequest, Good2v2;
    RunsAreGood(info, slots, events);
    SettlesOnce(info, slots, events);
    SameInfo(info, slots, events);
    var m := After(info, slots, events);
    if m.stage == Finished {
      RequestIsFair(m, m.serverSeq);
    }
  }
}
