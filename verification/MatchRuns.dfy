/** Whole runs of a four-player match, from its creation. */
module MatchRuns {
  import opened Text
  import opened Sorting
  import opened World
  import opened Routes
  import opened BattleRules
  import opened Canonical
  import opened Draft
  import opened MatchSlots
  import opened MatchRules
  import opened MatchLaws

  // ----- The start

  ghost predicate FreshSlot(s: Slot) {
    s.nextSeq == 0 && s.session == None && !s.connected && s.disconnectedAt == None && !Dead(s)
  }

  ghost predicate FreshSlots(slots: seq<Slot>) {
    forall k :: 0 <= k < |slots| ==> FreshSlot(slots[k])
  }

  lemma SeatAllSeats(users: seq<Id>, careers: map<Id, Career>)
    requires |users| == SLOT_COUNT && Participants(users)
    ensures Seating(SeatAll(users, careers)) && FreshSlots(SeatAll(users, careers))
  {
    assert UserIds(SeatAll(users, careers)) == users;
  }

  lemma {:induction false} FindSlotFresh(slots: seq<Slot>, user: Id)
    requires FreshSlots(slots) && FindSlot(slots, user).Some?
    ensures FreshSlot(FindSlot(slots, user).value)
  {
    if slots[|slots| - 1].user != user {
      FindSlotFresh(slots[..|slots| - 1], user);
    }
  }

  /** Whenever a match gets slots, four different players sit in them, and nobody has connected yet. */
  lemma InitSlotsSeat(enabled: bool, allowed: seq<Id>, careers: map<Id, Career>, requested: seq<Id>)
    ensures
      var r := InitSlots(enabled, allowed, careers, requested);
      r.Some? ==> Seating(r.value) && FreshSlots(r.value)
  {
    hide SnakeDraft, Reorder, FreshSlots, Participants;
    if InitSlots(enabled, allowed, careers, requested).Some? {
      var entries := EntriesOf(allowed, careers);
      DraftIff(entries);
      SeatAllSeats(SnakeDraft(entries).value, Chosen(allowed, careers));
      var slots := Drafted(allowed, careers).value;
      if AllNamed(requested, allowed) {
        ReorderExact(slots, requested);
        ReorderedSeats(slots, requested);
      }
    }
  }

  lemma NamedIff(users: seq<Id>, allowed: seq<Id>)
    ensures AllNamed(users, allowed) <==> |users| == SLOT_COUNT && forall u :: u in users ==> u != "" && u in allowed
  {
    assert forall i :: 0 <= i < |users| ==> users[i] in users;
  }

  /** A match gets slots exactly if it is enabled, for four named, different players whose careers are
      known, unless an order is asked for that names players of it, but one of them twice. */
  lemma InitSlotsIff(enabled: bool, allowed: seq<Id>, careers: map<Id, Career>, requested: seq<Id>)
    ensures InitSlots(enabled, allowed, careers, requested).Some? <==>
      && enabled && |allowed| == SLOT_COUNT && Participants(allowed) && (forall u :: u in allowed ==> u in careers)
      && (|requested| == SLOT_COUNT && (forall u :: u in requested ==> u != "" && u in allowed) ==> Simple(requested))
  {
    hide SnakeDraft, Reorder, Participants, Simple;
    DraftIff(EntriesOf(allowed, careers));
    UsersOfEntries(allowed, careers);
    assert (forall u :: u in allowed ==> u in careers) <==> forall i :: 0 <= i < |allowed| ==> allowed[i] in careers;
    NamedIff(requested, allowed);
    if |allowed| == SLOT_COUNT && Participants(allowed) && forall u :: u in allowed ==> u in careers {
      DraftSeats(allowed, careers);
      var slots := Drafted(allowed, careers).value;
      if AllNamed(requested, allowed) {
        ReorderExact(slots, requested);
      }
    }
  }

  lemma ReorderedSeats(slots: seq<Slot>, users: seq<Id>)
    requires FreshSlots(slots) && |users| == SLOT_COUNT && (forall i :: 0 <= i < |users| ==> users[i] != "")
    requires Reorder(slots, users).Ok?
    ensures Seating(Reorder(slots, users).value) && FreshSlots(Reorder(slots, users).value)
  {
    hide Reorder, FindSlot;
    ReorderExact(slots, users);
    var r := Reorder(slots, users).value;
    forall i | 0 <= i < |r| ensures FreshSlot(r[i]) {
      FindSlotFresh(slots, users[i]);
    }
  }

  /** A match as it is created. */
  ghost predicate Created(info: MatchInfo, slots: seq<Slot>) {
    GoodInfo(info) && Seating(slots) && FreshSlots(slots)
  }

  lemma CreatedGood(info: MatchInfo, slots: seq<Slot>)
    requires Created(info, slots)
    ensures Good2v2(NewMatch(info, slots), 0)
  {
    hide Verdict, RequestOf, GoodInfo, Seating;
    assert Seating(slots) ==> |slots| == SLOT_COUNT by { SeatingFour(slots); }
    var m := NewMatch(info, slots);
    assert Members(m);
    assert forall k :: SlotCount([], k) == 0;
  }

  lemma SeatingFour(slots: seq<Slot>)
    ensures Seating(slots) ==> |slots| == SLOT_COUNT
  {
  }

  // ----- Every run keeps the invariant and only moves forward

  ghost function After(info: MatchInfo, slots: seq<Slot>, events: seq<Event>): (m: Match)
    requires |slots| == SLOT_COUNT
    ensures Shape(m)
  {
    Run2v2(NewMatch(info, slots), events)
  }

  lemma ApplyTick(m: Match, e: Event)
    requires Good2v2(m, m.serverSeq)
    ensures Shape(m) && Apply(m, e).tick == if e.Loops? then e.loopTick else m.tick
  {
    hide Good2v2, JoinEach, LeaveEach, LoopLive;
    GoodShape(m, m.serverSeq);
    match e
    case Joins(tick, presences) => JoinCounters(m, tick, presences);
    case Leaves(now, presences) => LeaveCounters(m, presences, now);
    case Loops(tick, env, messages) => LoopTick(m, tick, env, messages);
    case Shutdown =>
  }

  lemma LoopTick(m: Match, tick: int, env: Env, messages: seq<Message>)
    requires Shape(m)
    ensures Loop(m, tick, env, messages).tick == tick
  {
    hide EnforceGrace, Received, Lobby, Advance2v2, SettleFault, RequestOf;
    var now := m.(tick := tick);
    LiveTick(now, env, messages);
  }

  lemma LiveTick(m: Match, env: Env, messages: seq<Message>)
    requires Shape(m)
    ensures LoopLive(m, env, messages).tick == m.tick
  {
    hide EnforceGrace, Received, Lobby, Advance2v2;
    GraceCounters(m, env);
    var graced := if m.stage == Running then EnforceGrace(m, env) else m;
    ReceivedTick(graced, env, messages);
    var received := Received(graced, env, messages);
    LobbyTick(received, env);
    AdvanceTick(Lobby(received, env), env);
  }

  lemma ReceivedTick(m: Match, env: Env, messages: seq<Message>)
    requires Shape(m)
    ensures Received(m, env, messages).tick == m.tick
  {
    hide HandleAll;
    HandleAllTick(m, env, messages);
  }

  lemma {:induction false} HandleAllTick(m: Match, env: Env, messages: seq<Message>)
    requires Shape(m)
    ensures HandleAll(m, env, messages).tick == m.tick
  {
    hide HandleMessage;
    if messages != [] {
      var last := |messages| - 1;
      HandleAllTick(m, env, messages[..last]);
      HandleMessageTick(HandleAll(m, env, messages[..last]), env, messages[last], m.serverSeq + last + 1);
    }
  }

  lemma HandleMessageTick(m: Match, env: Env, msg: Message, number: nat)
    requires Shape(m)
    ensures HandleMessage(m, env, msg, number).0.tick == m.tick
  {
    hide Dispatch, SettleFault, RequestOf, TeamDead, AllVoted;
  }

  lemma LobbyTick(m: Match, env: Env)
    requires Shape(m)
    ensures Lobby(m, env).tick == m.tick
  {
    hide Opening, AllJoined, AllReady;
  }

  lemma AdvanceTick(m: Match, env: Env)
    requires Shape(m)
    ensures Advance2v2(m, env).tick == m.tick
  {
    hide SettleFault, RequestOf, Step;
  }

  /** The tick of the last loop. */
  ghost function LastTick(from: int, events: seq<Event>): int {
    if events == [] then from
    else if events[|events| - 1].Loops? then events[|events| - 1].loopTick
    else LastTick(from, events[..|events| - 1])
  }

  lemma {:induction false} TicksLeft(from: int, events: seq<Event>, k: nat)
    requires InTickOrder2v2(from, events) && k <= |events|
    ensures from <= LastTick(from, events[..k])
    ensures forall i :: k <= i < |events| && events[i].Loops? ==> LastTick(from, events[..k]) <= events[i].loopTick
  {
    if k > 0 {
      assert events[..k][..k - 1] == events[..k - 1];
      TicksLeft(from, events, k - 1);
    }
  }

  lemma {:induction false} RunGood(m: Match, events: seq<Event>)
    requires Good2v2(m, m.serverSeq) && InTickOrder2v2(m.tick, events)
    ensures Shape(m)
    ensures
      var r := Run2v2(m, events);
      Keeps(m, r, r.serverSeq) && r.tick == LastTick(m.tick, events)
  {
    hide Good2v2, Keeps, Apply;
    GoodShape(m, m.serverSeq);
    if events == [] {
      KeepsAlone(m, m.serverSeq);
    } else {
      var front, e := events[..|events| - 1], events[|events| - 1];
      assert InTickOrder2v2(m.tick, front);
      TicksLeft(m.tick, events, |front|);
      RunGood(m, front);
      var before := Run2v2(m, front);
      KeptGood(m, before, before.serverSeq);
      ApplyKeeps(before, e);
      ApplyTick(before, e);
      KeepsOn(m, before, Apply(before, e), before.serverSeq, Apply(before, e).serverSeq);
    }
  }

  lemma {:induction false} RunSplit(m: Match, events: seq<Event>, k: nat)
    requires Shape(m) && k <= |events|
    ensures Run2v2(m, events) == Run2v2(Run2v2(m, events[..k]), events[k..])
    decreases |events|
  {
    hide Apply;
    if k == |events| {
      assert events[..k] == events;
    } else {
      var last := |events| - 1;
      RunSplit(m, events[..last], k);
      assert events[..last][..k] == events[..k] && events[..last][k..] == events[k..last];
      assert events[k..][..last - k] == events[k..last];
    }
  }

  /** Between any two moments of a run: the stage only moves forward, the dead stay dead, the log only
      grows and only by commands of slots that were alive, what is over keeps its record, books only
      grow, and once all four have voted no rematch can be added. */
  lemma RunsMoveForward(info: MatchInfo, slots: seq<Slot>, events: seq<Event>, k: nat)
    requires Created(info, slots) && InTickOrder2v2(0, events) && k <= |events|
    ensures |slots| == SLOT_COUNT
    ensures Moves(After(info, slots, events[..k]), After(info, slots, events))
  {
    hide Good2v2, Keeps, Run2v2, Seating, GoodInfo, FreshSlots, Moves, NewMatch;
    SeatingFour(slots);
    var m := NewMatch(info, slots);
    NewCounters(info, slots);
    CreatedGood(info, slots);
    var before := Run2v2(m, events[..k]);
    RunGood(m, events[..k]);
    KeptGood(m, before, before.serverSeq);
    RunSplit(m, events, k);
    TicksLeft(0, events, k);
    RunGood(before, events[k..]);
    KeptGood(before, Run2v2(before, events[k..]), Run2v2(before, events[k..]).serverSeq);
  }

  lemma NewCounters(info: MatchInfo, slots: seq<Slot>)
    requires |slots| == SLOT_COUNT
    ensures NewMatch(info, slots).serverSeq == 0 && NewMatch(info, slots).tick == 0
  {
  }

  /** The invariant at the end of a run. */
  lemma RunsAreGood(info: MatchInfo, slots: seq<Slot>, events: seq<Event>)
    requires Created(info, slots) && InTickOrder2v2(0, events)
    ensures |slots| == SLOT_COUNT
    ensures Good2v2(After(info, slots, events), After(info, slots, events).serverSeq)
  {
    hide Good2v2, Keeps, Run2v2, Seating, GoodInfo, FreshSlots, NewMatch;
    SeatingFour(slots);
    NewCounters(info, slots);
    CreatedGood(info, slots);
    var m := NewMatch(info, slots);
    RunGood(m, events);
    KeptGood(m, Run2v2(m, events), Run2v2(m, events).serverSeq);
  }

  // ----- What that means

  /** A match settles at most once, never when cancelled, and only with a decided battle and a request
      that the settlement store accepts: the match's final record. */
  lemma SettlesOnce(info: MatchInfo, slots: seq<Slot>, events: seq<Event>)
    requires Created(info, slots) && InTickOrder2v2(0, events)
    ensures |slots| == SLOT_COUNT
    ensures
      var m := After(info, slots, events);
      && |m.ledger| == (if m.settled then 1 else 0) && (m.settled ==> m.stage == Finished)
      && (m.stage == Cancelled ==> m.ledger == [])
      && (m.settled ==> m.ledger == [RequestOf(m)])
      && (m.stage == Finished ==> m.battle.status != Playing && SettleFault(RequestOf(m)) == None)
  {
    hide Created, RequestOf, Verdict, SettleFault, Run2v2, NewMatch;
    RunsAreGood(info, slots, events);
    var m := After(info, slots, events);
    if m.stage == Finished {
      RequestAccepted(m);
    }
  }

  /** The log is already canonical: the canonicalizer returns it unchanged, from any shuffle of it too;
      and each slot's next sequence counts its logged commands. */
  lemma LogIsCanonical(info: MatchInfo, slots: seq<Slot>, events: seq<Event>, shuffled: seq<SlotAction>)
    requires Created(info, slots) && InTickOrder2v2(0, events)
    ensures |slots| == SLOT_COUNT
    ensures
      var m := After(info, slots, events);
      && Canonicalize(m.log, DEFAULT_MAX_ACTIONS) == Ok(m.log)
      && (multiset(shuffled) == multiset(m.log) ==> Canonicalize(shuffled, DEFAULT_MAX_ACTIONS) == Ok(m.log))
      && forall k :: 0 <= k < SLOT_COUNT ==> m.slots[k].nextSeq == SlotCount(m.log, k)
  {
    hide Created, Verdict, Run2v2, Members, GoodTotals, GoodBooks, GoodVerdict, Canonicalize, Faultless, Sorted,
      Acceptable, SlotCount;
    RunsAreGood(info, slots, events);
    var m := After(info, slots, events);
    SortedAcceptable(m.log);
    CanonicalUnchanged(m.log, DEFAULT_MAX_ACTIONS);
    if multiset(shuffled) == multiset(m.log) {
      AnyShuffle(m.log, shuffled, DEFAULT_MAX_ACTIONS);
    }
  }

  /** What the slots of a team sent adds up to what the battle counts for its side. */
  lemma SlotTotalsAddUp(info: MatchInfo, slots: seq<Slot>, events: seq<Event>)
    requires Created(info, slots) && InTickOrder2v2(0, events)
    ensures |slots| == SLOT_COUNT
    ensures
      var m := After(info, slots, events);
      Begun(m.stage) ==>
        m.sent[0] + m.sent[1] == m.battle.stats.playerSent && m.sent[2] + m.sent[3] == m.battle.stats.enemySent
  {
    hide Created, Verdict, Run2v2, Members, GoodLog, GoodBooks, GoodVerdict;
    RunsAreGood(info, slots, events);
  }

  /** At most one rematch is created, with the same players in the same slots, which seats them
      exactly as they sat. */
  lemma RematchOnce(info: MatchInfo, slots: seq<Slot>, events: seq<Event>, careers: map<Id, Career>)
    requires Created(info, slots) && InTickOrder2v2(0, events)
    ensures |slots| == SLOT_COUNT
    ensures
      var m := After(info, slots, events);
      && m.rematches == (if m.rematchMade then [UserIds(m.slots)] else []) && (m.rematchMade ==> m.settled)
      && ((forall u :: u in UserIds(m.slots) ==> u in careers) ==>
            var r := InitSlots(true, UserIds(m.slots), careers, UserIds(m.slots));
            r.Some? && Seating(r.value) && UserIds(r.value) == UserIds(m.slots))
  {
    hide Created, Verdict, Run2v2, GoodLog, GoodTotals, GoodVerdict, RequestOf, InitSlots, Participants;
    RunsAreGood(info, slots, events);
    var m := After(info, slots, events);
    if forall u :: u in UserIds(m.slots) ==> u in careers {
      RematchKeepsSeats(UserIds(m.slots), careers);
    }
  }

  /** When the creation of the rematch fails after the fourth vote, no later event can make one. */
  lemma FailedRematchIsFinal(info: MatchInfo, slots: seq<Slot>, events: seq<Event>, k: nat)
    requires Created(info, slots) && InTickOrder2v2(0, events) && k <= |events|
    ensures |slots| == SLOT_COUNT
    ensures
      var m := After(info, slots, events[..k]);
      AllVoted(m) && !m.rematchMade ==>
        !After(info, slots, events).rematchMade && After(info, slots, events).rematches == []
  {
    hide Created, Run2v2, Members, GoodLog, GoodTotals, GoodVerdict, RequestOf, SlotsMove, LogMoves, RecordMoves;
    RunsMoveForward(info, slots, events, k);
    RunsAreGood(info, slots, events);
  }

  /** After a slot has surrendered or been abandoned, none of its commands is logged any more. */
  lemma DeadSlotsAreSilent(info: MatchInfo, slots: seq<Slot>, events: seq<Event>, k: nat, slot: nat)
    requires Created(info, slots) && InTickOrder2v2(0, events) && k <= |events| && slot < SLOT_COUNT
    ensures |slots| == SLOT_COUNT
    ensures
      var m, r := After(info, slots, events[..k]), After(info, slots, events);
      Dead(m.slots[slot]) ==>
        && Dead(r.slots[slot]) && r.slots[slot].nextSeq == m.slots[slot].nextSeq
        && forall i :: |m.log| <= i < |r.log| ==> r.log[i].slot != slot
  {
    hide Created, Run2v2, Members, GoodTotals, GoodVerdict, GoodBooks, RecordMoves, BooksMove, Dead, Faultless, Sorted,
      SlotCount;
    RunsMoveForward(info, slots, events, k);
    TakeOrder(events, k);
    RunsAreGood(info, slots, events[..k]);
    RunsAreGood(info, slots, events);
    var m, r := After(info, slots, events[..k]), After(info, slots, events);
    if Dead(m.slots[slot]) {
      CountUnchanged(m.log, r.log, slot);
    }
  }

  lemma TakeOrder(events: seq<Event>, k: nat)
    requires InTickOrder2v2(0, events) && k <= |events|
    ensures InTickOrder2v2(0, events[..k])
  {
  }

  lemma {:induction false} CountUnchanged(a: seq<SlotAction>, b: seq<SlotAction>, slot: int)
    requires |a| <= |b| && b[..|a|] == a && forall i :: |a| <= i < |b| ==> b[i].slot != slot
    ensures SlotCount(b, slot) == SlotCount(a, slot)
    decreases |b|
  {
    if |a| == |b| {
      assert b == a;
    } else {
      var front := b[..|b| - 1];
      assert front[..|a|] == a;
      CountUnchanged(a, front, slot);
    }
  }

  // ----- Single calls

  /** A finished match that has not settled does so at the first loop from its retry time on whose
      settlement goes through. */
  lemma RetrySettles(m: Match, tick: int, env: Env, messages: seq<Message>)
    requires Good2v2(m, m.serverSeq) && m.stage == Finished && !m.settled && m.tick <= tick
    ensures Shape(m)
    ensures Loop(m, tick, env, messages).settled <==> tick >= m.retryAt && env.settles
  {
    hide SettleFault, RequestOf, Seating, Faultless, Sorted, SlotCount, Verdict;
    var now := m.(tick := tick);
    RequestAccepted(now);
  }

  /** A refused message changes nothing. */
  lemma RefusalChangesNothing(m: Match, env: Env, msg: Message, number: nat)
    requires Shape(m)
    ensures HandleMessage(m, env, msg, number).1.Rejected? ==> HandleMessage(m, env, msg, number).0 == m
  {
    hide Dispatch, Logged, CheckForfeit, AllVoted;
  }

  lemma {:induction false} SeatsStay(m: Match, presences: seq<Presence>, user: Id)
    requires Shape(m) && user in m.seats
    ensures user in JoinEach(m, presences).seats && JoinEach(m, presences).seats[user] == m.seats[user]
  {
    hide EmptySlotFor;
    if presences != [] {
      SeatsStay(m, presences[..|presences| - 1], user);
    }
  }

  lemma OtherJoins(m: Match, p: Presence, user: Id)
    requires Members(m) && user in m.seats && p.user != user
    ensures user in JoinOne(m, p).seats && JoinOne(m, p).seats[user] == m.seats[user]
    ensures JoinOne(m, p).slots[m.seats[user]] == m.slots[m.seats[user]]
  {
    hide Seating, EmptySlotFor;
  }

  /** Of the sessions of one user that join together, the last one holds the slot. */
  lemma {:induction false} NewestHolds(m: Match, presences: seq<Presence>, i: nat, bound: nat)
    requires Good2v2(m, bound) && i < |presences| && presences[i].user in m.seats
    requires forall j :: i < j < |presences| ==> presences[j].user != presences[i].user
    ensures Shape(m)
    ensures
      var user, r := presences[i].user, JoinEach(m, presences);
      user in r.seats && r.slots[r.seats[user]].session == Some(presences[i].session)
    decreases |presences|
  {
    hide Good2v2, Keeps, Moves, Members, JoinOne;
    GoodShape(m, bound);
    var last := |presences| - 1;
    var front := JoinEach(m, presences[..last]);
    JoinEachKeeps(m, presences[..last], bound);
    KeptGood(m, front, bound);
    SeatsStay(m, presences[..last], presences[i].user);
    if i < last {
      NewestHolds(m, presences[..last], i, bound);
      GoodMembers(front, bound);
      OtherJoins(front, presences[last], presences[i].user);
    } else {
      NewestJoins(front, presences[last]);
    }
  }

  lemma GoodMembers(m: Match, bound: nat)
    requires Good2v2(m, bound)
    ensures Members(m)
  {
    hide GoodLog, GoodTotals, GoodBooks, GoodVerdict, Members;
  }

  lemma NewestJoins(m: Match, p: Presence)
    requires Shape(m) && p.user in m.seats
    ensures
      var r := JoinOne(m, p);
      p.user in r.seats && r.slots[r.seats[p.user]].session == Some(p.session)
  {
  }

  /** Joining evicts: once newer sessions of a user have joined, every message of a session other than
      the last of them is refused and changes nothing. */
  lemma OldSessionIsRefused(m: Match, tick: int, presences: seq<Presence>, i: nat, env: Env, stale: string,
                            payload: Payload, number: nat, bound: nat)
    requires Good2v2(m, bound) && i < |presences| && presences[i].user in m.seats && stale != presences[i].session
    requires forall j :: i < j < |presences| ==> presences[j].user != presences[i].user
    ensures Shape(m)
    ensures
      var r := Join(m, tick, presences);
      HandleMessage(r, env, Message(presences[i].user, stale, payload), number) == (r, Rejected(NotInMatch))
  {
    hide Good2v2, JoinEach, AllJoined;
    GoodShape(m, bound);
    NewestHolds(m, presences, i, bound);
  }

  /** Whoever may join and does, holds a slot afterwards, under the new session and alive. */
  lemma AdmittedIsSeated(m: Match, p: Presence, bound: nat)
    requires Good2v2(m, bound)
    ensures Shape(m)
    ensures JoinAttempt(m, p.user) == None ==>
      var r := JoinOne(m, p);
      && p.user in r.seats && r.slots[r.seats[p.user]].user == p.user
      && r.slots[r.seats[p.user]].session == Some(p.session) && r.slots[r.seats[p.user]].connected
  {
    hide GoodLog, GoodTotals, GoodBooks, GoodVerdict, EmptySlotFor;
  }

  lemma {:induction false} HandledWindow(m: Match, env: Env, messages: seq<Message>)
    requires Shape(m) && !m.settled
    ensures
      var r := HandleAll(m, env, messages);
      r.settled ==> r.rematchEnds == r.tick + REMATCH_TICKS
  {
    hide HandleMessage;
    if messages != [] {
      var last := |messages| - 1;
      HandledWindow(m, env, messages[..last]);
      MessageWindow(HandleAll(m, env, messages[..last]), env, messages[last], m.serverSeq + last + 1);
    }
  }

  lemma MessageWindow(m: Match, env: Env, msg: Message, number: nat)
    requires Shape(m)
    ensures
      var r := HandleMessage(m, env, msg, number).0;
      if m.settled then r.settled && r.rematchEnds == m.rematchEnds && r.tick == m.tick
      else r.settled ==> r.rematchEnds == r.tick + REMATCH_TICKS
  {
    hide Dispatch, SettleFault, RequestOf, TeamDead, AllVoted;
  }

  lemma {:induction false} SettledWindow(m: Match, env: Env, messages: seq<Message>)
    requires Shape(m) && m.settled
    ensures
      var r := HandleAll(m, env, messages);
      r.settled && r.rematchEnds == m.rematchEnds && r.tick == m.tick
  {
    hide HandleMessage;
    if messages != [] {
      var last := |messages| - 1;
      SettledWindow(m, env, messages[..last]);
      MessageWindow(HandleAll(m, env, messages[..last]), env, messages[last], m.serverSeq + last + 1);
    }
  }

  /** The handler is dropped by the first loop after a cancellation, and else exactly when the rematch
      window of a settled match has closed. */
  lemma OpenUntilTheWindowCloses(m: Match, tick: int, env: Env, messages: seq<Message>)
    requires Good2v2(m, m.serverSeq) && m.tick <= tick
    ensures Shape(m)
    ensures StaysOpen(m, tick, env, messages) <==> m.stage != Cancelled && !(m.settled && tick >= m.rematchEnds)
  {
    hide GoodLog, GoodTotals, GoodVerdict, Seating, RequestOf, EnforceGrace, HandleAll, Moves;
    var now := m.(tick := tick);
    if m.stage == Finished && m.settled {
      SettledWindow(now, env, messages);
      CountersChange(m, tick, m.serverSeq, m.serverSeq);
      KeptGood(m, now, m.serverSeq);
      HandleAllKeeps(now, env, messages);
      StillFinished(now, env, messages);
    } else if m.stage != Cancelled && m.stage != Finished {
      LiveWindow(now, env, messages);
    }
  }

  lemma StillFinished(m: Match, env: Env, messages: seq<Message>)
    requires Good2v2(m, m.serverSeq) && m.stage == Finished
    ensures Shape(m) && HandleAll(m, env, messages).stage == Finished
  {
    hide Good2v2, HandleAll, SlotsMove, LogMoves, RecordMoves, BooksMove;
    GoodShape(m, m.serverSeq);
    HandleAllKeeps(m, env, messages);
  }

  lemma LiveWindow(m: Match, env: Env, messages: seq<Message>)
    requires Shape(m) && !m.settled
    ensures LiveStaysOpen(m, env, messages)
  {
    hide EnforceGrace, HandleAll;
    var graced := if m.stage == Running then EnforceGrace(m, env) else m;
    if m.stage == Running {
      GraceUnsettled(m, env);
    }
    if m.stage != Running || graced.stage == Running {
      HandledWindow(graced, env, messages);
    }
  }

  lemma GraceUnsettled(m: Match, env: Env)
    requires Shape(m) && !m.settled && m.stage == Running
    ensures EnforceGrace(m, env).stage == Running ==> !EnforceGrace(m, env).settled
  {
    hide SettleFault, RequestOf, TeamDead;
  }
}
