/** The match handler: an object whose callbacks write its fields in place, proved to follow
    MatchRules. */
module LiveMatch {
  import opened Text
  import opened World
  import opened BattleRules
  import opened Roles
  import opened Canonical
  import opened Simulation2v2
  import opened MatchSlots
  import opened MatchRules
  import opened MatchLaws
  import opened MatchRuns
  import opened MatchOrders
  import opened MatchOutcomes

  class LiveMatch {
    const info: MatchInfo
    var slots: seq<Slot>
    var presenceByUser: map<Id, nat>
    var battle: GameState
    var accumulators: Accumulators
    var actionLog: seq<SlotAction>
    var serverSeq: nat
    var tick: int
    var stage: Stage
    var countdownEnds: int
    const waitingEnds: int
    var deadline: real
    var sentBySlot: seq<int>
    var rematchVotes: seq<bool>
    var rematchEnds: int
    var rematchMade: bool
    var settled: bool
    var settlementRetryAt: int
    ghost var ledger: seq<SettleRequest>
    ghost var rematches: seq<seq<Id>>

    ghost function View(): Match
      reads this
    {
      Match(info, slots, presenceByUser, battle, accumulators, actionLog, serverSeq, tick, stage, countdownEnds,
        waitingEnds,
            deadline, sentBySlot, rematchVotes, rematchEnds, rematchMade, settled, settlementRetryAt, ledger, rematches)
    }

    /** What every callback keeps. */
    ghost predicate Valid()
      reads this
    {
      Good2v2(View(), serverSeq)
    }

    constructor (info: MatchInfo, slots: seq<Slot>)
      requires |slots| == SLOT_COUNT
      ensures View() == NewMatch(info, slots)
      ensures Created(info, slots) ==> Valid()
    {
      hide Good2v2;
      this.info, this.slots, presenceByUser, battle, accumulators := info, slots, map[], IDLE, map[];
      actionLog, serverSeq, tick, stage, countdownEnds, waitingEnds := [], 0, 0, Waiting, 0, WAITING_TICKS;
      deadline, sentBySlot, rematchVotes := 0.0, [0, 0, 0, 0], [false, false, false, false];
      rematchEnds, rematchMade, settled, settlementRetryAt := 0, false, false, 0;
      ledger, rematches := [], [];
      new;
      if Created(info, slots) {
        CreatedGood(info, slots);
      }
    }

    // ----- Joining and leaving

    method EmptySlot(user: Id) returns (found: Option<nat>)
      ensures found == EmptySlotFor(slots, user)
    {
      for k := 0 to |slots|
        invariant EmptySlotFrom(slots, user, k) == EmptySlotFrom(slots, user, 0)
      {
        if slots[k].user == user && slots[k].session == None {
          return Some(k);
        }
      }
      return None;
    }

    method MatchJoinAttempt(user: Id) returns (refusal: Option<Refusal>)
      requires Shape(View())
      ensures refusal == JoinAttempt(View(), user)
    {
      if stage == Finished || stage == Cancelled {
        return Some(MatchOver);
      }
      if user in presenceByUser {
        var slot := slots[presenceByUser[user]];
        if slot.surrendered || slot.abandoned {
          return Some(NotReconnectable);
        }
        return None;
      }
      if |info.allowed| > 0 {
        var allowed := false;
        for i := 0 to |info.allowed|
          invariant allowed <==> user in info.allowed[..i]
        {
          allowed := allowed || info.allowed[i] == user;
        }
        if !allowed {
          return Some(NotAuthorized);
        }
      }
      var free := EmptySlot(user);
      if free == None {
        return Some(MatchFull);
      }
      return None;
    }

    method AdoptPresence(k: nat, session: string)
      requires Shape(View()) && k < SLOT_COUNT
      modifies this`slots
      ensures View() == WithSlot(old(View()), k, Adopted(old(slots)[k], session))
    {
      slots := slots[k := slots[k].(session := Some(session), connected := true, disconnectedAt := None)];
    }

    method JoinPresence(p: Presence)
      requires Shape(View())
      modifies this`slots, this`presenceByUser
      ensures View() == JoinOne(old(View()), p)
    {
      if p.user in presenceByUser {
        AdoptPresence(presenceByUser[p.user], p.session);
        return;
      }
      var free := EmptySlot(p.user);
      if free.Some? {
        AdoptPresence(free.value, p.session);
        presenceByUser := presenceByUser[p.user := free.value];
      }
    }

    method AllSlotsJoined() returns (all: bool)
      ensures all == AllJoined(View())
    {
      for k := 0 to |slots|
        invariant forall i :: 0 <= i < k ==> slots[i].session.Some?
      {
        if slots[k].session == None {
          return false;
        }
      }
      return true;
    }

    method JoinPresences(presences: seq<Presence>)
      requires Shape(View())
      modifies this`slots, this`presenceByUser
      ensures View() == JoinEach(old(View()), presences)
    {
      hide JoinOne;
      for i := 0 to |presences|
        invariant Shape(View()) && View() == JoinEach(old(View()), presences[..i])
      {
        assert presences[..i + 1][..i] == presences[..i];
        JoinPresence(presences[i]);
      }
      assert presences[..|presences|] == presences;
    }

    method MatchJoin(at: int, presences: seq<Presence>)
      requires Shape(View())
      modifies this`slots, this`presenceByUser, this`stage, this`countdownEnds
      ensures View() == Join(old(View()), at, presences)
      ensures old(Valid()) ==> Valid() && Moves(old(View()), View())
    {
      hide JoinEach, AllJoined, Good2v2, Moves;
      CallbackKeeps(View(), Joins(at, presences));
      JoinPresences(presences);
      var all := AllSlotsJoined();
      if stage == Waiting && all {
        stage := Countdown;
        countdownEnds := at + COUNTDOWN_TICKS;
      }
    }

    method LeavePresence(p: Presence, now: real)
      requires Shape(View())
      modifies this`slots
      ensures View() == LeaveOne(old(View()), p, now)
    {
      if p.user !in presenceByUser {
        return;
      }
      var k := presenceByUser[p.user];
      if slots[k].session != Some(p.session) {
        return;
      }
      slots := slots[k := slots[k].(session := None, connected := false, disconnectedAt := Some(now))];
    }

    method MatchLeave(presences: seq<Presence>, now: real)
      requires Shape(View())
      modifies this`slots
      ensures View() == Leave(old(View()), presences, now)
      ensures old(Valid()) ==> Valid() && Moves(old(View()), View())
    {
      hide LeaveOne, Good2v2, Moves;
      CallbackKeeps(View(), Leaves(now, presences));
      if stage == Finished || stage == Cancelled {
        return;
      }
      for i := 0 to |presences|
        invariant Shape(View()) && View() == LeaveEach(old(View()), presences[..i], now)
      {
        assert presences[..i + 1][..i] == presences[..i];
        LeavePresence(presences[i], now);
      }
      assert presences[..|presences|] == presences;
    }

    // ----- Settlement and forfeit

    method ParticipantOutcomes() returns (outcomes: seq<Participant>)
      requires Shape(View())
      ensures outcomes == Outcomes(View())
      ensures FairOutcomes(View(), outcomes)
    {
      hide FairOutcomes;
      outcomes := [];
      for k := 0 to |slots|
        invariant |outcomes| == k && forall i :: 0 <= i < k ==> outcomes[i] == OutcomeOf(View(), i)
      {
        var s := slots[k];
        var status := StatusForRole(battle.status, SideForTeam(s.team));
        var gone := s.abandoned || s.surrendered;
        if gone {
          status := Defeat;
        }
        outcomes := outcomes + [Participant(k, s.user, s.team, status, StatsForRole(battle.stats, SideForTeam(s.team)),
          gone)];
      }
      OutcomesAreFair(View());
    }

    /** Calls the settlement store, which first checks the request. */
    method Settle(env: Env) returns (ok: bool)
      requires Shape(View())
      modifies this`ledger
      ensures ok <==> SettleFault(RequestOf(old(View()))) == None && env.settles
      ensures ledger == old(ledger) + (if ok then [RequestOf(old(View()))] else [])
    {
      hide SettleFault, Outcomes, OutcomeOf;
      var outcomes := ParticipantOutcomes();
      var request := SettleRequest(info.matchId, info.battlefieldId, actionLog, outcomes);
      var fault := ValidateSettle2v2Request(request);
      ok := fault == None && env.settles;
      if ok {
        ledger := ledger + [request];
      }
    }

    method FinishMatch(env: Env)
      requires Shape(View())
      modifies this`stage, this`settled, this`settlementRetryAt, this`rematchEnds, this`ledger
      ensures View() == Finish(old(View()), env)
    {
      hide SettleFault, RequestOf;
      if settled {
        return;
      }
      FinishedRecord(View());
      if stage != Finished {
        stage := Finished;
      }
      SettleOrRetry(env);
    }

    method SettleOrRetry(env: Env)
      requires Shape(View())
      modifies this`settled, this`settlementRetryAt, this`rematchEnds, this`ledger
      ensures
        var m, request := old(View()), RequestOf(old(View()));
        View() == if SettleFault(request) == None && env.settles
          then m.(settled := true, rematchEnds := m.tick + REMATCH_TICKS, ledger := m.ledger + [request])
          else m.(retryAt := m.tick + SETTLE_RETRY_TICKS)
    {
      hide SettleFault, RequestOf;
      var ok := Settle(env);
      if !ok {
        settlementRetryAt := tick + SETTLE_RETRY_TICKS;
        return;
      }
      settled := true;
      rematchEnds := tick + REMATCH_TICKS;
    }

    method CancelMatch()
      modifies this`stage
      ensures View() == Cancel(old(View()))
    {
      stage := Cancelled;
    }

    method TeamGone(team: TeamId) returns (gone: bool)
      ensures gone == TeamDead(slots, team)
    {
      gone := true;
      for k := 0 to |slots|
        invariant gone <==> forall i :: 0 <= i < k && TeamForSlot(i) == team ==> Dead(slots[i])
      {
        if TeamForSlot(k) == team && !slots[k].abandoned && !slots[k].surrendered {
          gone := false;
        }
      }
    }

    method CheckTeamForfeit(env: Env)
      requires Shape(View())
      modifies this`battle, this`stage, this`settled, this`settlementRetryAt, this`rematchEnds, this`ledger
      ensures View() == CheckForfeit(old(View()), env)
    {
      hide Finish, TeamDead;
      var teams := [TeamA, TeamB];
      for i := 0 to 2
        invariant View() == old(View())
        invariant i > 0 ==> !(TeamDead(slots, TeamA) && battle.status == Playing)
        invariant i > 1 ==> !(TeamDead(slots, TeamB) && battle.status == Playing)
      {
        var gone := TeamGone(teams[i]);
        if gone && battle.status == Playing {
          battle := battle.(status := if teams[i] == TeamA then Defeat else Victory);
          FinishMatch(env);
          return;
        }
      }
    }

    method EnforceReconnectGrace(env: Env)
      requires Shape(View())
      modifies this`slots, this`battle, this`stage, this`settled, this`settlementRetryAt, this`rematchEnds, this`ledger
      ensures View() == EnforceGrace(old(View()), env)
    {
      hide CheckForfeit;
      ghost var before := slots;
      for k := 0 to |slots|
        invariant |slots| == |before|
        invariant View() == old(View()).(slots := slots)
        invariant forall i :: 0 <= i < k ==> slots[i] == Expired(before[i], env.now)
        invariant forall i :: k <= i < |slots| ==> slots[i] == before[i]
      {
        var s := slots[k];
        if !s.connected && !s.abandoned && !s.surrendered && s.disconnectedAt.Some? {
          if env.now - s.disconnectedAt.value > GRACE_SECONDS {
            slots := slots[k := s.(abandoned := true)];
          }
        }
      }
      assert slots == ExpireAll(before, env.now);
      CheckTeamForfeit(env);
    }

    // ----- Messages

    method HandleDispatchMessage(k: nat, sequence: int, source: Id, target: Id, number: nat) returns (reply: Reply)
      requires Shape(View()) && k < SLOT_COUNT
      modifies this`slots, this`battle, this`actionLog, this`sentBySlot
      ensures (View(), reply) == HandleDispatch(old(View()), k, sequence, source, target, number)
      ensures old(Lawful(View()) && slots[k].session.Some?) ==>
        if old(Accepts(View(), k, sequence, source, target))
        then reply == Accepted(sequence, k) && Recorded(old(View()), View(), k, sequence, source, target, number)
        else reply.Rejected? && View() == old(View())
    {
      hide BattleRules.Dispatch, Logged, Lawful, Accepts, Recorded;
      if Lawful(View()) {
        DispatchAcceptedIff(View(), k, sequence, source, target, number);
      }
      var s := slots[k];
      if stage != Running {
        return Rejected(NotStarted);
      }
      if s.abandoned || s.surrendered || !s.connected {
        return Rejected(SlotDisconnected);
      }
      if s.nextSeq != sequence {
        return Rejected(InvalidSequence);
      }
      if |actionLog| >= DEFAULT_MAX_ACTIONS {
        return Rejected(LogFull);
      }
      if source !in battle.territories {
        return Rejected(BadSource);
      }
      if target !in battle.territories {
        return Rejected(BadTarget);
      }
      DispatchKeepsTowers(battle, source, target, SideForSlot(k), s.career.modifiers.speed);
      var dispatched := BattleRules.Dispatch(battle, source, target, SideForSlot(k), s.career.modifiers.speed);
      if dispatched.Err? {
        return Rejected(CodeOf(dispatched.error));
      }
      LogDispatch(k, sequence, source, target, number, dispatched.value);
      return Accepted(sequence, k);
    }

    method LogDispatch(k: nat, sequence: int, source: Id, target: Id, number: nat, after: GameState)
      requires Shape(View()) && k < SLOT_COUNT && source in battle.territories && source in after.territories
      modifies this`slots, this`battle, this`actionLog, this`sentBySlot
      ensures View() == Logged(old(View()), k, sequence, source, target, number, after)
    {
      var unitsBefore := battle.territories[source].units;
      battle := after;
      var unitsAfter := battle.territories[source].units;
      slots := slots[k := slots[k].(nextSeq := slots[k].nextSeq + 1)];
      actionLog := actionLog + [SlotAction(SCHEMA_VERSION, tick, number, k, sequence, source, target)];
      sentBySlot := sentBySlot[k := sentBySlot[k] + (unitsBefore - unitsAfter)];
    }

    method HandleReadyMessage(k: nat) returns (reply: Reply)
      requires Shape(View()) && k < SLOT_COUNT
      modifies this`slots
      ensures (View(), reply) == HandleReady(old(View()), k)
    {
      if stage != Waiting && stage != Countdown {
        return Rejected(UnknownMessage);
      }
      slots := slots[k := slots[k].(ready := true)];
      return Silent;
    }

    method HandleSurrenderMessage(env: Env, k: nat) returns (reply: Reply)
      requires Shape(View()) && k < SLOT_COUNT
      modifies this`slots, this`battle, this`stage, this`settled, this`settlementRetryAt, this`rematchEnds, this`ledger
      ensures (View(), reply) == HandleSurrender(old(View()), env, k)
    {
      hide CheckForfeit;
      match stage {
        case Waiting =>
          CancelMatch();
        case Countdown =>
          CancelMatch();
        case Running =>
          if !slots[k].connected {
            return Rejected(SlotDisconnected);
          }
          slots := slots[k := slots[k].(surrendered := true, connected := false, session := None)];
          CheckTeamForfeit(env);
        case _ =>
          return Rejected(UnknownMessage);
      }
      return Silent;
    }

    method HandleVote(env: Env, k: nat) returns (reply: Reply)
      requires Shape(View()) && k < SLOT_COUNT
      modifies this`rematchVotes, this`rematchMade, this`rematches
      ensures (View(), reply) == HandleRematchVote(old(View()), env, k)
    {
      if stage != Finished || !settled || rematchMade {
        return Rejected(BadPayload);
      }
      if tick >= rematchEnds {
        return Rejected(BadPayload);
      }
      if !slots[k].connected {
        return Rejected(SlotDisconnected);
      }
      if rematchVotes[k] {
        return Rejected(BadPayload);
      }
      rematchVotes := rematchVotes[k := true];
      for i := 0 to |rematchVotes|
        invariant forall j :: 0 <= j < i ==> rematchVotes[j]
      {
        if !rematchVotes[i] {
          return Silent;
        }
      }
      if env.creates {
        rematches := rematches + [UserIds(slots)];
        rematchMade := true;
      }
      return Silent;
    }

    method HandleClientMessage(env: Env, msg: Message, number: nat) returns (reply: Reply)
      requires Shape(View())
      modifies this
      ensures (View(), reply) == HandleMessage(old(View()), env, msg, number)
    {
      hide HandleDispatch, HandleReady, HandleSurrender, HandleRematchVote;
      if msg.user !in presenceByUser {
        return Rejected(NotInMatch);
      }
      var k := presenceByUser[msg.user];
      if slots[k].session != Some(msg.session) {
        return Rejected(NotInMatch);
      }
      if msg.payload.Malformed? || msg.payload.schema != SCHEMA_VERSION {
        return Rejected(BadPayload);
      }
      match msg.payload.kind {
        case DispatchKind(sequence, source, target) =>
          reply := HandleDispatchMessage(k, sequence, source, target, number);
        case ReadyKind =>
          reply := HandleReadyMessage(k);
        case SurrenderKind =>
          reply := HandleSurrenderMessage(env, k);
        case RematchKind =>
          reply := HandleVote(env, k);
        case OtherKind =>
          reply := Rejected(UnknownMessage);
      }
    }

    method DrainMessages(env: Env, messages: seq<Message>)
      requires Shape(View())
      modifies this
      ensures View() == Received(old(View()), env, messages)
    {
      hide HandleMessage;
      ghost var start := View();
      for i := 0 to |messages|
        invariant Shape(View()) && View() == HandleAll(start, env, messages[..i]) && serverSeq == start.serverSeq
      {
        assert messages[..i + 1][..i] == messages[..i];
        HandleMessageSeq(View(), env, messages[i], serverSeq + i + 1);
        var reply := HandleClientMessage(env, messages[i], serverSeq + i + 1);
      }
      assert messages[..|messages|] == messages;
      serverSeq := serverSeq + |messages|;
    }

    // ----- The loop

    method CreateInitialState() returns (r: Result<GameState, InitError>)
      requires Shape(View())
      ensures r == Opening(View())
    {
      hide CreateInitial;
      if info.arena == None {
        return Err(SpawnNotFound);
      }
      var modifiers: map<int, Modifiers> := map[];
      for k := 0 to |slots|
        invariant modifiers == map i | 0 <= i < k :: slots[i].career.modifiers
      {
        modifiers := modifiers[k := slots[k].career.modifiers];
      }
      r := CreateInitial2v2(info.arena.value, SPAWNS, modifiers, BATTLE_SECONDS);
    }

    method BeginMatch(env: Env)
      requires Shape(View())
      modifies this`battle, this`stage, this`deadline
      ensures View() == StartMatch(old(View()), env)
    {
      hide Opening;
      var initial := CreateInitialState();
      if initial.Err? {
        CancelMatch();
        return;
      }
      battle := initial.value;
      stage := Running;
      deadline := env.now + MATCH_SECONDS;
    }

    method AllSlotsReady() returns (all: bool)
      ensures all == AllReady(View())
    {
      for k := 0 to |slots|
        invariant forall i :: 0 <= i < k ==> slots[i].ready
      {
        if !slots[k].ready {
          return false;
        }
      }
      return true;
    }

    method RunLobby(env: Env)
      requires Shape(View())
      modifies this`battle, this`stage, this`deadline, this`countdownEnds
      ensures View() == Lobby(old(View()), env)
    {
      hide StartMatch, AllJoined, AllReady;
      var joined := AllSlotsJoined();
      var ready := AllSlotsReady();
      match stage {
        case Waiting =>
          if joined {
            stage := Countdown;
            countdownEnds := tick + COUNTDOWN_TICKS;
          } else if tick >= waitingEnds {
            CancelMatch();
          }
        case Countdown =>
          if ready {
            BeginMatch(env);
          } else if tick >= countdownEnds {
            if joined {
              BeginMatch(env);
            } else {
              CancelMatch();
            }
          }
        case _ =>
      }
    }

    method RunBattle(env: Env)
      requires Shape(View())
      modifies this`battle, this`accumulators, this`stage, this`settled, this`settlementRetryAt, this`rematchEnds,
        this`ledger
      ensures View() == Advance2v2(old(View()), env)
    {
      hide Step, Finish;
      if battle.status == Playing {
        var p := Step(battle, accumulators, STEP_SECONDS);
        battle, accumulators := p.g, p.acc;
      }
      if battle.status != Playing {
        FinishMatch(env);
        return;
      }
      if env.now > deadline {
        battle := battle.(status := Draw);
        FinishMatch(env);
      }
    }

    method LoopOn(env: Env, messages: seq<Message>) returns (open: bool)
      requires Shape(View())
      modifies this
      ensures View() == LoopLive(old(View()), env, messages)
      ensures open == LiveStaysOpen(old(View()), env, messages)
    {
      hide EnforceGrace, Received, Lobby, Advance2v2;
      if stage == Running {
        EnforceReconnectGrace(env);
        if stage != Running {
          return true;
        }
      }
      DrainMessages(env, messages);
      if stage == Finished {
        return !(settled && tick >= rematchEnds);
      }
      RunLobby(env);
      if stage == Running {
        RunBattle(env);
      }
      return true;
    }

    /** Says whether the handler lives on. */
    method MatchLoop(at: int, env: Env, messages: seq<Message>) returns (open: bool)
      requires Shape(View())
      modifies this
      ensures View() == Loop(old(View()), at, env, messages)
      ensures open == StaysOpen(old(View()), at, env, messages)
      ensures old(Valid() && tick <= at) ==> Valid() && Moves(old(View()), View())
    {
      hide LoopLive, LiveStaysOpen, Finish, Good2v2, Moves;
      CallbackKeeps(View(), Loops(at, env, messages));
      tick := at;
      if stage == Cancelled {
        return false;
      }
      if stage == Finished && !settled {
        if at >= settlementRetryAt {
          FinishMatch(env);
        }
        return true;
      }
      open := LoopOn(env, messages);
    }

    method MatchTerminate()
      requires Shape(View())
      modifies this`stage
      ensures View() == Terminate(old(View()))
      ensures old(Valid()) ==> Valid() && Moves(old(View()), View())
    {
      hide Good2v2, Moves;
      CallbackKeeps(View(), Shutdown);
      if stage == Running || stage == Countdown || stage == Waiting {
        CancelMatch();
      }
    }
  }

  /** Entering the final stage does not change the request. */
  lemma FinishedRecord(m: Match)
    ensures RequestOf(m.(stage := Finished)) == RequestOf(m)
  {
    hide Outcomes;
    SameRecord(m, m.(stage := Finished));
  }

  /** A callback keeps the invariant, and the match only moves forward. */
  lemma CallbackKeeps(m: Match, e: Event)
    requires Shape(m)
    ensures
      var r := Apply(m, e);
      Good2v2(m, m.serverSeq) && (e.Loops? ==> m.tick <= e.loopTick) ==> Good2v2(r, r.serverSeq) && Moves(m, r)
  {
    hide Good2v2, Moves, Apply;
    if Good2v2(m, m.serverSeq) && (e.Loops? ==> m.tick <= e.loopTick) {
      ApplyKeeps(m, e);
      KeptGood(m, Apply(m, e), Apply(m, e).serverSeq);
    }
  }

  /** Handling a message does not touch the server sequence. */
  lemma HandleMessageSeq(m: Match, env: Env, msg: Message, number: nat)
    requires Shape(m)
    ensures HandleMessage(m, env, msg, number).0.serverSeq == m.serverSeq
  {
    hide BattleRules.Dispatch, SettleFault, RequestOf, TeamDead, AllVoted;
  }

  method ValidateSettle2v2Request(r: SettleRequest) returns (fault: Option<SettleError>)
    ensures fault == SettleFault(r)
  {
    if r.matchId == "" || |r.matchId| > 128 {
      return Some(InvalidMatchId);
    }
    if r.battlefieldId == "" {
      return Some(InvalidBattlefieldId);
    }
    fault := ValidateParticipants(r.participants);
  }

  method ValidateParticipants(ps: seq<Participant>) returns (fault: Option<SettleError>)
    ensures fault == match FirstParticipantFault(ps, 0)
                     case Some(e) => Some(e)
                     case None => if |ps| != SLOT_COUNT then Some(InvalidParticipantSet) else None
  {
    hide SameParty, SameSlot;
    var seenUsers: set<Id>, seenSlots: set<int> := {}, {};
    NothingSeen();
    assert ps[..0] == [];
    for i := 0 to |ps|
      invariant FirstParticipantFault(ps, i) == FirstParticipantFault(ps, 0)
      invariant forall p: Participant :: p.user in seenUsers <==> SameParty(ps[..i], p)
      invariant forall p: Participant :: p.slot in seenSlots <==> SameSlot(ps[..i], p)
      invariant |seenSlots| == i
    {
      var p := ps[i];
      PartyNext(ps, i);
      SlotNext(ps, i);
      if p.user == "" || p.user in seenUsers {
        return Some(InvalidParticipantSet);
      }
      if p.slot < 0 || p.slot >= SLOT_COUNT || p.slot in seenSlots {
        return Some(InvalidParticipantSet);
      }
      if p.team != TeamForSlot(p.slot) {
        return Some(InvalidParticipantSet);
      }
      if p.status == Playing {
        return Some(InvalidStatus);
      }
      seenUsers, seenSlots := seenUsers + {p.user}, seenSlots + {p.slot};
    }
    if |seenSlots| != SLOT_COUNT {
      return Some(InvalidParticipantSet);
    }
    return None;
  }

  lemma NothingSeen()
    ensures forall p: Participant :: !SameParty([], p) && !SameSlot([], p)
  {
  }

  lemma PartyNext(ps: seq<Participant>, i: nat)
    requires i < |ps|
    ensures forall p: Participant :: SameParty(ps[..i + 1], p) <==> SameParty(ps[..i], p) || ps[i].user == p.user
  {
    var front, all := ps[..i], ps[..i + 1];
    forall p: Participant ensures SameParty(all, p) <==> SameParty(front, p) || ps[i].user == p.user {
      assert all[i] == ps[i] && forall k :: 0 <= k < i ==> front[k] == all[k];
    }
  }

  lemma SlotNext(ps: seq<Participant>, i: nat)
    requires i < |ps|
    ensures forall p: Participant :: SameSlot(ps[..i + 1], p) <==> SameSlot(ps[..i], p) || ps[i].slot == p.slot
  {
    var front, all := ps[..i], ps[..i + 1];
    forall p: Participant ensures SameSlot(all, p) <==> SameSlot(front, p) || ps[i].slot == p.slot {
      assert all[i] == ps[i] && forall k :: 0 <= k < i ==> front[k] == all[k];
    }
  }
}
