/** The four-player match as a state machine: joins, leaves, loops with messages, and shutdown, as
    functions of the state before them. Presence, session and settlement only; broadcasts are not
    part of this model. */
module MatchRules {
  import opened Text
  import opened World
  import opened DispatchRoute
  import opened BattleRules
  import opened Roles
  import opened Canonical
  import opened Simulation2v2
  import opened MatchSlots

  const TICK_RATE := 20
  const STEP_SECONDS := 0.05
  const COUNTDOWN_TICKS := 200
  const WAITING_TICKS := 600
  const REMATCH_TICKS := 200
  const SETTLE_RETRY_TICKS := 20
  const GRACE_SECONDS := 30.0
  const MATCH_SECONDS := 120.0
  const BATTLE_SECONDS := 90.0

  datatype Stage = Waiting | Countdown | Running | Finished | Cancelled

  /** What a match is created with. `arena` is absent when the battlefield is not registered. */
  datatype MatchInfo = MatchInfo(matchId: string, battlefieldId: string, arena: Option<Arena>, allowed: seq<Id>)

  datatype Participant = Participant(slot: int, user: Id, team: TeamId, status: Status, stats: Stats, abandoned: bool)

  datatype SettleRequest = SettleRequest(
    matchId: string, battlefieldId: string, log: seq<SlotAction>, participants: seq<Participant>)

  /** `ledger` holds the requests the settlement store has committed, `rematches` the slot orders of
      the matches created from this one. */
  datatype Match = Match(
    info: MatchInfo, slots: seq<Slot>, seats: map<Id, nat>, battle: GameState, acc: Accumulators,
    log: seq<SlotAction>, serverSeq: nat, tick: int, stage: Stage, countdownEnds: int, waitingEnds: int,
    deadline: real, sent: seq<int>, votes: seq<bool>, rematchEnds: int, rematchMade: bool, settled: bool, retryAt: int,
    ledger: seq<SettleRequest>, rematches: seq<seq<Id>>)

  /** Four slots, votes and counters, and seats that point at slots. */
  predicate Shape(m: Match) {
    |m.slots| == SLOT_COUNT && |m.votes| == SLOT_COUNT && |m.sent| == SLOT_COUNT && forall u :: u in m.seats ==>
      m.seats[u] < SLOT_COUNT
  }

  const IDLE := GameState(
    Board([], [], (a: Id, b: Id) => 0.0), map[], [], Playing, 0.0, BATTLE_SECONDS, NO_STATS, 2, map[], map[], false,
      false)

  function NewMatch(info: MatchInfo, slots: seq<Slot>): (m: Match)
    requires |slots| == SLOT_COUNT
    ensures Shape(m)
  {
    Match(info, slots, map[], IDLE, map[], [], 0, 0, Waiting, 0, WAITING_TICKS, 0.0, [0, 0, 0, 0],
          [false, false, false, false], 0, false, false, 0, [], [])
  }

  /** What the outside contributes to one loop: the time, and whether a settlement or the creation
      of a rematch would go through. */
  datatype Env = Env(now: real, settles: bool, creates: bool)

  // ----- Joining and leaving

  datatype Presence = Presence(user: Id, session: string)

  datatype Refusal = MatchOver | NotReconnectable | NotAuthorized | MatchFull

  function EmptySlotFrom(slots: seq<Slot>, user: Id, k: nat): Option<nat>
    requires k <= |slots|
    decreases |slots| - k
  {
    if k == |slots| then None
    else if slots[k].user == user && slots[k].session == None then Some(k)
    else EmptySlotFrom(slots, user, k + 1)
  }

  /** The first slot that waits for the user. */
  function EmptySlotFor(slots: seq<Slot>, user: Id): (r: Option<nat>)
    ensures r.Some? ==> r.value < |slots| && slots[r.value].user == user
  {
    EmptySlotFound(slots, user, 0);
    EmptySlotFrom(slots, user, 0)
  }

  lemma {:induction false} EmptySlotFound(slots: seq<Slot>, user: Id, k: nat)
    requires k <= |slots|
    ensures
      var r := EmptySlotFrom(slots, user, k);
      && (r.Some? ==> k <= r.value < |slots| && slots[r.value].user == user && slots[r.value].session == None)
      && (r.None? ==> forall j :: k <= j < |slots| ==> !(slots[j].user == user && slots[j].session == None))
    decreases |slots| - k
  {
    if k < |slots| && !(slots[k].user == user && slots[k].session == None) {
      EmptySlotFound(slots, user, k + 1);
    }
  }

  function Dead(s: Slot): bool {
    s.surrendered || s.abandoned
  }

  /** Why a user may not join; None when it may. */
  function JoinAttempt(m: Match, user: Id): Option<Refusal>
    requires Shape(m)
  {
    if m.stage == Finished || m.stage == Cancelled then Some(MatchOver)
    else if user in m.seats then (if Dead(m.slots[m.seats[user]]) then Some(NotReconnectable) else None)
    else if m.info.allowed != [] && user !in m.info.allowed then Some(NotAuthorized)
    else if EmptySlotFor(m.slots, user).None? then Some(MatchFull)
    else None
  }

  function Adopted(s: Slot, session: string): Slot {
    s.(session := Some(session), connected := true, disconnectedAt := None)
  }

  function WithSlot(m: Match, k: nat, s: Slot): (r: Match)
    requires Shape(m) && k < SLOT_COUNT
    ensures Shape(r)
  {
    m.(slots := m.slots[k := s])
  }

  /** The newest session of a user holds the slot. */
  function JoinOne(m: Match, p: Presence): (r: Match)
    requires Shape(m)
    ensures Shape(r)
  {
    if p.user in m.seats then WithSlot(m, m.seats[p.user], Adopted(m.slots[m.seats[p.user]], p.session))
    else
      match EmptySlotFor(m.slots, p.user)
      case None => m
      case Some(k) => WithSlot(m, k, Adopted(m.slots[k], p.session)).(seats := m.seats[p.user := k])
  }

  function JoinEach(m: Match, presences: seq<Presence>): (r: Match)
    requires Shape(m)
    ensures Shape(r)
  {
    if presences == [] then m else JoinOne(JoinEach(m, presences[..|presences| - 1]), presences[|presences| - 1])
  }

  predicate AllJoined(m: Match) {
    forall i :: 0 <= i < |m.slots| ==> m.slots[i].session.Some?
  }

  predicate AllReady(m: Match) {
    forall i :: 0 <= i < |m.slots| ==> m.slots[i].ready
  }

  function Join(m: Match, tick: int, presences: seq<Presence>): (r: Match)
    requires Shape(m)
    ensures Shape(r)
  {
    var joined := JoinEach(m, presences);
    if joined.stage == Waiting && AllJoined(joined) then joined.(stage := Countdown, countdownEnds :=
      tick + COUNTDOWN_TICKS)
    else joined
  }

  /** A leave of a session that no longer holds the slot is ignored. */
  function LeaveOne(m: Match, p: Presence, now: real): (r: Match)
    requires Shape(m)
    ensures Shape(r)
  {
    if p.user !in m.seats then m
    else
      var s := m.slots[m.seats[p.user]];
      if s.session != Some(p.session) then m
      else WithSlot(m, m.seats[p.user], s.(session := None, connected := false, disconnectedAt := Some(now)))
  }

  function LeaveEach(m: Match, presences: seq<Presence>, now: real): (r: Match)
    requires Shape(m)
    ensures Shape(r)
  {
    if presences == [] then m
      else LeaveOne(LeaveEach(m, presences[..|presences| - 1], now), presences[|presences| - 1], now)
  }

  function Leave(m: Match, presences: seq<Presence>, now: real): (r: Match)
    requires Shape(m)
    ensures Shape(r)
  {
    if m.stage == Finished || m.stage == Cancelled then m else LeaveEach(m, presences, now)
  }

  // ----- Settlement

  function OutcomeOf(m: Match, k: nat): Participant
    requires k < |m.slots|
  {
    var s := m.slots[k];
    var role := SideForTeam(s.team);
    Participant(k, s.user, s.team, if Dead(s) then Defeat else StatusForRole(m.battle.status, role),
                StatsForRole(m.battle.stats, role), Dead(s))
  }

  function Outcomes(m: Match): (r: seq<Participant>)
    ensures |r| == |m.slots| && forall k :: 0 <= k < |r| ==> r[k] == OutcomeOf(m, k)
  {
    seq(|m.slots|, k requires 0 <= k < |m.slots| => OutcomeOf(m, k))
  }

  function RequestOf(m: Match): SettleRequest {
    SettleRequest(m.info.matchId, m.info.battlefieldId, m.log, Outcomes(m))
  }

  datatype SettleError = InvalidMatchId | InvalidBattlefieldId | InvalidParticipantSet | InvalidStatus

  predicate SameParty(before: seq<Participant>, p: Participant) {
    exists i :: 0 <= i < |before| && before[i].user == p.user
  }

  predicate SameSlot(before: seq<Participant>, p: Participant) {
    exists i :: 0 <= i < |before| && before[i].slot == p.slot
  }

  function ParticipantFault(before: seq<Participant>, p: Participant): Option<SettleError> {
    if p.user == "" || SameParty(before, p) then Some(InvalidParticipantSet)
    else if p.slot < 0 || p.slot >= SLOT_COUNT || SameSlot(before, p) then Some(InvalidParticipantSet)
    else if p.team != TeamForSlot(p.slot) then Some(InvalidParticipantSet)
    else if p.status == Playing then Some(InvalidStatus)
    else None
  }

  function FirstParticipantFault(ps: seq<Participant>, i: nat): Option<SettleError>
    requires i <= |ps|
    decreases |ps| - i
  {
    if i == |ps| then None
    else
      match ParticipantFault(ps[..i], ps[i])
      case Some(e) => Some(e)
      case None => FirstParticipantFault(ps, i + 1)
  }

  /** Why a settlement request is refused before the store is asked. A request without fault names
      as many slots as participants. */
  function SettleFault(r: SettleRequest): Option<SettleError> {
    if r.matchId == "" || |r.matchId| > 128 then Some(InvalidMatchId)
    else if r.battlefieldId == "" then Some(InvalidBattlefieldId)
    else
      match FirstParticipantFault(r.participants, 0)
      case Some(e) => Some(e)
      case None => if |r.participants| != SLOT_COUNT then Some(InvalidParticipantSet) else None
  }

  /** Enters the final stage and tries to settle, once. */
  function Finish(m: Match, env: Env): (r: Match)
    requires Shape(m)
    ensures Shape(r)
  {
    if m.settled then m
    else
      var request := RequestOf(m);
      if SettleFault(request) == None && env.settles then
        m.(stage := Finished, settled := true, rematchEnds := m.tick + REMATCH_TICKS, ledger := m.ledger + [request])
      else m.(stage := Finished, retryAt := m.tick + SETTLE_RETRY_TICKS)
  }

  function Cancel(m: Match): Match {
    m.(stage := Cancelled)
  }

  // ----- Forfeit

  function Expired(s: Slot, now: real): Slot {
    if !s.connected && !Dead(s) && s.disconnectedAt.Some?
      && now - s.disconnectedAt.value > GRACE_SECONDS then s.(abandoned := true) else s
  }

  function ExpireAll(slots: seq<Slot>, now: real): (r: seq<Slot>)
    ensures |r| == |slots| && forall k :: 0 <= k < |r| ==> r[k] == Expired(slots[k], now)
  {
    seq(|slots|, k requires 0 <= k < |slots| => Expired(slots[k], now))
  }

  predicate TeamDead(slots: seq<Slot>, team: TeamId) {
    forall k :: 0 <= k < |slots| && TeamForSlot(k) == team ==> Dead(slots[k])
  }

  /** Team A is looked at first; a dead team loses. */
  function CheckForfeit(m: Match, env: Env): (r: Match)
    requires Shape(m)
    ensures Shape(r)
  {
    if m.battle.status != Playing then m
    else if TeamDead(m.slots, TeamA) then Finish(m.(battle := m.battle.(status := Defeat)), env)
    else if TeamDead(m.slots, TeamB) then Finish(m.(battle := m.battle.(status := Victory)), env)
    else m
  }

  function EnforceGrace(m: Match, env: Env): (r: Match)
    requires Shape(m)
    ensures Shape(r)
  {
    CheckForfeit(m.(slots := ExpireAll(m.slots, env.now)), env)
  }

  // ----- Messages

  datatype Payload = Malformed | Payload(schema: int, kind: Kind2v2)

  datatype Kind2v2 = DispatchKind(sequence: int, source: Id,
    target: Id) | ReadyKind | SurrenderKind | RematchKind | OtherKind

  datatype Message = Message(user: Id, session: string, payload: Payload)

  datatype Code =
    NotInMatch | BadPayload | UnknownMessage | NotStarted | SlotDisconnected | InvalidSequence | LogFull
    | BadSource | BadTarget | BadDispatch

  datatype Reply = Silent | Accepted(sequence: int, slot: nat) | Rejected(code: Code)

  function CodeOf(e: DispatchError): Code {
    match e
    case InvalidSource => BadSource
    case InvalidTarget => BadTarget
    case InvalidDispatch => BadDispatch
  }

  /** The state after an accepted dispatch: the battle, the slot's sequence, the log, the counter. */
  function Logged(m: Match, k: nat, sequence: int, source: Id, target: Id, number: nat, battle: GameState): (r: Match)
    requires Shape(m) && k < SLOT_COUNT && source in m.battle.territories && source in battle.territories
    ensures Shape(r)
  {
    var gone := m.battle.territories[source].units - battle.territories[source].units;
    m.(battle := battle,
       slots := m.slots[k := m.slots[k].(nextSeq := m.slots[k].nextSeq + 1)],
       log := m.log + [SlotAction(SCHEMA_VERSION, m.tick, number, k, sequence, source, target)],
       sent := m.sent[k := m.sent[k] + gone])
  }

  lemma DispatchKeepsTowers(g: GameState, source: Id, target: Id, owner: Team, multiplier: real)
    ensures
      var r := Dispatch(g, source, target, owner, multiplier);
      r.Ok? ==> source in g.territories && target in g.territories && r.value.territories.Keys == g.territories.Keys
  {
    hide FindRoute, NewArmy, DispatchUnits;
    RouteLength(g, source, target, owner);
  }

  function HandleDispatch(m: Match, k: nat, sequence: int, source: Id, target: Id, number: nat): (r: (Match, Reply))
    requires Shape(m) && k < SLOT_COUNT
    ensures Shape(r.0)
  {
    var s := m.slots[k];
    if m.stage != Running then (m, Rejected(NotStarted))
    else if Dead(s) || !s.connected then (m, Rejected(SlotDisconnected))
    else if s.nextSeq != sequence then (m, Rejected(InvalidSequence))
    else if |m.log| >= DEFAULT_MAX_ACTIONS then (m, Rejected(LogFull))
    else if source !in m.battle.territories then (m, Rejected(BadSource))
    else if target !in m.battle.territories then (m, Rejected(BadTarget))
    else
      DispatchKeepsTowers(m.battle, source, target, SideForSlot(k), s.career.modifiers.speed);
      match Dispatch(m.battle, source, target, SideForSlot(k), s.career.modifiers.speed)
      case Err(e) => (m, Rejected(CodeOf(e)))
      case Ok(battle) => (Logged(m, k, sequence, source, target, number, battle), Accepted(sequence, k))
  }

  function HandleReady(m: Match, k: nat): (r: (Match, Reply))
    requires Shape(m) && k < SLOT_COUNT
    ensures Shape(r.0)
  {
    if m.stage != Waiting && m.stage != Countdown then (m, Rejected(UnknownMessage))
    else (WithSlot(m, k, m.slots[k].(ready := true)), Silent)
  }

  function HandleSurrender(m: Match, env: Env, k: nat): (r: (Match, Reply))
    requires Shape(m) && k < SLOT_COUNT
    ensures Shape(r.0)
  {
    match m.stage
    case Waiting => (Cancel(m), Silent)
    case Countdown => (Cancel(m), Silent)
    case Running =>
      if !m.slots[k].connected then (m, Rejected(SlotDisconnected))
      else (CheckForfeit(WithSlot(m, k, m.slots[k].(surrendered := true, connected := false, session := None)), env),
        Silent)
    case _ => (m, Rejected(UnknownMessage))
  }

  predicate AllVoted(m: Match) {
    forall i :: 0 <= i < |m.votes| ==> m.votes[i]
  }

  function HandleRematchVote(m: Match, env: Env, k: nat): (r: (Match, Reply))
    requires Shape(m) && k < SLOT_COUNT
    ensures Shape(r.0)
  {
    if m.stage != Finished || !m.settled || m.rematchMade then (m, Rejected(BadPayload))
    else if m.tick >= m.rematchEnds then (m, Rejected(BadPayload))
    else if !m.slots[k].connected then (m, Rejected(SlotDisconnected))
    else if m.votes[k] then (m, Rejected(BadPayload))
    else
      var voted := m.(votes := m.votes[k := true]);
      if AllVoted(voted) && env.creates then (voted.(rematchMade := true, rematches :=
        m.rematches + [UserIds(m.slots)]), Silent)
      else (voted, Silent)
  }

  /** Only the session that holds the user's slot is listened to. */
  function HandleMessage(m: Match, env: Env, msg: Message, number: nat): (r: (Match, Reply))
    requires Shape(m)
    ensures Shape(r.0)
  {
    if msg.user !in m.seats then (m, Rejected(NotInMatch))
    else
      var k := m.seats[msg.user];
      if m.slots[k].session != Some(msg.session) then (m, Rejected(NotInMatch))
      else if msg.payload.Malformed? || msg.payload.schema != SCHEMA_VERSION then (m, Rejected(BadPayload))
      else match msg.payload.kind
        case DispatchKind(sequence, source, target) => HandleDispatch(m, k, sequence, source, target, number)
        case ReadyKind => HandleReady(m, k)
        case SurrenderKind => HandleSurrender(m, env, k)
        case RematchKind => HandleRematchVote(m, env, k)
        case OtherKind => (m, Rejected(UnknownMessage))
  }

  /** The messages of one loop are numbered on from the match's server sequence. */
  function HandleAll(m: Match, env: Env, messages: seq<Message>): (r: Match)
    requires Shape(m)
    ensures Shape(r)
  {
    if messages == [] then m
    else
      var last := |messages| - 1;
      HandleMessage(HandleAll(m, env, messages[..last]), env, messages[last], m.serverSeq + last + 1).0
  }

  // ----- The loop

  function SpeedModifiers(slots: seq<Slot>): map<int, Modifiers> {
    map k | 0 <= k < |slots| :: slots[k].career.modifiers
  }

  function Opening(m: Match): Result<GameState, InitError> {
    if m.info.arena.None? then Err(SpawnNotFound)
    else CreateInitial(m.info.arena.value, SPAWNS, SpeedModifiers(m.slots), BATTLE_SECONDS)
  }

  function StartMatch(m: Match, env: Env): (r: Match)
    requires Shape(m)
    ensures Shape(r)
  {
    match Opening(m)
    case Err(_) => Cancel(m)
    case Ok(g) => m.(battle := g, stage := Running, deadline := env.now + MATCH_SECONDS)
  }

  /** The lobby's timers; a cancelled match ends the loop. */
  function Lobby(m: Match, env: Env): (r: Match)
    requires Shape(m)
    ensures Shape(r)
  {
    match m.stage
    case Waiting =>
      if AllJoined(m) then m.(stage := Countdown, countdownEnds := m.tick + COUNTDOWN_TICKS)
      else if m.tick >= m.waitingEnds then Cancel(m)
      else m
    case Countdown =>
      if AllReady(m) then StartMatch(m, env)
      else if m.tick >= m.countdownEnds then (if AllJoined(m) then StartMatch(m, env) else Cancel(m))
      else m
    case _ => m
  }

  function StepBattle(m: Match): (r: Match)
    requires Shape(m)
    ensures Shape(r)
  {
    if m.battle.status != Playing then m
    else
      var p := Step(m.battle, m.acc, STEP_SECONDS);
      m.(battle := p.g, acc := p.acc)
  }

  /** One step of the battle, and the end of the match when it is decided or overdue. */
  function Advance2v2(m: Match, env: Env): (r: Match)
    requires Shape(m)
    ensures Shape(r)
  {
    var stepped := StepBattle(m);
    if stepped.battle.status != Playing then Finish(stepped, env)
    else if env.now > stepped.deadline then Finish(stepped.(battle := stepped.battle.(status := Draw)), env)
    else stepped
  }

  function Received(m: Match, env: Env, messages: seq<Message>): (r: Match)
    requires Shape(m)
    ensures Shape(r)
  {
    HandleAll(m, env, messages).(serverSeq := m.serverSeq + |messages|)
  }

  function LoopLive(m: Match, env: Env, messages: seq<Message>): (r: Match)
    requires Shape(m)
    ensures Shape(r)
  {
    var graced := if m.stage == Running then EnforceGrace(m, env) else m;
    if m.stage == Running && graced.stage != Running then graced
    else
      var received := Received(graced, env, messages);
      if received.stage == Finished then received
      else
        var lobby := Lobby(received, env);
        if lobby.stage == Running then Advance2v2(lobby, env) else lobby
  }

  function Loop(m: Match, tick: int, env: Env, messages: seq<Message>): (r: Match)
    requires Shape(m)
    ensures Shape(r)
  {
    var now := m.(tick := tick);
    if m.stage == Cancelled then now
    else if m.stage == Finished && !m.settled then (if tick >= m.retryAt then Finish(now, env) else now)
    else LoopLive(now, env, messages)
  }

  predicate LiveStaysOpen(m: Match, env: Env, messages: seq<Message>)
    requires Shape(m)
  {
    var graced := if m.stage == Running then EnforceGrace(m, env) else m;
    if m.stage == Running && graced.stage != Running then true
    else
      var received := Received(graced, env, messages);
      !(received.stage == Finished && received.settled && received.tick >= received.rematchEnds)
  }

  /** Whether the match handler lives on after the loop. */
  predicate StaysOpen(m: Match, tick: int, env: Env, messages: seq<Message>)
    requires Shape(m)
  {
    if m.stage == Cancelled then false
    else if m.stage == Finished && !m.settled then true
    else LiveStaysOpen(m.(tick := tick), env, messages)
  }

  function Terminate(m: Match): (r: Match)
    requires Shape(m)
    ensures Shape(r)
  {
    if m.stage == Waiting || m.stage == Countdown || m.stage == Running then Cancel(m) else m
  }

  // ----- Runs

  datatype Event =
    Joins(joinTick: int, joining: seq<Presence>)
    | Leaves(at: real, leaving: seq<Presence>)
    | Loops(loopTick: int, env: Env, messages: seq<Message>)
    | Shutdown

  function Apply(m: Match, e: Event): (r: Match)
    requires Shape(m)
    ensures Shape(r)
  {
    match e
    case Joins(tick, presences) => Join(m, tick, presences)
    case Leaves(now, presences) => Leave(m, presences, now)
    case Loops(tick, env, messages) => Loop(m, tick, env, messages)
    case Shutdown => Terminate(m)
  }

  function Run2v2(m: Match, events: seq<Event>): (r: Match)
    requires Shape(m)
    ensures Shape(r)
  {
    if events == [] then m else Apply(Run2v2(m, events[..|events| - 1]), events[|events| - 1])
  }
}
