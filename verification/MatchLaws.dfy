/** What every run of a four-player match keeps: it only moves forward, settles at most once and
    never when cancelled, logs nothing for the dead, and its log and counters stay exact. */
module MatchLaws {
  import opened Text
  import opened Sorting
  import opened World
  import opened Routes
  import opened DispatchRoute
  import opened Combat
  import opened BattleRules
  import opened BattleInvariants
  import opened Production
  import opened Roles
  import opened Canonical
  import opened Simulation2v2
  import opened MatchSlots
  import opened MatchRules

  // ----- The invariant

  ghost predicate GoodInfo(info: MatchInfo) {
    && info.matchId != "" && |info.matchId| <= 128 && info.battlefieldId != ""
    && (info.arena.Some? ==> "" !in info.arena.value.territories)
  }

  /** Four different players in their places; seats lead to them; a slot is connected while a session holds it. */
  ghost predicate Members(m: Match) {
    && Shape(m) && Seating(m.slots)
    && (forall u :: u in m.seats ==> m.slots[m.seats[u]].user == u)
    && forall k :: 0 <= k < SLOT_COUNT ==> (m.slots[k].connected <==> m.slots[k].session.Some?)
  }

  /** The log is in canonical order, not too long, not ahead of the clock, and counts every slot's commands. */
  ghost predicate GoodLog(m: Match, bound: nat) {
    && 0 <= m.tick && |m.log| <= DEFAULT_MAX_ACTIONS && Faultless(m.log, 0) && Sorted(ActionLe, m.log)
    && (forall i :: 0 <= i < |m.log| ==> m.log[i].tick <= m.tick && m.log[i].serverSeq <= bound)
    && |m.slots| == SLOT_COUNT && forall k :: 0 <= k < SLOT_COUNT ==> m.slots[k].nextSeq == SlotCount(m.log, k)
  }

  /** The tower order of the match's battlefield lists its towers, each once. */
  ghost predicate InfoListed(info: MatchInfo) {
    info.arena.Some? ==>
      var a := info.arena.value;
      Simple(a.board.order) && forall id :: id in a.board.order <==> id in a.territories
  }

  predicate Begun(stage: Stage) {
    stage == Running || stage == Finished
  }

  /** What the slots sent adds up to what their sides sent. */
  ghost predicate GoodTotals(m: Match) {
    && |m.sent| == SLOT_COUNT
    && (m.stage == Waiting || m.stage == Countdown ==> m.sent == [0, 0, 0, 0])
    && (Begun(m.stage) ==>
          && "" !in m.battle.territories && (InfoListed(m.info) ==> GoodBoard(m.battle))
          && m.sent[0] + m.sent[1] == m.battle.stats.playerSent && m.sent[2] + m.sent[3] == m.battle.stats.enemySent)
  }

  /** Settled at most once, with the match's final record; rematched at most once, with its seats. */
  ghost predicate GoodBooks(m: Match) {
    && GoodInfo(m.info) && (m.settled ==> m.stage == Finished) && (m.rematchMade ==> m.settled)
    && m.ledger == (if m.settled then [RequestOf(m)] else [])
    && m.rematches == (if m.rematchMade then [UserIds(m.slots)] else [])
  }

  predicate Forfeited(m: Match) {
    || (TeamDead(m.slots, TeamA) && m.battle.status == Defeat)
    || (TeamDead(m.slots, TeamB) && m.battle.status == Victory)
  }

  /** A running battle is undecided; a finished one is decided by a forfeit, by the rules of the
      battle, or drawn at the deadline. */
  ghost predicate GoodVerdict(m: Match) {
    && (m.stage == Running ==> m.battle.status == Playing)
    && (m.stage == Finished ==> Ended(m))
  }

  /** What the rules say of a battle, were it still undecided. */
  function RulesVerdict(g: GameState): Status {
    Verdict(g.(status := Playing))
  }

  predicate Ended(m: Match) {
    m.battle.status != Playing && (Forfeited(m) || m.battle.status == RulesVerdict(m.battle) || m.battle.status == Draw)
  }

  ghost predicate Kept(m: Match, bound: nat) {
    Members(m) && GoodLog(m, bound) && GoodTotals(m) && GoodBooks(m)
  }

  ghost predicate Good2v2(m: Match, bound: nat) {
    Kept(m, bound) && GoodVerdict(m)
  }

  // ----- Progress

  function Rank(s: Stage): nat {
    match s
    case Waiting => 0
    case Countdown => 1
    case Running => 2
    case Finished => 3
    case Cancelled => 4
  }

  /** Forward from waiting to finished, or aside to cancelled unless already finished. */
  predicate Forward(a: Stage, b: Stage) {
    a == b || (a != Finished && b == Cancelled) || (b != Cancelled && Rank(a) < Rank(b))
  }

  predicate Over(s: Stage) {
    s == Finished || s == Cancelled
  }

  /** The dead stay dead. */
  ghost predicate SlotsMove(a: seq<Slot>, b: seq<Slot>) {
    |a| == |b| && forall k :: 0 <= k < |a| ==> Dead(a[k]) ==> Dead(b[k])
  }

  /** The log only grows, by commands of slots that were alive. */
  ghost predicate LogMoves(a: Match, b: Match) {
    && |a.log| <= |b.log| && b.log[..|a.log|] == a.log
    && forall i :: |a.log| <= i < |b.log| ==> 0 <= b.log[i].slot < |a.slots| && !Dead(a.slots[b.log[i].slot])
  }

  /** A match that is over keeps its record. */
  ghost predicate RecordMoves(a: Match, b: Match) {
    Over(a.stage) ==> b.log == a.log && b.battle == a.battle && b.sent == a.sent
  }

  ghost predicate BooksMove(a: Match, b: Match) {
    && b.info == a.info && (a.settled ==> b.settled) && a.ledger <= b.ledger && a.rematches <= b.rematches
    && |a.votes| == |b.votes| && (forall k :: 0 <= k < |a.votes| && a.votes[k] ==> b.votes[k])
    && (AllVoted(a) ==> b.rematchMade == a.rematchMade)
  }

  ghost predicate Moves(a: Match, b: Match) {
    Forward(a.stage, b.stage) && SlotsMove(a.slots, b.slots) && LogMoves(a, b) && RecordMoves(a, b) && BooksMove(a, b)
  }

  lemma StaysPut(m: Match)
    ensures Moves(m, m)
  {
  }

  lemma MovesOn(a: Match, b: Match, c: Match)
    requires Moves(a, b) && Moves(b, c)
    ensures Moves(a, c)
  {
    hide Dead;
    LogMovesOn(a, b, c);
  }

  lemma LogMovesOn(a: Match, b: Match, c: Match)
    requires SlotsMove(a.slots, b.slots) && LogMoves(a, b) && LogMoves(b, c)
    ensures LogMoves(a, c)
  {
    hide Dead;
    assert c.log[..|a.log|] == c.log[..|b.log|][..|a.log|];
    forall i | |a.log| <= i < |c.log| ensures 0 <= c.log[i].slot < |a.slots| && !Dead(a.slots[c.log[i].slot]) {
      if i < |b.log| {
        assert c.log[i] == c.log[..|b.log|][i] == b.log[i];
      }
    }
  }

  /** What every step of the protocol does. */
  ghost predicate Keeps(a: Match, b: Match, bound: nat) {
    Good2v2(b, bound) && Moves(a, b)
  }

  lemma KeepsOn(a: Match, b: Match, c: Match, bound: nat, later: nat)
    requires Keeps(a, b, bound) && Keeps(b, c, later)
    ensures Keeps(a, c, later)
  {
    hide Moves, Good2v2;
    MovesOn(a, b, c);
  }

  lemma KeepsAlone(m: Match, bound: nat)
    requires Good2v2(m, bound)
    ensures Keeps(m, m, bound)
  {
    hide Good2v2, Moves;
    StaysPut(m);
  }

  lemma GoodShape(m: Match, bound: nat)
    requires Good2v2(m, bound)
    ensures Shape(m)
  {
  }

  /** What a settlement request depends on. */
  lemma SameRecord(a: Match, b: Match)
    requires a.info == b.info && a.log == b.log && a.battle == b.battle && |a.slots| == |b.slots|
    requires forall k :: 0 <= k < |a.slots| ==>
      a.slots[k].user == b.slots[k].user && a.slots[k].team == b.slots[k].team
        && (Dead(a.slots[k]) <==> Dead(b.slots[k]))
    ensures RequestOf(a) == RequestOf(b)
  {
    hide Dead, StatusForRole, StatsForRole, SideForTeam;
    forall k | 0 <= k < |a.slots| ensures OutcomeOf(a, k) == OutcomeOf(b, k) {
    }
    assert Outcomes(a) == Outcomes(b);
  }

  // ----- Slots change hands

  /** Identity and numbering stay, the dead stay dead, and nobody dies once the match is over. */
  ghost predicate SameSlotPlayer(s: Slot, t: Slot) {
    && t.user == s.user && t.career == s.career && t.team == s.team && t.base == s.base && t.nextSeq == s.nextSeq
    && (t.connected <==> t.session.Some?) && (Dead(s) ==> Dead(t))
  }

  lemma SlotsChange(m: Match, slots: seq<Slot>, bound: nat)
    requires Good2v2(m, bound) && |slots| == SLOT_COUNT
    requires forall k :: 0 <= k < SLOT_COUNT ==> SameSlotPlayer(m.slots[k], slots[k])
    requires m.stage == Finished ==> forall k :: 0 <= k < SLOT_COUNT ==> (Dead(slots[k]) <==> Dead(m.slots[k]))
    ensures Keeps(m, m.(slots := slots), bound)
  {
    hide SlotCount, Faultless, Sorted, Verdict, RequestOf, Dead;
    var r := m.(slots := slots);
    assert UserIds(slots) == UserIds(m.slots);
    if m.stage == Finished {
      SameRecord(m, r);
    }
    StaysPut(m);
    forall i | 0 <= i < SLOT_COUNT ensures SeatedAt(slots, i) {
      assert SeatedAt(m.slots, i) && SameSlotPlayer(m.slots[i], slots[i]);
    }
  }

  lemma OneSlotChanges(m: Match, k: nat, s: Slot, bound: nat)
    requires Good2v2(m, bound) && k < SLOT_COUNT && SameSlotPlayer(m.slots[k], s)
    requires m.stage == Finished ==> (Dead(s) <==> Dead(m.slots[k]))
    ensures Keeps(m, WithSlot(m, k, s), bound)
  {
    hide GoodLog, GoodTotals, GoodBooks, GoodVerdict, Keeps;
    var slots := m.slots[k := s];
    forall j | 0 <= j < SLOT_COUNT ensures SameSlotPlayer(m.slots[j], slots[j]) {
    }
    SlotsChange(m, slots, bound);
  }

  lemma NewSeat(m: Match, u: Id, k: nat, bound: nat)
    requires Good2v2(m, bound) && k < SLOT_COUNT && m.slots[k].user == u
    ensures Keeps(m, m.(seats := m.seats[u := k]), bound)
  {
    hide GoodLog, GoodTotals, Seating, RequestOf, Dead;
    SameRecord(m.(seats := m.seats[u := k]), m);
    SeatLog(m, u, k, bound);
  }

  lemma SeatLog(m: Match, u: Id, k: nat, bound: nat)
    requires GoodLog(m, bound) && GoodTotals(m)
    ensures GoodLog(m.(seats := m.seats[u := k]), bound) && GoodTotals(m.(seats := m.seats[u := k]))
  {
    hide SlotCount, Faultless, Sorted;
  }

  lemma JoinOneKeeps(m: Match, p: Presence, bound: nat)
    requires Good2v2(m, bound)
    ensures Keeps(m, JoinOne(m, p), bound)
  {
    hide GoodLog, GoodTotals, GoodBooks, GoodVerdict, Keeps, EmptySlotFor;
    if p.user in m.seats {
      OneSlotChanges(m, m.seats[p.user], Adopted(m.slots[m.seats[p.user]], p.session), bound);
    } else {
      var found := EmptySlotFor(m.slots, p.user);
      if found.None? {
        KeepsAlone(m, bound);
      } else {
        var k := found.value;
        var seated := WithSlot(m, k, Adopted(m.slots[k], p.session));
        OneSlotChanges(m, k, Adopted(m.slots[k], p.session), bound);
        KeptGood(m, seated, bound);
        NewSeat(seated, p.user, k, bound);
        KeepsOn(m, seated, JoinOne(m, p), bound, bound);
      }
    }
  }

  lemma KeptGood(a: Match, b: Match, bound: nat)
    requires Keeps(a, b, bound)
    ensures Good2v2(b, bound) && Moves(a, b)
  {
  }

  lemma {:induction false} JoinEachKeeps(m: Match, presences: seq<Presence>, bound: nat)
    requires Good2v2(m, bound)
    ensures Keeps(m, JoinEach(m, presences), bound)
  {
    hide Good2v2, Keeps, JoinOne;
    if presences == [] {
      KeepsAlone(m, bound);
    } else {
      GoodShape(m, bound);
      var front := JoinEach(m, presences[..|presences| - 1]);
      JoinEachKeeps(m, presences[..|presences| - 1], bound);
      KeptGood(m, front, bound);
      JoinOneKeeps(front, presences[|presences| - 1], bound);
      KeepsOn(m, front, JoinEach(m, presences), bound, bound);
    }
  }

  lemma CountdownKeeps(m: Match, ends: int, bound: nat)
    requires Good2v2(m, bound) && m.stage == Waiting
    ensures Keeps(m, m.(stage := Countdown, countdownEnds := ends), bound)
  {
    hide Seating, Faultless, Sorted, SlotCount, GoodInfo, Verdict;
    assert !m.settled;
  }

  lemma JoinKeeps(m: Match, tick: int, presences: seq<Presence>, bound: nat)
    requires Good2v2(m, bound)
    ensures Keeps(m, Join(m, tick, presences), bound)
  {
    hide Good2v2, Keeps, JoinEach, AllJoined;
    GoodShape(m, bound);
    var joined := JoinEach(m, presences);
    JoinEachKeeps(m, presences, bound);
    KeptGood(m, joined, bound);
    if joined.stage == Waiting && AllJoined(joined) {
      CountdownKeeps(joined, tick + COUNTDOWN_TICKS, bound);
      KeepsOn(m, joined, Join(m, tick, presences), bound, bound);
    }
  }

  lemma LeaveOneKeeps(m: Match, p: Presence, now: real, bound: nat)
    requires Good2v2(m, bound)
    ensures Keeps(m, LeaveOne(m, p, now), bound)
  {
    hide GoodLog, GoodTotals, GoodBooks, GoodVerdict, Keeps;
    if p.user in m.seats && m.slots[m.seats[p.user]].session == Some(p.session) {
      var s := m.slots[m.seats[p.user]];
      OneSlotChanges(m, m.seats[p.user], s.(session := None, connected := false, disconnectedAt := Some(now)), bound);
    } else {
      KeepsAlone(m, bound);
    }
  }

  lemma {:induction false} LeaveEachKeeps(m: Match, presences: seq<Presence>, now: real, bound: nat)
    requires Good2v2(m, bound)
    ensures Keeps(m, LeaveEach(m, presences, now), bound)
  {
    hide Good2v2, Keeps, LeaveOne;
    if presences == [] {
      KeepsAlone(m, bound);
    } else {
      GoodShape(m, bound);
      var front := LeaveEach(m, presences[..|presences| - 1], now);
      LeaveEachKeeps(m, presences[..|presences| - 1], now, bound);
      KeptGood(m, front, bound);
      LeaveOneKeeps(front, presences[|presences| - 1], now, bound);
      KeepsOn(m, front, LeaveEach(m, presences, now), bound, bound);
    }
  }

  // ----- Ending

  lemma CancelKeeps(m: Match, bound: nat)
    requires Good2v2(m, bound) && !Over(m.stage)
    ensures Keeps(m, Cancel(m), bound)
  {
    hide Seating, Faultless, Sorted, SlotCount, GoodInfo, Verdict;
    assert !m.settled;
  }

  /** A decided match asks for a settlement the store accepts. */
  lemma RequestAccepted(m: Match)
    requires Members(m) && GoodInfo(m.info) && m.battle.status != Playing
    ensures SettleFault(RequestOf(m)) == None
  {
    hide StatsForRole;
    var ps := Outcomes(m);
    forall k | 0 <= k < |ps| ensures ParticipantFault(ps[..k], ps[k]) == None {
      assert SeatedAt(m.slots, k);
      assert UserIds(m.slots)[k] != "";
      forall i | 0 <= i < k ensures ps[..k][i].user != ps[k].user {
        assert UserIds(m.slots)[i] != UserIds(m.slots)[k];
      }
    }
    NoParticipantFault(ps, 0);
  }

  lemma {:induction false} ParticipantsIff(ps: seq<Participant>, i: nat)
    requires i <= |ps|
    ensures FirstParticipantFault(ps, i) == None <==> forall k :: i <= k < |ps| ==>
      ParticipantFault(ps[..k], ps[k]) == None
    decreases |ps| - i
  {
    hide ParticipantFault;
    if i < |ps| {
      ParticipantsIff(ps, i + 1);
    }
  }

  /** Without fault is exactly a request with a match id of 1 to 128 characters and a battlefield id, of four
      named, different participants in different slots, each on its slot's team and decided. */
  lemma RequestIff(r: SettleRequest)
    ensures SettleFault(r) == None <==>
      && 1 <= |r.matchId| <= 128 && r.battlefieldId != "" && |r.participants| == SLOT_COUNT
      && (forall k :: 0 <= k < |r.participants| ==>
            var p := r.participants[k];
            && p.user != "" && 0 <= p.slot < SLOT_COUNT && p.team == (if p.slot < 2 then TeamA else TeamB)
            && p.status != Playing)
      && forall j, k :: 0 <= j < k < |r.participants| ==>
           r.participants[j].user != r.participants[k].user && r.participants[j].slot != r.participants[k].slot
  {
    var ps := r.participants;
    ParticipantsIff(ps, 0);
    if forall k :: 0 <= k < |ps| ==> ParticipantFault(ps[..k], ps[k]) == None {
      forall j, k | 0 <= j < k < |ps| ensures ps[j].user != ps[k].user && ps[j].slot != ps[k].slot {
        assert ParticipantFault(ps[..k], ps[k]) == None && ps[..k][j] == ps[j];
      }
    }
  }

  lemma {:induction false} NoParticipantFault(ps: seq<Participant>, i: nat)
    requires i <= |ps| && forall k :: i <= k < |ps| ==> ParticipantFault(ps[..k], ps[k]) == None
    ensures FirstParticipantFault(ps, i) == None
    decreases |ps| - i
  {
    hide ParticipantFault;
    if i < |ps| {
      NoParticipantFault(ps, i + 1);
    }
  }

  lemma FinishKeeps(m: Match, env: Env, bound: nat)
    requires Kept(m, bound) && Ended(m) && Begun(m.stage)
    ensures Good2v2(Finish(m, env), bound) && Finish(m, env).stage == Finished
    ensures Finish(m, env).battle == m.battle && Finish(m, env).slots == m.slots && Finish(m, env).log == m.log
    ensures Finish(m, env).sent == m.sent && BooksMove(m, Finish(m, env))
    ensures !m.settled ==> Finish(m, env).settled == env.settles
  {
    hide Seating, Faultless, Sorted, SlotCount, GoodInfo, Verdict, SettleFault, TeamDead, RequestOf, Dead;
    RequestAccepted(m);
    var r := Finish(m, env);
    SameRecord(r, m);
    assert Members(r);
  }

  /** Finishing a match that ran, or retrying the settlement of a finished one. */
  lemma Concludes(a: Match, m: Match, env: Env, bound: nat)
    requires Kept(m, bound) && Ended(m) && Begun(m.stage)
    requires a.stage == Running || (a.stage == Finished && a == m)
    requires SlotsMove(a.slots, m.slots) && LogMoves(a, m) && BooksMove(a, m)
    ensures Keeps(a, Finish(m, env), bound) && Finish(m, env).stage == Finished
  {
    hide Kept, Ended, SlotsMove, Finish, Good2v2;
    KeptShape(m, bound);
    var r := Finish(m, env);
    FinishKeeps(m, env, bound);
    FinishStage(m, r);
    StaysPut(m);
  }

  lemma KeptShape(m: Match, bound: nat)
    requires Kept(m, bound)
    ensures Shape(m)
  {
  }

  lemma FinishStage(m: Match, r: Match)
    requires BooksMove(m, r)
    ensures r.info == m.info && |r.votes| == |m.votes|
  {
  }

  /** Setting the status of a running battle touches nothing else the match keeps. */
  lemma StatusSet(m: Match, status: Status, bound: nat)
    requires Kept(m, bound) && m.stage == Running
    ensures Kept(m.(battle := m.battle.(status := status)), bound)
  {
    hide Seating, Faultless, Sorted, SlotCount, GoodInfo, RequestOf;
  }

  lemma CheckForfeitKeeps(m: Match, env: Env, bound: nat)
    requires Good2v2(m, bound) && m.stage == Running
    ensures
      var r := CheckForfeit(m, env);
      Keeps(m, r, bound) && (r == m || (r.stage == Finished && Forfeited(r)))
  {
    hide Kept, TeamDead, Finish, Keeps, Verdict;
    KeptShape(m, bound);
    StaysPut(m);
    KeepsAlone(m, bound);
    if TeamDead(m.slots, TeamA) {
      StatusSet(m, Defeat, bound);
      Concludes(m, m.(battle := m.battle.(status := Defeat)), env, bound);
      FinishKeeps(m.(battle := m.battle.(status := Defeat)), env, bound);
    } else if TeamDead(m.slots, TeamB) {
      StatusSet(m, Victory, bound);
      Concludes(m, m.(battle := m.battle.(status := Victory)), env, bound);
      FinishKeeps(m.(battle := m.battle.(status := Victory)), env, bound);
    }
  }

  lemma EnforceGraceKeeps(m: Match, env: Env, bound: nat)
    requires Good2v2(m, bound) && m.stage == Running
    ensures
      var r := EnforceGrace(m, env);
      Keeps(m, r, bound) && (r.stage == Running || (r.stage == Finished && Forfeited(r)))
  {
    hide GoodLog, GoodTotals, GoodBooks, GoodVerdict, Keeps, CheckForfeit, Forfeited, Expired;
    var slots := ExpireAll(m.slots, env.now);
    forall k | 0 <= k < SLOT_COUNT ensures SameSlotPlayer(m.slots[k], slots[k]) {
      ExpiredSame(m.slots[k], env.now);
    }
    SlotsChange(m, slots, bound);
    var expired := m.(slots := slots);
    KeptGood(m, expired, bound);
    CheckForfeitKeeps(expired, env, bound);
    KeepsOn(m, expired, EnforceGrace(m, env), bound, bound);
  }

  lemma ExpiredSame(s: Slot, now: real)
    requires s.connected <==> s.session.Some?
    ensures SameSlotPlayer(s, Expired(s, now))
  {
  }

  // ----- Messages

  lemma GoodLater(m: Match, bound: nat, later: nat)
    requires Good2v2(m, bound) && bound <= later
    ensures Good2v2(m, later)
  {
    hide Faultless, Sorted, SlotCount, Members, GoodTotals, GoodBooks, GoodVerdict;
  }

  lemma DispatchCounts(g: GameState, source: Id, target: Id, owner: Team, multiplier: real)
    ensures
      var r := Dispatch(g, source, target, owner, multiplier);
      r.Ok? ==>
        && source in g.territories && target in g.territories && r.value.territories.Keys == g.territories.Keys
        && r.value.status == g.status && r.value.board == g.board
        && r.value.stats == CountSent(g.stats, owner, g.territories[source].units - r.value.territories[source].units)
  {
    hide FindRoute, NewArmy, DispatchUnits;
    RouteLength(g, source, target, owner);
  }

  lemma FaultlessAppend(s: seq<SlotAction>, a: SlotAction)
    requires Faultless(s, 0) && Fault(s, a) == None
    ensures Faultless(s + [a], 0)
  {
    hide Fault;
    var t := s + [a];
    forall k | 0 <= k < |t| ensures Fault(t[..k], t[k]) == None {
      if k < |s| {
        assert t[..k] == s[..k];
      } else {
        assert t[..k] == s;
      }
    }
  }

  lemma SlotCountAppend(s: seq<SlotAction>, a: SlotAction, k: int)
    ensures SlotCount(s + [a], k) == SlotCount(s, k) + (if a.slot == k then 1 else 0)
  {
    assert (s + [a])[..|s|] == s;
  }

  /** A command accepted from a living slot extends the log in canonical order. */
  lemma LogExtends(m: Match, k: nat, a: SlotAction, bound: nat, number: nat, slots: seq<Slot>)
    requires GoodLog(m, bound) && bound < number && k < SLOT_COUNT && |m.log| < DEFAULT_MAX_ACTIONS
    requires a.schema == SCHEMA_VERSION && a.tick == m.tick && a.serverSeq == number && a.slot == k
    requires a.clientSeq == m.slots[k].nextSeq && a.source != "" && a.target != ""
    requires slots == m.slots[k := m.slots[k].(nextSeq := m.slots[k].nextSeq + 1)]
    ensures GoodLog(m.(log := m.log + [a], slots := slots), number)
  {
    hide SlotCount, Faultless;
    assert !SeqUsed(m.log, number);
    assert Fault(m.log, a) == None;
    FaultlessAppend(m.log, a);
    forall j | 0 <= j < SLOT_COUNT ensures slots[j].nextSeq == SlotCount(m.log + [a], j) {
      SlotCountAppend(m.log, a, j);
    }
  }

  lemma LoggedTotals(m: Match, k: nat, sequence: int, source: Id, target: Id, number: nat, battle: GameState)
    requires Shape(m) && GoodTotals(m) && m.stage == Running && k < SLOT_COUNT
    requires source in m.battle.territories && source in battle.territories
    requires Dispatch(m.battle, source, target, SideForSlot(k), m.slots[k].career.modifiers.speed) == Ok(battle)
    ensures GoodTotals(Logged(m, k, sequence, source, target, number, battle))
    ensures battle.status == m.battle.status && source != "" && target != ""
  {
    hide Dispatch, InfoListed;
    DispatchCounts(m.battle, source, target, SideForSlot(k), m.slots[k].career.modifiers.speed);
  }

  lemma LoggedKeeps(m: Match, k: nat, sequence: int, source: Id, target: Id, bound: nat, number: nat, battle: GameState)
    requires Good2v2(m, bound) && m.stage == Running && k < SLOT_COUNT && !Dead(m.slots[k]) && bound < number
    requires m.slots[k].nextSeq == sequence && |m.log| < DEFAULT_MAX_ACTIONS
    requires source in m.battle.territories && source in battle.territories
    requires Dispatch(m.battle, source, target, SideForSlot(k), m.slots[k].career.modifiers.speed) == Ok(battle)
    ensures Keeps(m, Logged(m, k, sequence, source, target, number, battle), number)
  {
    hide Dispatch, SlotCount, Faultless, Sorted, GoodTotals, GoodInfo, RequestOf;
    LoggedTotals(m, k, sequence, source, target, number, battle);
    var r := Logged(m, k, sequence, source, target, number, battle);
    var a := SlotAction(SCHEMA_VERSION, m.tick, number, k, sequence, source, target);
    LogExtends(m, k, a, bound, number, r.slots);
    assert UserIds(r.slots) == UserIds(m.slots);
    forall i | 0 <= i < SLOT_COUNT ensures SeatedAt(r.slots, i) {
      assert SeatedAt(m.slots, i);
    }
    assert !m.settled;
    assert r.log[..|m.log|] == m.log;
  }

  lemma HandleDispatchKeeps(m: Match, k: nat, sequence: int, source: Id, target: Id, bound: nat, number: nat)
    requires Good2v2(m, bound) && k < SLOT_COUNT && bound < number
    ensures Keeps(m, HandleDispatch(m, k, sequence, source, target, number).0, number)
  {
    hide Good2v2, Keeps, Dispatch, Dead;
    GoodShape(m, bound);
    GoodLater(m, bound, number);
    KeepsAlone(m, number);
    var s := m.slots[k];
    if m.stage == Running && !Dead(s) && s.nextSeq == sequence && |m.log| < DEFAULT_MAX_ACTIONS
       && Dispatch(m.battle, source, target, SideForSlot(k), s.career.modifiers.speed).Ok? {
      DispatchKeepsTowers(m.battle, source, target, SideForSlot(k), s.career.modifiers.speed);
      var battle := Dispatch(m.battle, source, target, SideForSlot(k), s.career.modifiers.speed).value;
      LoggedKeeps(m, k, sequence, source, target, bound, number, battle);
    }
  }

  lemma HandleReadyKeeps(m: Match, k: nat, bound: nat)
    requires Good2v2(m, bound) && k < SLOT_COUNT
    ensures Keeps(m, HandleReady(m, k).0, bound)
  {
    hide GoodLog, GoodTotals, GoodBooks, GoodVerdict, Keeps;
    KeepsAlone(m, bound);
    if m.stage == Waiting || m.stage == Countdown {
      OneSlotChanges(m, k, m.slots[k].(ready := true), bound);
    }
  }

  lemma HandleSurrenderKeeps(m: Match, env: Env, k: nat, bound: nat)
    requires Good2v2(m, bound) && k < SLOT_COUNT
    ensures Keeps(m, HandleSurrender(m, env, k).0, bound)
  {
    hide GoodLog, GoodTotals, GoodBooks, GoodVerdict, Keeps, CheckForfeit, Forfeited;
    KeepsAlone(m, bound);
    if m.stage == Waiting || m.stage == Countdown {
      CancelKeeps(m, bound);
    } else if m.stage == Running && m.slots[k].connected {
      var s := m.slots[k].(surrendered := true, connected := false, session := None);
      OneSlotChanges(m, k, s, bound);
      var gone := WithSlot(m, k, s);
      KeptGood(m, gone, bound);
      CheckForfeitKeeps(gone, env, bound);
      KeepsOn(m, gone, CheckForfeit(gone, env), bound, bound);
    }
  }

  lemma VotesChange(m: Match, votes: seq<bool>, made: bool, bound: nat)
    requires Good2v2(m, bound) && m.settled && !m.rematchMade && |votes| == SLOT_COUNT
    requires (forall k :: 0 <= k < SLOT_COUNT && m.votes[k] ==> votes[k]) && !AllVoted(m)
    ensures Keeps(m, m.(votes := votes, rematchMade := made, rematches :=
      m.rematches + (if made then [UserIds(m.slots)] else [])), bound)
  {
    hide Seating, Faultless, Sorted, SlotCount, GoodInfo, Ended, RequestOf, AllVoted;
    var r := m.(votes := votes, rematchMade := made, rematches :=
      m.rematches + (if made then [UserIds(m.slots)] else []));
    SameRecord(r, m);
    EndedSame(r, m);
    StaysPut(m);
    assert m.rematches == [];
    assert Members(r) && GoodLog(r, bound) && GoodTotals(r);
    assert GoodBooks(r);
  }

  lemma HandleRematchVoteKeeps(m: Match, env: Env, k: nat, bound: nat)
    requires Good2v2(m, bound) && k < SLOT_COUNT
    ensures Keeps(m, HandleRematchVote(m, env, k).0, bound)
  {
    hide Good2v2, Keeps;
    GoodShape(m, bound);
    KeepsAlone(m, bound);
    if m.stage == Finished && m.settled && !m.rematchMade && !m.votes[k] {
      var votes := m.votes[k := true];
      VotesChange(m, votes, true, bound);
      VotesChange(m, votes, false, bound);
      assert m.rematches + [] == m.rematches;
    }
  }

  lemma HandleMessageKeeps(m: Match, env: Env, msg: Message, bound: nat, number: nat)
    requires Good2v2(m, bound) && bound < number
    ensures Keeps(m, HandleMessage(m, env, msg, number).0, number)
  {
    hide Good2v2, Keeps, HandleDispatch, HandleReady, HandleSurrender, HandleRematchVote;
    GoodShape(m, bound);
    GoodLater(m, bound, number);
    KeepsAlone(m, number);
    if msg.user in m.seats && msg.payload.Payload? {
      var k := m.seats[msg.user];
      HandleReadyKeeps(m, k, number);
      HandleSurrenderKeeps(m, env, k, number);
      HandleRematchVoteKeeps(m, env, k, number);
      if msg.payload.kind.DispatchKind? {
        HandleDispatchKeeps(m, k, msg.payload.kind.sequence, msg.payload.kind.source, msg.payload.kind.target, bound,
          number);
      }
    }
  }

  lemma {:induction false} HandleAllKeeps(m: Match, env: Env, messages: seq<Message>)
    requires Good2v2(m, m.serverSeq)
    ensures Keeps(m, HandleAll(m, env, messages), m.serverSeq + |messages|)
  {
    hide Good2v2, Keeps, HandleMessage;
    GoodShape(m, m.serverSeq);
    if messages == [] {
      KeepsAlone(m, m.serverSeq);
    } else {
      var last := |messages| - 1;
      var before := HandleAll(m, env, messages[..last]);
      HandleAllKeeps(m, env, messages[..last]);
      KeptGood(m, before, m.serverSeq + last);
      HandleMessageKeeps(before, env, messages[last], m.serverSeq + last, m.serverSeq + |messages|);
      KeepsOn(m, before, HandleAll(m, env, messages), m.serverSeq + last, m.serverSeq + |messages|);
    }
  }

  // ----- The loop

  /** The clock, the server sequence and the timers are read by nobody but the handlers. */
  lemma CountersChange(m: Match, tick: int, serverSeq: nat, bound: nat)
    requires Good2v2(m, bound) && m.tick <= tick
    ensures Keeps(m, m.(tick := tick, serverSeq := serverSeq), bound)
  {
    hide Seating, Faultless, Sorted, SlotCount, GoodInfo, Ended, RequestOf;
    var r := m.(tick := tick, serverSeq := serverSeq);
    SameRecord(r, m);
    StaysPut(m);
    EndedSame(m, r);
  }

  lemma EndedSame(a: Match, b: Match)
    requires a.slots == b.slots && a.battle == b.battle
    ensures Ended(a) <==> Ended(b)
  {
  }

  lemma ReceivedKeeps(m: Match, env: Env, messages: seq<Message>)
    requires Good2v2(m, m.serverSeq)
    ensures Keeps(m, Received(m, env, messages), m.serverSeq + |messages|)
  {
    hide Good2v2, Keeps, HandleAll;
    GoodShape(m, m.serverSeq);
    var handled := HandleAll(m, env, messages);
    var bound := m.serverSeq + |messages|;
    HandleAllKeeps(m, env, messages);
    KeptGood(m, handled, bound);
    CountersChange(handled, handled.tick, bound, bound);
    KeepsOn(m, handled, Received(m, env, messages), bound, bound);
  }

  lemma OpeningFacts(m: Match)
    requires Shape(m) && GoodInfo(m.info)
    ensures Opening(m).Ok? ==>
      var g := Opening(m).value;
      && g.status == Playing && g.stats == NO_STATS && "" !in g.territories
      && (InfoListed(m.info) ==> GoodBoard(g))
  {
    hide EquipAll, FirstSpawnFault;
    if m.info.arena.Some? {
      OpeningIff(m.info.arena.value, SPAWNS, SpeedModifiers(m.slots), BATTLE_SECONDS);
    }
  }

  lemma StartKeeps(m: Match, env: Env, bound: nat)
    requires Good2v2(m, bound) && m.stage == Countdown
    ensures Keeps(m, StartMatch(m, env), bound)
  {
    hide Seating, Faultless, Sorted, SlotCount, GoodInfo, Ended, RequestOf, Opening, InfoListed, GoodBoard;
    OpeningFacts(m);
    if Opening(m).Ok? {
      assert !m.settled;
    } else {
      CancelKeeps(m, bound);
    }
  }

  lemma LobbyKeeps(m: Match, env: Env, bound: nat)
    requires Good2v2(m, bound)
    ensures Keeps(m, Lobby(m, env), bound)
  {
    hide Good2v2, Keeps, StartMatch, AllJoined, AllReady, Cancel;
    GoodShape(m, bound);
    KeepsAlone(m, bound);
    if m.stage == Waiting {
      CountdownKeeps(m, m.tick + COUNTDOWN_TICKS, bound);
      CancelKeeps(m, bound);
    } else if m.stage == Countdown {
      StartKeeps(m, env, bound);
      CancelKeeps(m, bound);
    }
  }

  /** A step counts no units as sent, and a verdict it reaches is the rules' verdict on its result. */
  lemma StepVerdict(g: GameState, acc: Accumulators, delta: real)
    requires g.status == Playing
    ensures
      var h := Step(g, acc, delta).g;
      && h.stats.playerSent == g.stats.playerSent && h.stats.enemySent == g.stats.enemySent
      && h.territories.Keys == g.territories.Keys && h.board == g.board && h.status == RulesVerdict(h)
  {
    hide HandleArmies, Produce, Round, TowersOf, UnitsOf, HasArmy;
    var start := Phase(Tick(g, delta).(armies := []), acc);
    HandleArmiesFrame(start, g.armies, delta);
    HandleArmiesSent(start, g.armies, delta);
    var m := Marched(g, acc, delta);
    ProduceWritesTowers(m.g, m.acc, delta, g.board.order);
  }

  lemma HandleArmySent(p: Phase, a: Army, delta: real)
    ensures
      var q := HandleArmy(p, a, delta).g.stats;
      q.playerSent == p.g.stats.playerSent && q.enemySent == p.g.stats.enemySent
  {
    hide MoveArmy, ArrivalOutcome, StartRecovery, Fought;
    var (moved, arrived) := MoveArmy(p.g, a, delta);
    if arrived && moved.target in p.g.territories {
      var o := ArrivalOutcome(p.g, moved);
      FoughtStats(p.g, moved.target, o);
      var fought := Fought(p.g, moved.target, o);
      RecoveryFrame(p.(g := fought.(stats := CountCapture(fought.stats, o.owner))), moved.target);
    }
  }

  lemma FoughtStats(g: GameState, id: Id, o: Outcome)
    requires id in g.territories
    ensures Fought(g, id, o).stats == g.stats
  {
  }

  lemma {:induction false} HandleArmiesSent(p: Phase, armies: seq<Army>, delta: real)
    ensures
      var q := HandleArmies(p, armies, delta).g.stats;
      q.playerSent == p.g.stats.playerSent && q.enemySent == p.g.stats.enemySent
  {
    hide HandleArmy;
    if armies != [] {
      HandleArmiesSent(p, armies[..|armies| - 1], delta);
      HandleArmySent(HandleArmies(p, armies[..|armies| - 1], delta), armies[|armies| - 1], delta);
    }
  }

  lemma SteppedKept(m: Match, bound: nat)
    requires Good2v2(m, bound) && m.stage == Running
    ensures
      var r := StepBattle(m);
      Kept(r, bound) && r.battle.status == RulesVerdict(r.battle) && SlotsMove(m.slots, r.slots) && LogMoves(m, r)
        && BooksMove(m, r)
  {
    hide Seating, Faultless, Sorted, SlotCount, GoodInfo, Ended, RequestOf, Step, Verdict, InfoListed;
    StepVerdict(m.battle, m.acc, STEP_SECONDS);
  }

  lemma AdvanceKeeps2v2(m: Match, env: Env, bound: nat)
    requires Good2v2(m, bound) && m.stage == Running
    ensures Keeps(m, Advance2v2(m, env), bound)
  {
    hide Kept, Finish, Verdict, TeamDead, SlotsMove, LogMoves, BooksMove, Step;
    KeptShape(m, bound);
    SteppedKept(m, bound);
    var stepped := StepBattle(m);
    if stepped.battle.status != Playing {
      Concludes(m, stepped, env, bound);
    } else if env.now > stepped.deadline {
      StatusSet(stepped, Draw, bound);
      SameMoves(m, stepped, stepped.(battle := stepped.battle.(status := Draw)));
      Concludes(m, stepped.(battle := stepped.battle.(status := Draw)), env, bound);
    }
  }

  lemma SameMoves(a: Match, m: Match, r: Match)
    requires SlotsMove(a.slots, m.slots) && LogMoves(a, m) && BooksMove(a, m)
    requires r.slots == m.slots && r.log == m.log && r.info == m.info && r.settled == m.settled && r.ledger == m.ledger
    requires r.rematches == m.rematches && r.rematchMade == m.rematchMade && r.votes == m.votes
    ensures SlotsMove(a.slots, r.slots) && LogMoves(a, r) && BooksMove(a, r)
  {
  }

  lemma LoopLiveKeeps(m: Match, env: Env, messages: seq<Message>)
    requires Good2v2(m, m.serverSeq)
    ensures Keeps(m, LoopLive(m, env, messages), LoopLive(m, env, messages).serverSeq)
  {
    hide Good2v2, Keeps, EnforceGrace, Received, Lobby, Advance2v2, Forfeited;
    GoodShape(m, m.serverSeq);
    var graced := if m.stage == Running then EnforceGrace(m, env) else m;
    if m.stage == Running {
      EnforceGraceKeeps(m, env, m.serverSeq);
      GraceCounters(m, env);
    } else {
      KeepsAlone(m, m.serverSeq);
    }
    KeptGood(m, graced, m.serverSeq);
    if m.stage != Running || graced.stage == Running {
      var bound := m.serverSeq + |messages|;
      var received := Received(graced, env, messages);
      ReceivedKeeps(graced, env, messages);
      ReceivedCounters(graced, env, messages);
      KeepsOn(m, graced, received, m.serverSeq, bound);
      KeptGood(m, received, bound);
      if received.stage != Finished {
        var lobby := Lobby(received, env);
        LobbyKeeps(received, env, bound);
        LobbyCounters(received, env);
        KeepsOn(m, received, lobby, bound, bound);
        KeptGood(m, lobby, bound);
        if lobby.stage == Running {
          AdvanceKeeps2v2(lobby, env, bound);
          AdvanceCounters(lobby, env);
          KeepsOn(m, lobby, Advance2v2(lobby, env), bound, bound);
        }
      }
    }
  }

  lemma GraceCounters(m: Match, env: Env)
    requires Shape(m)
    ensures EnforceGrace(m, env).serverSeq == m.serverSeq && EnforceGrace(m, env).tick == m.tick
  {
    hide SettleFault, RequestOf, TeamDead;
  }

  lemma ReceivedCounters(m: Match, env: Env, messages: seq<Message>)
    requires Shape(m)
    ensures Received(m, env, messages).serverSeq == m.serverSeq + |messages|
  {
    hide HandleAll;
  }

  lemma LobbyCounters(m: Match, env: Env)
    requires Shape(m)
    ensures Lobby(m, env).serverSeq == m.serverSeq
  {
    hide Opening, AllJoined, AllReady;
  }

  lemma AdvanceCounters(m: Match, env: Env)
    requires Shape(m)
    ensures Advance2v2(m, env).serverSeq == m.serverSeq
  {
    hide SettleFault, RequestOf, Step;
  }

  lemma LoopKeeps(m: Match, tick: int, env: Env, messages: seq<Message>)
    requires Good2v2(m, m.serverSeq) && m.tick <= tick
    ensures Keeps(m, Loop(m, tick, env, messages), Loop(m, tick, env, messages).serverSeq)
  {
    hide Good2v2, Keeps, LoopLive, Finish;
    GoodShape(m, m.serverSeq);
    var now := m.(tick := tick);
    CountersChange(m, tick, m.serverSeq, m.serverSeq);
    KeptGood(m, now, m.serverSeq);
    if m.stage == Finished && !m.settled {
      if tick >= m.retryAt {
        RetryKeeps(now, env);
        KeepsOn(m, now, Finish(now, env), m.serverSeq, m.serverSeq);
      }
    } else if m.stage != Cancelled {
      LoopLiveKeeps(now, env, messages);
      KeepsOn(m, now, LoopLive(now, env, messages), m.serverSeq, LoopLive(now, env, messages).serverSeq);
    }
  }

  lemma RetryKeeps(m: Match, env: Env)
    requires Good2v2(m, m.serverSeq) && m.stage == Finished
    ensures Keeps(m, Finish(m, env), m.serverSeq) && Finish(m, env).serverSeq == m.serverSeq
  {
    hide Kept, Ended, SettleFault, RequestOf;
    StaysPut(m);
    Concludes(m, m, env, m.serverSeq);
  }

  // ----- Every run

  /** Loops come with ticks that never go back. */
  ghost predicate InTickOrder2v2(from: int, events: seq<Event>) {
    && (forall i :: 0 <= i < |events| && events[i].Loops? ==> from <= events[i].loopTick)
    && forall i, j :: 0 <= i < j < |events| && events[i].Loops? && events[j].Loops? ==>
      events[i].loopTick <= events[j].loopTick
  }

  lemma ApplyKeeps(m: Match, e: Event)
    requires Good2v2(m, m.serverSeq) && (e.Loops? ==> m.tick <= e.loopTick)
    ensures Keeps(m, Apply(m, e), Apply(m, e).serverSeq)
  {
    hide Good2v2, Keeps, Join, Leave, Loop, Cancel;
    GoodShape(m, m.serverSeq);
    match e
    case Joins(tick, presences) =>
      JoinKeeps(m, tick, presences, m.serverSeq);
      JoinCounters(m, tick, presences);
    case Leaves(now, presences) =>
      KeepsAlone(m, m.serverSeq);
      LeaveEachKeeps(m, presences, now, m.serverSeq);
      LeaveCounters(m, presences, now);
    case Loops(tick, env, messages) =>
      LoopKeeps(m, tick, env, messages);
    case Shutdown =>
      KeepsAlone(m, m.serverSeq);
      TerminateKeeps(m);
  }

  lemma TerminateKeeps(m: Match)
    requires Good2v2(m, m.serverSeq)
    ensures Keeps(m, Terminate(m), Terminate(m).serverSeq)
  {
    hide Good2v2, Keeps;
    KeepsAlone(m, m.serverSeq);
    if !Over(m.stage) {
      CancelKeeps(m, m.serverSeq);
    }
  }

  lemma {:induction false} JoinEachCounters(m: Match, presences: seq<Presence>)
    requires Shape(m)
    ensures JoinEach(m, presences).serverSeq == m.serverSeq && JoinEach(m, presences).tick == m.tick
  {
    if presences != [] {
      JoinEachCounters(m, presences[..|presences| - 1]);
    }
  }

  lemma JoinCounters(m: Match, tick: int, presences: seq<Presence>)
    requires Shape(m)
    ensures Join(m, tick, presences).serverSeq == m.serverSeq && Join(m, tick, presences).tick == m.tick
  {
    hide JoinEach, AllJoined;
    JoinEachCounters(m, presences);
  }

  lemma {:induction false} LeaveEachCounters(m: Match, presences: seq<Presence>, now: real)
    requires Shape(m)
    ensures LeaveEach(m, presences, now).serverSeq == m.serverSeq && LeaveEach(m, presences, now).tick == m.tick
  {
    if presences != [] {
      LeaveEachCounters(m, presences[..|presences| - 1], now);
    }
  }

  lemma LeaveCounters(m: Match, presences: seq<Presence>, now: real)
    requires Shape(m)
    ensures
      var r := Leave(m, presences, now);
      && r.serverSeq == m.serverSeq && r.tick == m.tick && (Over(m.stage) ==> r == m)
        && (!Over(m.stage) ==> r == LeaveEach(m, presences, now))
  {
    hide LeaveEach;
    LeaveEachCounters(m, presences, now);
  }
}
