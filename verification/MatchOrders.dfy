/** What a player's messages achieve in a match that keeps its invariant: which are accepted, and what
    each accepted one changes. */
module MatchOrders {
  import opened Text
  import opened Sorting
  import opened World
  import opened BattleRules
  import opened OrderLaws
  import opened Canonical
  import opened Simulation2v2
  import opened MatchSlots
  import opened MatchRules
  import opened MatchLaws

  ghost predicate Lawful(m: Match) {
    exists bound: nat :: Good2v2(m, bound)
  }

  function Side(k: nat): Team {
    if k < 2 then Player else Enemy
  }

  // ----- Dispatches

  /** A command of the slot is accepted now: the battle runs, the slot is alive, the command is the next
      one the log lacks of it, the log has room, and the slot's side can make the send. */
  ghost predicate Accepts(m: Match, k: nat, sequence: int, source: Id, target: Id)
    requires Shape(m) && k < SLOT_COUNT
  {
    && m.stage == Running && !m.slots[k].surrendered && !m.slots[k].abandoned
    && sequence == SlotCount(m.log, k) && |m.log| < DEFAULT_MAX_ACTIONS
    && CanDispatch(m.battle, source, target, Side(k))
  }

  /** The log gains exactly this command, half of the garrison marches for the slot's side at the slot's
      speed, and the slot has sent that many more units. */
  ghost predicate Recorded(m: Match, r: Match, k: nat, sequence: int, source: Id, target: Id, number: nat)
    requires Shape(m) && k < SLOT_COUNT
  {
    && source in m.battle.territories
    && Dispatched(m.battle, r.battle, source, target, Side(k), m.slots[k].career.modifiers.speed)
    && r == m.(
         battle := r.battle,
         slots := m.slots[k := m.slots[k].(nextSeq := m.slots[k].nextSeq + 1)],
         log := m.log + [SlotAction(SCHEMA_VERSION, m.tick, number, k, sequence, source, target)],
         sent := m.sent[k := m.sent[k] + m.battle.territories[source].units / 2])
  }

  lemma LoggedRecords(m: Match, k: nat, sequence: int, source: Id, target: Id, number: nat, battle: GameState)
    requires Shape(m) && k < SLOT_COUNT
    requires Dispatched(m.battle, battle, source, target, Side(k), m.slots[k].career.modifiers.speed)
    ensures source in m.battle.territories && source in battle.territories
    ensures Recorded(m, Logged(m, k, sequence, source, target, number, battle), k, sequence, source, target, number)
  {
    hide JustLeft;
  }

  /** The reason for refusing it: the first of these that holds. */
  function WhyNot(m: Match, k: nat, sequence: int, source: Id, target: Id): Code
    requires Shape(m) && k < SLOT_COUNT
  {
    if m.stage != Running then NotStarted
    else if m.slots[k].surrendered || m.slots[k].abandoned then SlotDisconnected
    else if sequence != SlotCount(m.log, k) then InvalidSequence
    else if |m.log| >= DEFAULT_MAX_ACTIONS then LogFull
    else if source !in m.battle.territories then BadSource
    else if target !in m.battle.territories then BadTarget
    else BadDispatch
  }

  /** Of the slot whose session is listened to, a dispatch is accepted exactly then, and otherwise
      changes nothing. */
  lemma DispatchAcceptedIff(m: Match, k: nat, sequence: int, source: Id, target: Id, number: nat)
    requires Lawful(m)
    ensures Shape(m)
    ensures k < SLOT_COUNT && m.slots[k].session.Some? ==>
      var (r, reply) := HandleDispatch(m, k, sequence, source, target, number);
      if Accepts(m, k, sequence, source, target)
      then reply == Accepted(sequence, k) && Recorded(m, r, k, sequence, source, target, number)
      else reply == Rejected(WhyNot(m, k, sequence, source, target)) && r == m
  {
    hide Dispatch, CanDispatch, Dispatched, Recorded, Seating, GoodTotals, GoodBooks, GoodVerdict, Sorted, Faultless;
    hide SlotCount, Logged;
    if k < SLOT_COUNT && m.slots[k].session.Some? {
      var speed := m.slots[k].career.modifiers.speed;
      DispatchIff(m.battle, source, target, Side(k), speed);
      var sent := Dispatch(m.battle, source, target, Side(k), speed);
      assert SideForSlot(k) == Side(k);
      CanNeeds(m.battle, source, target, Side(k));
      KnownTowers(m.battle, source, target, Side(k), speed);
      if sent.Ok? {
        LoggedRecords(m, k, sequence, source, target, number, sent.value);
      }
    }
  }

  lemma KnownTowers(g: GameState, source: Id, target: Id, team: Team, multiplier: real)
    ensures
      var r := Dispatch(g, source, target, team, multiplier);
      r.Err? && source in g.territories && target in g.territories ==> r.error == DispatchError.InvalidDispatch
  {
    hide Sent;
    RouteLength(g, source, target, team);
  }

  lemma CanNeeds(g: GameState, source: Id, target: Id, team: Team)
    ensures CanDispatch(g, source, target, team) ==> source in g.territories && target in g.territories
  {
  }

  /** The message comes from the session that holds the user's slot. */
  predicate Heard(m: Match, msg: Message)
    requires Shape(m)
  {
    msg.user in m.seats && m.slots[m.seats[msg.user]].session == Some(msg.session)
  }

  /** A dispatch message is accepted exactly if it is heard, and its slot's command is accepted. */
  lemma DispatchMessageIff(m: Match, env: Env, msg: Message, number: nat, sequence: int, source: Id, target: Id)
    requires Lawful(m) && msg.payload == Payload(SCHEMA_VERSION, DispatchKind(sequence, source, target))
    ensures Shape(m)
    ensures
      var (r, reply) := HandleMessage(m, env, msg, number);
      if Heard(m, msg) && Accepts(m, m.seats[msg.user], sequence, source, target)
      then reply == Accepted(sequence, m.seats[msg.user])
        && Recorded(m, r, m.seats[msg.user], sequence, source, target, number)
      else reply.Rejected? && r == m
  {
    hide Lawful, HandleDispatch, Accepts, Recorded;
    LawfulShape(m);
    if Heard(m, msg) {
      DispatchAcceptedIff(m, m.seats[msg.user], sequence, source, target, number);
    }
  }

  lemma LawfulShape(m: Match)
    requires Lawful(m)
    ensures Shape(m)
  {
    hide GoodLog, GoodTotals, GoodBooks, GoodVerdict, Seating;
  }

  // ----- Surrender

  /** Both slots of the team are gone. */
  predicate BothGone(slots: seq<Slot>, first: nat)
    requires first + 1 < |slots|
  {
    && (slots[first].surrendered || slots[first].abandoned)
    && (slots[first + 1].surrendered || slots[first + 1].abandoned)
  }

  /** Settled if the store agrees, with a rematch window of 200 ticks, and else to be tried again 20 ticks
      later. */
  predicate SettledFrom(m: Match, env: Env, r: Match) {
    && r.stage == Finished && r.settled == env.settles
    && if env.settles then r.rematchEnds == m.tick + 200 else r.retryAt == m.tick + 20
  }

  /** The running match with these slots: lost by a team that is gone, team A looked at first, and settled
      then if the store agrees; or just that match. */
  ghost predicate ForfeitChecked(m: Match, slots: seq<Slot>, env: Env, r: Match)
    requires |slots| == SLOT_COUNT
  {
    if BothGone(slots, 0) || BothGone(slots, 2) then
      && SettledFrom(m, env, r) && r.slots == slots && r.log == m.log && r.sent == m.sent
      && r.battle == m.battle.(status := if BothGone(slots, 0) then Defeat else Victory)
    else r == m.(slots := slots)
  }

  lemma GoneIff(slots: seq<Slot>)
    requires |slots| == SLOT_COUNT
    ensures TeamDead(slots, TeamA) <==> BothGone(slots, 0)
    ensures TeamDead(slots, TeamB) <==> BothGone(slots, 2)
  {
    assert TeamForSlot(0) == TeamA && TeamForSlot(1) == TeamA && TeamForSlot(2) == TeamB && TeamForSlot(3) == TeamB;
  }

  lemma ForfeitIff(m: Match, slots: seq<Slot>, env: Env, bound: nat)
    requires Good2v2(m.(slots := slots), bound) && m.stage == Running
    ensures Shape(m.(slots := slots)) && |slots| == SLOT_COUNT
    ensures ForfeitChecked(m, slots, env, CheckForfeit(m.(slots := slots), env))
  {
    hide Seating, Faultless, Sorted, SlotCount, GoodInfo, Verdict, SettleFault, TeamDead, RequestOf, BothGone;
    var now := m.(slots := slots);
    GoneIff(slots);
    if BothGone(slots, 0) {
      Settles(now.(battle := now.battle.(status := Defeat)), env);
    } else if BothGone(slots, 2) {
      Settles(now.(battle := now.battle.(status := Victory)), env);
    }
  }

  lemma Settles(m: Match, env: Env)
    requires Members(m) && GoodInfo(m.info) && m.battle.status != Playing && !m.settled
    ensures
      var r := Finish(m, env);
      && SettledFrom(m, env, r) && r.slots == m.slots && r.battle == m.battle && r.log == m.log && r.sent == m.sent
  {
    hide SettleFault, RequestOf, Seating;
    RequestAccepted(m);
  }

  /** A heard surrender cancels a match that has not begun, removes the slot from one that runs, which
      may lose it, and is refused after that. */
  lemma SurrenderIff(m: Match, env: Env, msg: Message, number: nat)
    requires Lawful(m) && msg.payload == Payload(SCHEMA_VERSION, SurrenderKind)
    ensures Shape(m)
    ensures
      var (r, reply) := HandleMessage(m, env, msg, number);
      if !Heard(m, msg) || Over(m.stage) then r == m && reply.Rejected?
      else if m.stage != Running then r == m.(stage := Cancelled) && reply == Silent
      else
        var k := m.seats[msg.user];
        var gone := m.slots[k].(surrendered := true, connected := false, session := None);
        ForfeitChecked(m, m.slots[k := gone], env, r) && reply == Silent
  {
    hide Good2v2, CheckForfeit, ForfeitChecked;
    var bound: nat :| Good2v2(m, bound);
    GoodShape(m, bound);
    if Heard(m, msg) && m.stage == Running {
      var k := m.seats[msg.user];
      var gone := m.slots[k].(surrendered := true, connected := false, session := None);
      SlotStays(m, k, gone, bound);
      ForfeitIff(m, m.slots[k := gone], env, bound);
      HeldIsConnected(m, k, bound);
    }
  }

  lemma SlotStays(m: Match, k: nat, s: Slot, bound: nat)
    requires Good2v2(m, bound) && k < SLOT_COUNT && |m.slots| == SLOT_COUNT && SameSlotPlayer(m.slots[k], s)
    requires m.stage == Finished ==> (Dead(s) <==> Dead(m.slots[k]))
    ensures Good2v2(m.(slots := m.slots[k := s]), bound)
  {
    hide Good2v2, Moves, SameSlotPlayer, Dead;
    GoodShape(m, bound);
    OneSlotChanges(m, k, s, bound);
    KeptGood(m, WithSlot(m, k, s), bound);
  }

  lemma HeldIsConnected(m: Match, k: nat, bound: nat)
    requires Good2v2(m, bound) && k < SLOT_COUNT
    ensures |m.slots| == SLOT_COUNT && (m.slots[k].connected <==> m.slots[k].session.Some?)
  {
    hide GoodLog, GoodTotals, GoodBooks, GoodVerdict, Seating;
  }

  // ----- Votes

  /** A heard vote counts within the window of a settled match without rematch, once a slot; the fourth
      creates the rematch if creation goes through. Any other vote changes nothing. */
  lemma VoteIff(m: Match, env: Env, msg: Message, number: nat)
    requires Lawful(m) && msg.payload == Payload(SCHEMA_VERSION, RematchKind)
    ensures Shape(m)
    ensures
      var (r, reply) := HandleMessage(m, env, msg, number);
      if Heard(m, msg) && m.settled && !m.rematchMade && m.tick < m.rematchEnds && !m.votes[m.seats[msg.user]] then
        var votes := m.votes[m.seats[msg.user] := true];
        var fourth := votes == [true, true, true, true] && env.creates;
        && reply == Silent
        && r == m.(votes := votes, rematchMade := fourth,
                   rematches := if fourth then [UserIds(m.slots)] else m.rematches)
      else r == m && reply.Rejected?
  {
    hide GoodLog, GoodTotals, GoodVerdict, Seating, RequestOf;
    LawfulShape(m);
    assert m.settled ==> m.stage == Finished;
    assert !m.rematchMade ==> m.rematches == [];
    if Heard(m, msg) {
      var votes := m.votes[m.seats[msg.user] := true];
      assert (forall i :: 0 <= i < |votes| ==> votes[i]) <==> votes == [true, true, true, true];
      assert m.(votes := votes).votes == votes;
    }
  }

  // ----- Joining and leaving

  /** Admitted is exactly who may come back to a living slot of its own, or is let in and owns a slot that
      waits for it, as long as the match is not over. */
  lemma AdmissionIff(m: Match, user: Id)
    requires Shape(m)
    ensures JoinAttempt(m, user) == None <==>
      && m.stage != Finished && m.stage != Cancelled
      && if user in m.seats then !m.slots[m.seats[user]].surrendered && !m.slots[m.seats[user]].abandoned
         else
           && (m.info.allowed == [] || user in m.info.allowed)
           && exists k :: 0 <= k < SLOT_COUNT && m.slots[k].user == user && m.slots[k].session == None
  {
    EmptySlotFound(m.slots, user, 0);
  }

  /** The slot the presence takes: its user's own one, or else one that waits for the user. */
  predicate MaySit(m: Match, p: Presence, k: nat) {
    && k < |m.slots|
    && if p.user in m.seats then m.seats[p.user] == k else m.slots[k].user == p.user && m.slots[k].session == None
  }

  /** The first such slot is held by the newest session; nobody else sits down. */
  ghost predicate SitsDown(m: Match, r: Match, p: Presence) {
    if exists k: nat :: MaySit(m, p, k) then
      exists k: nat ::
        && MaySit(m, p, k) && (forall j: nat :: j < k ==> !MaySit(m, p, j))
        && r == m.(slots := m.slots[k := m.slots[k].(session := Some(p.session), connected := true,
                                                     disconnectedAt := None)],
                   seats := m.seats[p.user := k])
    else r == m
  }

  ghost predicate Sitting(m: Match, presences: seq<Presence>, states: seq<Match>) {
    && |states| == |presences| + 1 && states[0] == m
    && forall i :: 0 <= i < |presences| ==> SitsDown(states[i], states[i + 1], presences[i])
  }

  lemma {:induction false} FirstWaiting(slots: seq<Slot>, user: Id, k: nat)
    requires k <= |slots|
    ensures
      var r := EmptySlotFrom(slots, user, k);
      r.Some? ==> forall j :: k <= j < r.value && j < |slots| ==>
        !(slots[j].user == user && slots[j].session == None)
    decreases |slots| - k
  {
    if k < |slots| && !(slots[k].user == user && slots[k].session == None) {
      EmptySlotFound(slots, user, k + 1);
      FirstWaiting(slots, user, k + 1);
    }
  }

  lemma OneSitsDown(m: Match, p: Presence)
    requires Shape(m)
    ensures SitsDown(m, JoinOne(m, p), p)
  {
    EmptySlotFound(m.slots, p.user, 0);
    FirstWaiting(m.slots, p.user, 0);
    if p.user in m.seats {
      assert MaySit(m, p, m.seats[p.user]);
      assert m.seats[p.user := m.seats[p.user]] == m.seats;
    } else if EmptySlotFor(m.slots, p.user).Some? {
      assert MaySit(m, p, EmptySlotFor(m.slots, p.user).value);
    }
  }

  lemma {:induction false} EachSitsDown(m: Match, presences: seq<Presence>) returns (states: seq<Match>)
    requires Shape(m)
    ensures Sitting(m, presences, states) && states[|presences|] == JoinEach(m, presences)
  {
    hide SitsDown, JoinOne;
    states := [m];
    if presences != [] {
      var front, p := presences[..|presences| - 1], presences[|presences| - 1];
      var before := EachSitsDown(m, front);
      var joined := JoinEach(m, front);
      OneSitsDown(joined, p);
      states := before + [JoinOne(joined, p)];
      forall i | 0 <= i < |presences| ensures SitsDown(states[i], states[i + 1], presences[i]) {
        if i < |front| {
          assert front[i] == presences[i];
        }
      }
    }
  }

  /** Those who join sit down one after the other, the newest session of a user last; a waiting match whose
      slots are all held then counts down from 200 ticks. */
  lemma JoinIff(m: Match, tick: int, presences: seq<Presence>)
    requires Shape(m)
    ensures exists states: seq<Match> ::
      && Sitting(m, presences, states)
      && var seated := states[|presences|];
         var starts := seated.stage == Waiting
           && forall k :: 0 <= k < |seated.slots| ==> seated.slots[k].session.Some?;
         Join(m, tick, presences) == if starts then seated.(stage := Countdown, countdownEnds := tick + 200)
           else seated
  {
    hide JoinEach, SitsDown;
    var states := EachSitsDown(m, presences);
  }

  /** One of the presences holds the slot in its session. */
  predicate LeavesSlot(m: Match, presences: seq<Presence>, k: nat)
    requires k < |m.slots|
  {
    exists i :: 0 <= i < |presences| && HoldsSlot(m, presences[i], k)
  }

  predicate HoldsSlot(m: Match, p: Presence, k: nat)
    requires k < |m.slots|
  {
    p.user in m.seats && m.seats[p.user] == k && m.slots[k].session == Some(p.session)
  }

  function AfterLeaving(s: Slot, leaves: bool, now: real): Slot {
    if leaves then s.(session := None, connected := false, disconnectedAt := Some(now)) else s
  }

  lemma {:induction false} LeaveEachIff(m: Match, presences: seq<Presence>, now: real)
    requires Shape(m)
    ensures
      var r := LeaveEach(m, presences, now);
      && r == m.(slots := r.slots)
      && forall k :: 0 <= k < SLOT_COUNT ==> r.slots[k] == AfterLeaving(m.slots[k], LeavesSlot(m, presences, k), now)
  {
    hide HoldsSlot;
    if presences != [] {
      var front, p := presences[..|presences| - 1], presences[|presences| - 1];
      assert presences == front + [p];
      LeaveEachIff(m, front, now);
      var before := LeaveEach(m, front, now);
      forall k | 0 <= k < SLOT_COUNT
        ensures LeaveEach(m, presences, now).slots[k] == AfterLeaving(m.slots[k], LeavesSlot(m, presences, k), now)
      {
        OneMoreLeaves(m, front, p, k);
        OneLeaves(before, p, now, k);
        SameHold(m, before, p, k, LeavesSlot(m, front, k), now);
      }
    }
  }

  lemma OneMoreLeaves(m: Match, front: seq<Presence>, p: Presence, k: nat)
    requires k < |m.slots|
    ensures LeavesSlot(m, front + [p], k) <==> LeavesSlot(m, front, k) || HoldsSlot(m, p, k)
  {
    hide HoldsSlot;
    var all := front + [p];
    assert all[|front|] == p;
    if i :| 0 <= i < |front| && HoldsSlot(m, front[i], k) {
      assert all[i] == front[i];
    }
  }

  lemma OneLeaves(m: Match, p: Presence, now: real, k: nat)
    requires Shape(m) && k < SLOT_COUNT
    ensures LeaveOne(m, p, now).slots[k] == AfterLeaving(m.slots[k], HoldsSlot(m, p, k), now)
    ensures LeaveOne(m, p, now) == m.(slots := LeaveOne(m, p, now).slots)
  {
  }

  lemma SameHold(m: Match, before: Match, p: Presence, k: nat, left: bool, now: real)
    requires Shape(m) && Shape(before) && k < SLOT_COUNT && before.seats == m.seats
    requires before.slots[k] == AfterLeaving(m.slots[k], left, now)
    ensures AfterLeaving(before.slots[k], HoldsSlot(before, p, k), now)
      == AfterLeaving(m.slots[k], left || HoldsSlot(m, p, k), now)
  {
  }

  /** Leaving empties exactly the slots whose sessions leave, from now on, while the match is not over. */
  lemma LeaveIff(m: Match, presences: seq<Presence>, now: real)
    requires Shape(m)
    ensures
      var r := Leave(m, presences, now);
      && r == m.(slots := r.slots)
      && forall k :: 0 <= k < SLOT_COUNT ==>
           r.slots[k] == AfterLeaving(m.slots[k], !Over(m.stage) && LeavesSlot(m, presences, k), now)
  {
    hide LeaveEach, LeavesSlot;
    LeaveEachIff(m, presences, now);
  }

  // ----- The opening

  const BASES := ["a_base_w", "a_base_e", "b_base_e", "b_base_w"]

  predicate BasesHeld(towers: map<Id, Territory>) {
    forall k :: 0 <= k < |BASES| ==> BASES[k] in towers && towers[BASES[k]].owner == (if k < 2 then Player else Enemy)
  }

  /** The base has the garrison of the player and the production times the player's. */
  ghost predicate BaseEquipped(towers: map<Id, Territory>, with: Modifiers, base: Id, after: map<Id, Territory>) {
    && base in towers && base in after
    && after[base] == towers[base].(units := with.startingUnits,
                                     productionRate := towers[base].productionRate * with.production)
  }

  /** The battle opens exactly if there is a battlefield whose four bases belong to the sides of their slots;
      then each base has the garrison and the production of its own slot's player, every other tower is as on
      the battlefield, and there are 90 seconds on the clock. */
  lemma OpeningIs(m: Match)
    requires Shape(m)
    ensures Opening(m).Ok? <==> m.info.arena.Some? && BasesHeld(m.info.arena.value.territories)
    ensures Opening(m).Ok? ==>
      var g, towers := Opening(m).value, m.info.arena.value.territories;
      && g.status == Playing && g.elapsed == 0.0 && g.limit == 90.0 && g.rules == 2 && g.armies == []
      && g.territories.Keys == towers.Keys
      && (forall id :: id in towers && id !in BASES ==> g.territories[id] == towers[id])
      && forall k :: 0 <= k < SLOT_COUNT ==> BaseEquipped(towers, m.slots[k].career.modifiers, BASES[k], g.territories)
  {
    hide CreateInitial, GoodSpawn, BaseEquipped, BasesHeld;
    if m.info.arena.Some? {
      var arena, modifiers := m.info.arena.value, SpeedModifiers(m.slots);
      OpeningIff(arena, SPAWNS, modifiers, BATTLE_SECONDS);
      SpawnsGood(arena.territories);
      if Opening(m).Ok? {
        EquippedBases(m, arena.territories, Opening(m).value.territories);
      }
    }
  }

  lemma BasesAre()
    ensures |SPAWNS| == |BASES| == SLOT_COUNT
    ensures forall k :: 0 <= k < SLOT_COUNT ==> SPAWNS[k].tower == BASES[k] && SPAWNS[k].slot == k
  {
  }

  lemma EquippedBases(m: Match, towers: map<Id, Territory>, after: map<Id, Territory>)
    requires Shape(m) && Equips(towers, SPAWNS, SpeedModifiers(m.slots), after)
    ensures forall k :: 0 <= k < SLOT_COUNT ==> BaseEquipped(towers, m.slots[k].career.modifiers, BASES[k], after)
    ensures after.Keys == towers.Keys
    ensures forall id :: id in towers && id !in BASES ==> after[id] == towers[id]
  {
    hide BaseEquipped, EquippedAt, SpeedModifiers;
    forall k | 0 <= k < SLOT_COUNT ensures BaseEquipped(towers, m.slots[k].career.modifiers, BASES[k], after) {
      OneBase(m, towers, after, k);
    }
    forall id | id in towers && id !in BASES ensures after[id] == towers[id] {
      NotASpawn(id);
    }
  }

  lemma OneBase(m: Match, towers: map<Id, Territory>, after: map<Id, Territory>, k: nat)
    requires Shape(m) && k < SLOT_COUNT && |SPAWNS| == SLOT_COUNT
    requires EquippedAt(towers, SPAWNS[k], SpeedModifiers(m.slots), after)
    ensures BaseEquipped(towers, m.slots[k].career.modifiers, BASES[k], after)
  {
    BasesAre();
    var modifiers := SpeedModifiers(m.slots);
    assert k in modifiers && modifiers[k] == m.slots[k].career.modifiers;
  }

  lemma NotASpawn(id: Id)
    requires id !in BASES
    ensures forall k :: 0 <= k < |SPAWNS| ==> SPAWNS[k].tower != id
  {
    BasesAre();
    assert forall k :: 0 <= k < |BASES| ==> BASES[k] in BASES;
  }

  lemma BasesDiffer()
    ensures forall j, k :: 0 <= j < k < SLOT_COUNT ==> SPAWNS[j].tower != SPAWNS[k].tower
  {
    assert SPAWNS[0].tower[0] == SPAWNS[1].tower[0] == 'a' && SPAWNS[2].tower[0] == SPAWNS[3].tower[0] == 'b';
    assert SPAWNS[0].tower[7] == SPAWNS[3].tower[7] == 'w' && SPAWNS[1].tower[7] == SPAWNS[2].tower[7] == 'e';
  }

  lemma SpawnsGood(towers: map<Id, Territory>)
    ensures |SPAWNS| == SLOT_COUNT
    ensures (forall k :: 0 <= k < |SPAWNS| ==> GoodSpawn(towers, SPAWNS, k)) <==> BasesHeld(towers)
  {
    BasesAre();
    BasesDiffer();
    forall k | 0 <= k < SLOT_COUNT
      ensures GoodSpawn(towers, SPAWNS, k) <==>
        BASES[k] in towers && towers[BASES[k]].owner == (if k < 2 then Player else Enemy)
    {
      assert SPAWNS[k].slot == k;
    }
  }

  // ----- Quiet loops

  /** A lobby nobody talks to starts its countdown once all four are in, and is cancelled when its time
      runs out before. */
  lemma WaitingIff(m: Match, tick: int, env: Env)
    requires Shape(m) && m.stage == Waiting
    ensures
      var r := Loop(m, tick, env, []);
      if AllJoined(m) then r == m.(tick := tick, stage := Countdown, countdownEnds := tick + 200)
      else if tick >= m.waitingEnds then r == m.(tick := tick, stage := Cancelled)
      else r == m.(tick := tick)
  {
    hide AllJoined;
    var now := m.(tick := tick);
    assert AllJoined(now) == AllJoined(m) by { SameJoined(m, tick); }
    assert now.(serverSeq := now.serverSeq) == now;
  }

  lemma SameJoined(m: Match, tick: int)
    ensures AllJoined(m.(tick := tick)) == AllJoined(m)
  {
  }

  /** What thirty seconds away do to a slot. */
  predicate RanOut(s: Slot, now: real) {
    && !s.connected && !s.surrendered && !s.abandoned
    && s.disconnectedAt.Some? && now - s.disconnectedAt.value > 30.0
  }

  function Checked(slots: seq<Slot>, now: real): (r: seq<Slot>)
    ensures |r| == |slots|
    ensures forall k :: 0 <= k < |r| ==> r[k] == if RanOut(slots[k], now) then slots[k].(abandoned := true)
      else slots[k]
  {
    seq(|slots|, k requires 0 <= k < |slots| => if RanOut(slots[k], now) then slots[k].(abandoned := true)
      else slots[k])
  }

  /** One step of the battle, and its end by its verdict or, past the deadline, in a draw. */
  ghost predicate SteppedOn(m: Match, slots: seq<Slot>, tick: int, env: Env, r: Match) {
    var p := Step(m.battle, m.acc, 0.05);
    var status := if p.g.status == Playing && env.now > m.deadline then Draw else p.g.status;
    && r.slots == slots && r.battle == p.g.(status := status) && r.log == m.log && r.sent == m.sent
    && (if status == Playing then r == m.(tick := tick, slots := slots, battle := p.g, acc := p.acc)
        else SettledFrom(m.(tick := tick), env, r))
  }

  /** A loop without messages of a running match abandons the slots away too long; a team both of whose
      slots are gone then loses; otherwise the battle makes a step, and the match ends exactly with the
      battle or past the deadline. */
  lemma QuietLoop(m: Match, tick: int, env: Env)
    requires Good2v2(m, m.serverSeq) && m.stage == Running && m.tick <= tick
    ensures Shape(m)
    ensures
      var r, slots := Loop(m, tick, env, []), Checked(m.slots, env.now);
      if BothGone(slots, 0) || BothGone(slots, 2) then ForfeitChecked(m.(tick := tick), slots, env, r)
      else SteppedOn(m, slots, tick, env, r)
  {
    hide Good2v2, CheckForfeit, ForfeitChecked, SteppedOn, Checked, Advance2v2, BothGone;
    GoodShape(m, m.serverSeq);
    var now, slots := m.(tick := tick), Checked(m.slots, env.now);
    GraceIs(m.slots, env.now);
    CountersChange(m, tick, m.serverSeq, m.serverSeq);
    KeptGood(m, now, m.serverSeq);
    ExpireGood(now, env.now, m.serverSeq);
    ForfeitIff(now, slots, env, m.serverSeq);
    var graced := now.(slots := slots);
    if BothGone(slots, 0) || BothGone(slots, 2) {
      ForfeitStops(now, slots, env, CheckForfeit(graced, env));
    } else {
      ForfeitGoesOn(now, slots, env, CheckForfeit(graced, env));
      assert Received(graced, env, []) == graced;
      AdvanceIff(graced, env, m.serverSeq);
      SteppedSame(m, slots, tick, env, Advance2v2(graced, env));
    }
  }

  lemma GraceIs(slots: seq<Slot>, now: real)
    ensures ExpireAll(slots, now) == Checked(slots, now)
  {
  }

  lemma ExpireGood(m: Match, now: real, bound: nat)
    requires Good2v2(m, bound) && m.stage == Running
    ensures Good2v2(m.(slots := Checked(m.slots, now)), bound)
  {
    hide GoodLog, GoodTotals, GoodBooks, GoodVerdict, Keeps;
    var slots := Checked(m.slots, now);
    SlotsChange(m, slots, bound);
    KeptGood(m, m.(slots := slots), bound);
  }

  lemma ForfeitStops(m: Match, slots: seq<Slot>, env: Env, r: Match)
    requires |slots| == SLOT_COUNT && ForfeitChecked(m, slots, env, r) && (BothGone(slots, 0) || BothGone(slots, 2))
    ensures r.stage == Finished
  {
  }

  lemma ForfeitGoesOn(m: Match, slots: seq<Slot>, env: Env, r: Match)
    requires |slots| == SLOT_COUNT && ForfeitChecked(m, slots, env, r) && !(BothGone(slots, 0) || BothGone(slots, 2))
    ensures r == m.(slots := slots)
  {
  }

  lemma AdvanceIff(m: Match, env: Env, bound: nat)
    requires Good2v2(m, bound) && m.stage == Running
    ensures Shape(m) && SteppedOn(m, m.slots, m.tick, env, Advance2v2(m, env))
  {
    hide Step, Finish, Verdict, Seating, Faultless, Sorted, SlotCount, GoodInfo, RequestOf, TeamDead;
    GoodShape(m, bound);
    assert m.battle.status == Playing && !m.settled;
    var stepped := StepBattle(m);
    if stepped.battle.status != Playing {
      Settles(stepped, env);
    } else if env.now > m.deadline {
      Settles(stepped.(battle := stepped.battle.(status := Draw)), env);
    }
  }

  lemma SteppedSame(m: Match, slots: seq<Slot>, tick: int, env: Env, r: Match)
    requires SteppedOn(m.(tick := tick, slots := slots), slots, tick, env, r)
    ensures SteppedOn(m, slots, tick, env, r)
  {
    hide Step;
  }
}
