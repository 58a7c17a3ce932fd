/** The four slots of a match: seating after the draft, and the exact reseating of a rematch. */
module MatchSlots {
  import opened Text
  import opened World
  import opened Routes
  import opened Canonical
  import opened Simulation2v2
  import opened Draft

  datatype Career = Career(trophies: int, modifiers: Modifiers)

  const NO_CAREER := Career(0, NO_MODIFIERS)

  /** `session` is the session that holds the slot, absent while disconnected. */
  datatype Slot = Slot(
    user: Id, career: Career, team: TeamId, base: Id, nextSeq: nat, session: Option<string>, connected: bool,
    disconnectedAt: Option<real>, abandoned: bool, surrendered: bool, ready: bool)

  const SPAWNS := [Spawn(0, "a_base_w"), Spawn(1, "a_base_e"), Spawn(2, "b_base_e"), Spawn(3, "b_base_w")]

  function BaseOf(slot: nat): Id {
    if slot < |SPAWNS| then SPAWNS[slot].tower else ""
  }

  function CareerOf(careers: map<Id, Career>, user: Id): Career {
    if user in careers then careers[user] else NO_CAREER
  }

  function NewSlot(user: Id, career: Career, slot: nat): Slot {
    Slot(user, career, TeamForSlot(slot), BaseOf(slot), 0, None, false, None, false, false, false)
  }

  function Reseated(s: Slot, slot: nat): Slot {
    s.(team := TeamForSlot(slot), base := BaseOf(slot))
  }

  predicate UsedId(users: seq<Id>, user: Id) {
    exists i :: 0 <= i < |users| && users[i] == user
  }

  // ----- Seating after the draft

  function SeatAll(users: seq<Id>, careers: map<Id, Career>): (r: seq<Slot>)
    ensures |r| == |users|
  {
    seq(|users|, i requires 0 <= i < |users| => NewSlot(users[i], CareerOf(careers, users[i]), i))
  }

  predicate BadUser(users: seq<Id>, i: nat)
    requires i < |users|
  {
    users[i] == "" || UsedId(users[..i], users[i])
  }

  function ApplyOrder(users: seq<Id>, careers: map<Id, Career>): Result<seq<Slot>, DraftError> {
    if |users| != SLOT_COUNT || |careers| != SLOT_COUNT then Err(RequiresFour)
    else if exists i :: 0 <= i < |users| && BadUser(users, i) then Err(InvalidParticipants)
    else Ok(SeatAll(users, careers))
  }

  method ApplySlotOrder(users: seq<Id>, careers: map<Id, Career>) returns (r: Result<seq<Slot>, DraftError>)
    ensures r == ApplyOrder(users, careers)
  {
    hide NewSlot, CareerOf, UsedId;
    if |users| != SLOT_COUNT || |careers| != SLOT_COUNT {
      return Err(RequiresFour);
    }
    var seen: set<Id> := {};
    var slots: seq<Slot> := [];
    NothingUsed();
    assert users[..0] == [];
    for i := 0 to |users|
      invariant forall j :: 0 <= j < i ==> !BadUser(users, j)
      invariant forall u :: u in seen <==> UsedId(users[..i], u)
      invariant |slots| == i && forall j :: 0 <= j < i ==> slots[j] == SeatAll(users, careers)[j]
    {
      if users[i] == "" || users[i] in seen {
        assert BadUser(users, i);
        return Err(InvalidParticipants);
      }
      UsedNext(users, i);
      seen := seen + {users[i]};
      slots := slots + [NewSlot(users[i], CareerOf(careers, users[i]), i)];
    }
    assert slots == SeatAll(users, careers);
    return Ok(slots);
  }

  lemma NothingUsed()
    ensures forall u :: !UsedId([], u)
  {
  }

  lemma UsedNext(users: seq<Id>, i: nat)
    requires i < |users|
    ensures forall u :: UsedId(users[..i + 1], u) <==> UsedId(users[..i], u) || u == users[i]
  {
    var front, all := users[..i], users[..i + 1];
    forall u ensures UsedId(all, u) <==> UsedId(front, u) || u == users[i] {
      assert all[i] == users[i] && forall k :: 0 <= k < i ==> front[k] == all[k];
    }
  }

  // ----- The slot order of a rematch

  function FindSlot(slots: seq<Slot>, user: Id): Option<Slot> {
    if slots == [] then None
    else if slots[|slots| - 1].user == user then Some(slots[|slots| - 1])
    else FindSlot(slots[..|slots| - 1], user)
  }

  predicate Misplaced(slots: seq<Slot>, users: seq<Id>, i: nat)
    requires i < |users|
  {
    FindSlot(slots, users[i]) == None || UsedId(users[..i], users[i])
  }

  function Reorder(slots: seq<Slot>, users: seq<Id>): Result<seq<Slot>, DraftError> {
    if exists i :: 0 <= i < |users| && Misplaced(slots, users, i) then Err(InvalidParticipants)
    else
      Ok(seq(|users|, i requires 0 <= i < |users| =>
        match FindSlot(slots, users[i])
        case Some(s) => Reseated(s, i)
        case None => NewSlot("", NO_CAREER, i)))
  }

  /** The slots are looked up by user before any of them is moved. */
  method ReorderSlotsByUserIds(slots: seq<Slot>, users: seq<Id>) returns (r: Result<seq<Slot>, DraftError>)
    ensures r == Reorder(slots, users)
  {
    hide UsedId, Reseated;
    var byUser: map<Id, Slot> := map[];
    for i := 0 to |slots|
      invariant forall u :: FindSlot(slots[..i], u) == if u in byUser then Some(byUser[u]) else None
    {
      assert slots[..i + 1][..i] == slots[..i];
      byUser := byUser[slots[i].user := slots[i]];
    }
    assert slots[..|slots|] == slots;
    r := PlaceAll(slots, byUser, users);
  }

  method PlaceAll(slots: seq<Slot>, byUser: map<Id, Slot>, users: seq<Id>) returns (r: Result<seq<Slot>, DraftError>)
    requires forall u :: FindSlot(slots, u) == if u in byUser then Some(byUser[u]) else None
    ensures r == Reorder(slots, users)
  {
    hide UsedId, Reseated, FindSlot;
    var seen: set<Id> := {};
    var placed: seq<Slot> := [];
    NothingUsed();
    assert users[..0] == [];
    for i := 0 to |users|
      invariant forall j :: 0 <= j < i ==> !Misplaced(slots, users, j)
      invariant forall u :: u in seen <==> UsedId(users[..i], u)
      invariant |placed| == i && forall j :: 0 <= j < i ==>
        users[j] in byUser && placed[j] == Reseated(byUser[users[j]], j)
    {
      if users[i] !in byUser || users[i] in seen {
        assert Misplaced(slots, users, i);
        return Err(InvalidParticipants);
      }
      UsedNext(users, i);
      seen := seen + {users[i]};
      placed := placed + [Reseated(byUser[users[i]], i)];
    }
    assert Reorder(slots, users).Ok?;
    assert placed == Reorder(slots, users).value;
    return Ok(placed);
  }

  /** Slot `i` is seated for its place. */
  predicate SeatedAt(slots: seq<Slot>, i: nat)
    requires i < |slots|
  {
    slots[i].team == TeamForSlot(i) && slots[i].base == BaseOf(i)
  }

  function UserIds(slots: seq<Slot>): (r: seq<Id>)
    ensures |r| == |slots| && forall i :: 0 <= i < |r| ==> r[i] == slots[i].user
  {
    seq(|slots|, i requires 0 <= i < |slots| => slots[i].user)
  }

  /** Four named, different players, each on the team and base of its slot. */
  ghost predicate Seating(slots: seq<Slot>) {
    |slots| == SLOT_COUNT && Participants(UserIds(slots)) && forall i :: 0 <= i < SLOT_COUNT ==> SeatedAt(slots, i)
  }

  lemma {:induction false} FindSlotFinds(slots: seq<Slot>, user: Id)
    ensures FindSlot(slots, user).Some? <==> user in UserIds(slots)
    ensures FindSlot(slots, user).Some? ==>
      FindSlot(slots, user).value in slots && FindSlot(slots, user).value.user == user
  {
    if slots != [] {
      var front, last := slots[..|slots| - 1], slots[|slots| - 1];
      FindSlotFinds(front, user);
      assert UserIds(slots) == UserIds(front) + [last.user];
    }
  }

  /** Reordering succeeds exactly for different users who all have a slot; it gives each of them the
      slot asked for, with that slot's team and base and everything else carried along. */
  lemma ReorderExact(slots: seq<Slot>, users: seq<Id>)
    ensures Reorder(slots, users).Ok? <==> Simple(users) && forall u :: u in users ==> u in UserIds(slots)
    ensures Reorder(slots, users).Ok? ==>
      var r := Reorder(slots, users).value;
      && UserIds(r) == users && (forall i :: 0 <= i < |r| ==> SeatedAt(r, i))
      && forall i :: 0 <= i < |r| ==>
        FindSlot(slots, users[i]).Some? && r[i] == Reseated(FindSlot(slots, users[i]).value, i)
  {
    hide FindSlot;
    forall u ensures FindSlot(slots, u).Some? <==> u in UserIds(slots)
             ensures FindSlot(slots, u).Some? ==> FindSlot(slots, u).value.user == u {
      FindSlotFinds(slots, u);
    }
    if Reorder(slots, users).Ok? {
      forall i, j | 0 <= i < j < |users| ensures users[i] != users[j] {
        assert !Misplaced(slots, users, j);
        assert users[..j][i] == users[i];
      }
      forall u | u in users ensures u in UserIds(slots) {
        var i :| 0 <= i < |users| && users[i] == u;
        assert !Misplaced(slots, users, i);
      }
      forall i | 0 <= i < |users| ensures FindSlot(slots, users[i]).Some? {
        assert !Misplaced(slots, users, i);
      }
    }
    if Simple(users) && forall u :: u in users ==> u in UserIds(slots) {
      forall i | 0 <= i < |users| ensures !Misplaced(slots, users, i) {
        assert users[i] in users;
      }
    }
  }

  // ----- Opening a match

  function EntriesOf(users: seq<Id>, careers: map<Id, Career>): (r: seq<DraftEntry>)
    ensures |r| == |users| && forall i :: 0 <= i < |r| ==>
      r[i] == DraftEntry(users[i], CareerOf(careers, users[i]).trophies)
  {
    seq(|users|, i requires 0 <= i < |users| => DraftEntry(users[i], CareerOf(careers, users[i]).trophies))
  }

  function Chosen(users: seq<Id>, careers: map<Id, Career>): map<Id, Career> {
    map u | u in users && u in careers :: careers[u]
  }

  /** The drafted slots; a career that cannot be loaded fails the draft. */
  function Drafted(allowed: seq<Id>, careers: map<Id, Career>): Result<seq<Slot>, DraftError> {
    if |allowed| != SLOT_COUNT then Err(RequiresFour)
    else if exists i :: 0 <= i < |allowed| && allowed[i] !in careers then Err(InvalidParticipants)
    else match SnakeDraft(EntriesOf(allowed, careers))
      case Err(e) => Err(e)
      case Ok(users) => ApplyOrder(users, Chosen(allowed, careers))
  }

  predicate AllNamed(users: seq<Id>, allowed: seq<Id>) {
    |users| == SLOT_COUNT && forall i :: 0 <= i < |users| ==> users[i] != "" && users[i] in allowed
  }

  /** The slots of a new match; None when it is cancelled at once. A requested slot order that does
      not fit the players is ignored. */
  function InitSlots(enabled: bool, allowed: seq<Id>, careers: map<Id, Career>, requested: seq<Id>): Option<seq<Slot>> {
    if !enabled then None
    else match Drafted(allowed, careers)
      case Err(_) => None
      case Ok(slots) =>
        if !AllNamed(requested, allowed) then Some(slots)
        else match Reorder(slots, requested)
          case Err(_) => None
          case Ok(moved) => Some(moved)
  }

  lemma UsersOfEntries(allowed: seq<Id>, careers: map<Id, Career>)
    ensures Users(EntriesOf(allowed, careers)) == allowed
  {
  }

  lemma NoBadUser(users: seq<Id>)
    requires Participants(users)
    ensures forall i :: 0 <= i < |users| ==> !BadUser(users, i)
  {
  }

  lemma {:induction false} ChosenAll(users: seq<Id>, careers: map<Id, Career>)
    requires Simple(users) && forall u :: u in users ==> u in careers
    ensures |Chosen(users, careers)| == |users|
  {
    var m := Chosen(users, careers);
    assert m.Keys == set u | u in users;
    SimpleSize(users);
    assert |m| == |m.Keys|;
  }

  lemma {:induction false} SimpleSize(users: seq<Id>)
    requires Simple(users)
    ensures |set u | u in users| == |users|
  {
    if users == [] {
      assert (set u | u in users) == {};
    } else {
      var front, last := users[..|users| - 1], users[|users| - 1];
      SimpleSize(front);
      assert users == front + [last];
      assert (set u | u in users) == (set u | u in front) + {last};
    }
  }

  /** Four known, named and different players are always seated: each of them in one slot, with the
      slot's team and base, as the draft orders them. */
  lemma DraftSeats(allowed: seq<Id>, careers: map<Id, Career>)
    requires |allowed| == SLOT_COUNT && Participants(allowed) && forall u :: u in allowed ==> u in careers
    ensures
      var r := Drafted(allowed, careers);
      && r.Ok? && Seating(r.value) && (forall u :: u in UserIds(r.value) <==> u in allowed)
      && SnakeDraft(EntriesOf(allowed, careers)) == Ok(UserIds(r.value))
      && forall i :: 0 <= i < SLOT_COUNT ==> r.value[i].career == CareerOf(careers, r.value[i].user)
  {
    hide SnakeDraft, Participants;
    UsersOfEntries(allowed, careers);
    DraftIff(EntriesOf(allowed, careers));
    var users := SnakeDraft(EntriesOf(allowed, careers)).value;
    NoBadUser(users);
    ChosenAllOf(allowed, careers);
    var slots := SeatAll(users, Chosen(allowed, careers));
    assert UserIds(slots) == users;
    forall i | 0 <= i < SLOT_COUNT ensures slots[i].career == CareerOf(careers, users[i]) {
      assert users[i] in users;
    }
  }

  lemma ChosenAllOf(users: seq<Id>, careers: map<Id, Career>)
    requires Participants(users) && forall u :: u in users ==> u in careers
    ensures |Chosen(users, careers)| == |users|
  {
    ChosenAll(users, careers);
  }

  /** A rematch seats the four players exactly as they sat: same slots, teams and bases. */
  lemma RematchKeepsSeats(users: seq<Id>, careers: map<Id, Career>)
    requires |users| == SLOT_COUNT && Participants(users) && forall u :: u in users ==> u in careers
    ensures
      var r := InitSlots(true, users, careers, users);
      && r.Some? && Seating(r.value) && UserIds(r.value) == users
      && forall i :: 0 <= i < SLOT_COUNT ==> r.value[i].career == CareerOf(careers, users[i])
  {
    hide Drafted, Reorder, SnakeDraft;
    DraftSeats(users, careers);
    var slots := Drafted(users, careers).value;
    ReorderExact(slots, users);
    var r := Reorder(slots, users).value;
    forall i | 0 <= i < SLOT_COUNT ensures r[i].career == CareerOf(careers, users[i]) {
      FindSlotFinds(slots, users[i]);
    }
  }
}
