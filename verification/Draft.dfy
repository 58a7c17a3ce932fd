/** Team assignment: the snake draft over trophies, and the slot order of a rematch. */
module Draft {
  import opened Text
  import opened Sorting
  import opened World
  import opened Routes
  import opened TacticalRules

  datatype DraftEntry = DraftEntry(user: Id, trophies: int)

  datatype DraftError = RequiresFour | InvalidParticipants

  /** More trophies first, then the smaller user id. */
  predicate DraftLe(x: DraftEntry, y: DraftEntry) {
    x.trophies > y.trophies || (x.trophies == y.trophies && AtMost(x.user, y.user))
  }

  lemma DraftOrder()
    ensures TotalOrder(DraftLe)
  {
    hide AtMost;
    TextOrder();
    assert forall x: string, y: string :: AtMost(x, y) || AtMost(y, x);
    assert forall x: string, y: string, z: string :: AtMost(x, y) && AtMost(y, z) ==> AtMost(x, z);
  }

  function Users(entries: seq<DraftEntry>): (r: seq<Id>)
    ensures |r| == |entries| && forall i :: 0 <= i < |r| ==> r[i] == entries[i].user
  {
    seq(|entries|, i requires 0 <= i < |entries| => entries[i].user)
  }

  /** Nobody is missing an id or named twice. */
  ghost predicate Participants(users: seq<Id>) {
    (forall i :: 0 <= i < |users| ==> users[i] != "") && Simple(users)
  }

  /** Seats in slot order: the top and the bottom seed against the two in the middle. */
  function Seated(entries: seq<DraftEntry>): (r: seq<DraftEntry>)
    requires |entries| == 4
    ensures multiset(r) == multiset(entries) && |r| == 4
  {
    var s := Sort(DraftLe, entries);
    SeatsAll(s);
    [s[0], s[3], s[1], s[2]]
  }

  lemma Exchanged<T>(top: seq<T>, middle: seq<T>, bottom: seq<T>)
    ensures multiset(top + middle + bottom) == multiset(top + bottom + middle)
  {
  }

  lemma SeatsAll<T>(s: seq<T>)
    requires |s| == 4
    ensures multiset([s[0], s[3], s[1], s[2]]) == multiset(s)
  {
    assert s == [s[0]] + [s[1], s[2]] + [s[3]];
    assert [s[0], s[3], s[1], s[2]] == [s[0]] + [s[3]] + [s[1], s[2]];
    Exchanged([s[0]], [s[1], s[2]], [s[3]]);
  }

  predicate NamedIn(entries: seq<DraftEntry>, user: Id) {
    exists i :: 0 <= i < |entries| && entries[i].user == user
  }

  predicate BadEntry(entries: seq<DraftEntry>, i: nat)
    requires i < |entries|
  {
    entries[i].user == "" || NamedIn(entries[..i], entries[i].user)
  }

  function SnakeDraft(entries: seq<DraftEntry>): Result<seq<Id>, DraftError> {
    if |entries| != 4 then Err(RequiresFour)
    else if exists i :: 0 <= i < |entries| && BadEntry(entries, i) then Err(InvalidParticipants)
    else Ok(Users(Seated(entries)))
  }

  lemma NoBadEntry(entries: seq<DraftEntry>)
    ensures (forall i :: 0 <= i < |entries| ==> !BadEntry(entries, i)) <==> Participants(Users(entries))
  {
    var users := Users(entries);
    if Participants(users) {
      forall i | 0 <= i < |entries| ensures !BadEntry(entries, i) {
        assert users[i] != "" && forall j :: 0 <= j < i ==> users[j] != users[i];
      }
    }
    if forall i :: 0 <= i < |entries| ==> !BadEntry(entries, i) {
      forall i | 0 <= i < |users| ensures users[i] != "" {
        assert !BadEntry(entries, i);
      }
      forall i, j | 0 <= i < j < |users| ensures users[i] != users[j] {
        assert !BadEntry(entries, j);
        assert entries[..j][i] == entries[i];
      }
    }
  }

  lemma ParticipantsAnyOrder(s: seq<DraftEntry>, t: seq<DraftEntry>)
    requires multiset(s) == multiset(t) && Participants(Users(s))
    ensures Participants(Users(t))
  {
    SameElements(s, t);
    var users := Users(s);
    forall i, j | 0 <= i < j < |s| ensures s[i] != s[j] {
      assert users[i] != users[j];
    }
    DistinctAnyOrder(s, t);
    forall i | 0 <= i < |t| ensures t[i].user != "" {
      assert t[i] in s;
    }
    forall i, j | 0 <= i < j < |t| ensures t[i].user != t[j].user {
      assert t[i] in s && t[j] in s && t[i] != t[j];
      var a :| 0 <= a < |s| && s[a] == t[i];
      var b :| 0 <= b < |s| && s[b] == t[j];
      assert users[a] != users[b];
    }
  }

  /** The draft succeeds exactly for four named, different players, and seats each of them once. */
  lemma DraftIff(entries: seq<DraftEntry>)
    ensures SnakeDraft(entries).Ok? <==> |entries| == 4 && Participants(Users(entries))
    ensures SnakeDraft(entries).Ok? ==>
      var seats := SnakeDraft(entries).value;
      |seats| == 4 && Participants(seats) && forall u :: u in seats <==> u in Users(entries)
  {
    hide BadEntry, Participants;
    NoBadEntry(entries);
    if SnakeDraft(entries).Ok? {
      var seated := Seated(entries);
      ParticipantsAnyOrder(entries, seated);
      SameElements(seated, entries);
      forall u ensures u in Users(seated) <==> u in Users(entries) {
        UserIn(seated, u);
        UserIn(entries, u);
      }
    }
  }

  lemma UserIn(entries: seq<DraftEntry>, u: Id)
    ensures u in Users(entries) <==> exists e :: e in entries && e.user == u
  {
    if u in Users(entries) {
      var i :| 0 <= i < |entries| && Users(entries)[i] == u;
      assert entries[i] in entries;
    }
    if e :| e in entries && e.user == u {
      var i :| 0 <= i < |entries| && entries[i] == e;
      assert Users(entries)[i] == u;
    }
  }

  /** Whatever order the players are listed in, they are seated the same. */
  lemma DraftIgnoresOrder(entries: seq<DraftEntry>, shuffled: seq<DraftEntry>)
    requires multiset(shuffled) == multiset(entries)
    ensures SnakeDraft(shuffled) == SnakeDraft(entries)
  {
    hide Seated, Participants;
    SameElements(shuffled, entries);
    DraftIff(entries);
    DraftIff(shuffled);
    if |entries| == 4 {
      if Participants(Users(entries)) {
        ParticipantsAnyOrder(entries, shuffled);
        SeatedAnyOrder(entries, shuffled);
      } else if Participants(Users(shuffled)) {
        ParticipantsAnyOrder(shuffled, entries);
      }
    }
  }

  /** Two entries that neither precedes strictly are the same entry. */
  lemma SortedEntriesSame(s: seq<DraftEntry>, t: seq<DraftEntry>)
    requires multiset(s) == multiset(t) && Participants(Users(s))
    requires Sorted(DraftLe, s) && Sorted(DraftLe, t)
    ensures s == t
  {
    hide AtMost;
    forall i, j | 0 <= i < j < |s| ensures DraftLe(s[i], s[j]) && !DraftLe(s[j], s[i]) {
      assert Users(s)[i] != Users(s)[j];
      if AtMost(s[i].user, s[j].user) && AtMost(s[j].user, s[i].user) {
        AtMostTotal(s[i].user, s[j].user);
      }
    }
    SortedUnique(DraftLe, s, t);
  }

  lemma SeatedAnyOrder(entries: seq<DraftEntry>, shuffled: seq<DraftEntry>)
    requires multiset(shuffled) == multiset(entries) && |entries| == |shuffled| == 4 && Participants(Users(entries))
    ensures Seated(shuffled) == Seated(entries)
  {
    hide DraftLe, Participants;
    DraftOrder();
    SortSorted(DraftLe, entries);
    SortSorted(DraftLe, shuffled);
    ParticipantsAnyOrder(entries, Sort(DraftLe, entries));
    SortedEntriesSame(Sort(DraftLe, entries), Sort(DraftLe, shuffled));
  }

  // ----- Balance

  function Absolute(x: int): nat {
    if x < 0 then -x else x
  }

  /** The trophy difference between the first two players and the last two. */
  function Gap(p: seq<DraftEntry>): nat
    requires |p| == 4
  {
    Absolute(p[0].trophies + p[1].trophies - p[2].trophies - p[3].trophies)
  }

  function Total(s: seq<DraftEntry>): int {
    if s == [] then 0 else s[0].trophies + Total(s[1..])
  }

  lemma {:induction false} TotalInsert(x: DraftEntry, s: seq<DraftEntry>)
    ensures Total(Insert(DraftLe, x, s)) == x.trophies + Total(s)
  {
    hide DraftLe;
    if s == [] || DraftLe(x, s[0]) {
      assert ([x] + s)[1..] == s;
    } else {
      TotalInsert(x, s[1..]);
      assert ([s[0]] + Insert(DraftLe, x, s[1..]))[1..] == Insert(DraftLe, x, s[1..]);
    }
  }

  lemma {:induction false} TotalSort(s: seq<DraftEntry>)
    ensures Total(Sort(DraftLe, s)) == Total(s)
  {
    if s != [] {
      TotalSort(s[1..]);
      TotalInsert(s[0], Sort(DraftLe, s[1..]));
    }
  }

  lemma TotalFour(s: seq<DraftEntry>)
    requires |s| == 4
    ensures Total(s) == s[0].trophies + s[1].trophies + s[2].trophies + s[3].trophies
  {
    assert s[1..][1..] == s[2..] && s[2..][1..] == s[3..] && s[3..][1..] == [];
    assert Total(s[3..]) == s[3].trophies + Total([]);
    assert Total(s[2..]) == s[2].trophies + Total(s[3..]);
    assert Total(s[1..]) == s[1].trophies + Total(s[2..]);
  }

  lemma GapOfPair(p: seq<DraftEntry>)
    requires |p| == 4
    ensures Gap(p) == Absolute(2 * (p[0].trophies + p[1].trophies) - Total(p))
  {
    TotalFour(p);
  }

  /** In a sorted list, two places cannot do better than the outer two. */
  lemma OuterPairBest(s: seq<DraftEntry>, i: nat, j: nat)
    requires |s| == 4 && i < 4 && j < 4 && i != j && Sorted(DraftLe, s)
    ensures Absolute(2 * (s[0].trophies + s[3].trophies) - Total(s)) <= Absolute(2 * (s[i].trophies +
      s[j].trophies) - Total(s))
  {
    TotalFour(s);
    assert DraftLe(s[0], s[1]) && DraftLe(s[1], s[2]) && DraftLe(s[2], s[3]);
  }

  /** The first pair of a split stands at two places of the sorted list, which has the same total. */
  lemma SplitPlaces(s: seq<DraftEntry>, split: seq<DraftEntry>) returns (i: nat, j: nat)
    requires |split| == 4 && multiset(split) == multiset(s) && Participants(Users(s)) && Sorted(DraftLe, s)
    ensures i < |s| == 4 && j < 4 && i != j && s[i] == split[0] && s[j] == split[1] && Total(split) == Total(s)
  {
    hide DraftLe, Participants, Total, Sort;
    DraftOrder();
    SameElements(split, s);
    SortSorted(DraftLe, split);
    SortedEntriesSame(s, Sort(DraftLe, split));
    TotalSort(split);
    assert split[0] in s && split[1] in s;
    i :| 0 <= i < |s| && s[i] == split[0];
    j :| 0 <= j < |s| && s[j] == split[1];
    ParticipantsAnyOrder(s, split);
    FirstTwoDiffer(split);
  }

  /** No way to split the four players into two pairs has a smaller trophy difference. */
  lemma DraftBalances(entries: seq<DraftEntry>, split: seq<DraftEntry>)
    requires SnakeDraft(entries).Ok? && multiset(split) == multiset(entries)
    ensures |split| == 4 && Gap(Seated(entries)) <= Gap(split)
  {
    hide Seated, DraftLe, Participants, Total, Sort, Gap, Absolute, Users;
    DraftIff(entries);
    SameElements(split, entries);
    var s := Sort(DraftLe, entries);
    DraftOrder();
    SortSorted(DraftLe, entries);
    ParticipantsAnyOrder(entries, s);
    var i, j := SplitPlaces(s, split);
    SeatedIs(entries);
    SeatedBest(s, Seated(entries), i, j);
    GapOfPair(split);
  }

  lemma SeatedBest(s: seq<DraftEntry>, r: seq<DraftEntry>, i: nat, j: nat)
    requires |s| == 4 && Sorted(DraftLe, s) && r == [s[0], s[3], s[1], s[2]] && i < 4 && j < 4 && i != j
    ensures Gap(r) <= Absolute(2 * (s[i].trophies + s[j].trophies) - Total(s))
  {
    hide DraftLe, Total, Gap, Absolute, Sorted;
    OuterPairBest(s, i, j);
    GapOfPair(r);
    TotalFour(s);
    TotalFour(r);
  }

  lemma FirstTwoDiffer(split: seq<DraftEntry>)
    requires |split| == 4 && Participants(Users(split))
    ensures split[0] != split[1]
  {
    assert Users(split)[0] != Users(split)[1];
  }

  lemma SeatedIs(entries: seq<DraftEntry>)
    requires |entries| == 4
    ensures var s := Sort(DraftLe, entries); Seated(entries) == [s[0], s[3], s[1], s[2]]
  {
  }

  // ----- The draft's own insertion sort

  /** All in order up to `i`, except that position `j` has not yet been compared downwards. */
  ghost predicate SortedExcept(s: seq<DraftEntry>, i: nat, j: nat)
    requires i < |s|
  {
    forall p, q :: 0 <= p < q <= i && q != j ==> DraftLe(s[p], s[q])
  }

  lemma Swapped(s: seq<DraftEntry>, j: nat)
    requires 0 < j < |s|
    ensures
      var t := s[j - 1 := s[j]][j := s[j - 1]];
      multiset(t) == multiset(s)
  {
  }

  lemma CompareDown(s: seq<DraftEntry>, i: nat, j: nat)
    requires 0 < j <= i < |s| && SortedExcept(s, i, j)
    ensures DraftLe(s[j - 1], s[j]) ==> SortedExcept(s, i, j - 1)
    ensures !DraftLe(s[j - 1], s[j]) || s[j - 1] == s[j] ==> SortedExcept(s[j - 1 := s[j]][j := s[j - 1]], i, j - 1)
  {
    hide DraftLe;
    DraftOrder();
    assert forall x, y :: DraftLe(x, y) || DraftLe(y, x);
    assert forall x, y, z :: DraftLe(x, y) && DraftLe(y, z) ==> DraftLe(x, z);
  }

  predicate StrictlyAhead(x: DraftEntry, y: DraftEntry) {
    x.trophies > y.trophies || (x.trophies == y.trophies && AtMost(x.user, y.user) && x.user != y.user)
  }

  lemma AheadOrEqual(x: DraftEntry, y: DraftEntry)
    ensures StrictlyAhead(x, y) ==> DraftLe(x, y)
    ensures !StrictlyAhead(x, y) ==> !DraftLe(x, y) || x == y
  {
    hide AtMost;
  }

  /** Compares all the way down even after the element has found its place, as the source does. */
  method SortEntries(a: array<DraftEntry>)
    modifies a
    ensures multiset(a[..]) == multiset(old(a[..])) && Sorted(DraftLe, a[..])
  {
    hide DraftLe, StrictlyAhead;
    var i := 1;
    while i < a.Length
      invariant 1 <= i && (a.Length > 0 ==> i <= a.Length)
      invariant multiset(a[..]) == multiset(old(a[..]))
      invariant forall p, q :: 0 <= p < q < i && q < a.Length ==> DraftLe(a[..][p], a[..][q])
    {
      var j := i;
      while j > 0
        invariant 0 <= j <= i && multiset(a[..]) == multiset(old(a[..])) && SortedExcept(a[..], i, j)
      {
        CompareDown(a[..], i, j);
        AheadOrEqual(a[j - 1], a[j]);
        if !StrictlyAhead(a[j - 1], a[j]) {
          ghost var s := a[..];
          Swapped(s, j);
          a[j - 1], a[j] := a[j], a[j - 1];
          assert a[..] == s[j - 1 := s[j]][j := s[j - 1]];
        }
        j := j - 1;
      }
      i := i + 1;
    }
  }

  method CheckEntries(entries: seq<DraftEntry>) returns (ok: bool)
    ensures ok <==> forall i :: 0 <= i < |entries| ==> !BadEntry(entries, i)
  {
    hide NamedIn;
    var seen: set<Id> := {};
    assert entries[..0] == [];
    NobodyNamed();
    for i := 0 to |entries|
      invariant forall j :: 0 <= j < i ==> !BadEntry(entries, j)
      invariant forall u :: u in seen <==> NamedIn(entries[..i], u)
    {
      if entries[i].user == "" || entries[i].user in seen {
        assert BadEntry(entries, i);
        return false;
      }
      NamedNext(entries, i);
      seen := seen + {entries[i].user};
    }
    return true;
  }

  lemma NobodyNamed()
    ensures forall u :: !NamedIn([], u)
  {
  }

  method SortedCopy(entries: seq<DraftEntry>) returns (sorted: seq<DraftEntry>)
    requires Participants(Users(entries))
    ensures sorted == Sort(DraftLe, entries)
  {
    hide DraftLe, Participants, Sort;
    var copy := new DraftEntry[|entries|](i requires 0 <= i < |entries| => entries[i]);
    assert copy[..] == entries;
    SortEntries(copy);
    DraftOrder();
    SortSorted(DraftLe, entries);
    ParticipantsAnyOrder(entries, copy[..]);
    SortedEntriesSame(copy[..], Sort(DraftLe, entries));
    return copy[..];
  }

  method AssignSlotsBySnakeDraft(entries: seq<DraftEntry>) returns (r: Result<seq<Id>, DraftError>)
    ensures r == SnakeDraft(entries)
  {
    hide DraftLe, Participants, BadEntry, Sort, Seated;
    if |entries| != 4 {
      return Err(RequiresFour);
    }
    var ok := CheckEntries(entries);
    if !ok {
      return Err(InvalidParticipants);
    }
    NoBadEntry(entries);
    var sorted := SortedCopy(entries);
    SeatedIs(entries);
    assert SnakeDraft(entries) == Ok(Users(Seated(entries)));
    assert Users(Seated(entries)) == [sorted[0].user, sorted[3].user, sorted[1].user, sorted[2].user];
    return Ok([sorted[0].user, sorted[3].user, sorted[1].user, sorted[2].user]);
  }

  lemma NamedNext(entries: seq<DraftEntry>, i: nat)
    requires i < |entries|
    ensures forall u :: NamedIn(entries[..i + 1], u) <==> NamedIn(entries[..i], u) || u == entries[i].user
  {
    var front, all := entries[..i], entries[..i + 1];
    forall u ensures NamedIn(all, u) <==> NamedIn(front, u) || u == entries[i].user {
      assert all[i] == entries[i] && forall k :: 0 <= k < i ==> front[k] == all[k];
    }
  }
}
