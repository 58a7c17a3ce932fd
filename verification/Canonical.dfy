/** The canonical order of a four-player action log: a stable sort followed by fail-closed checks. */
module Canonical {
  import opened Text
  import opened Sorting
  import opened World

  const SCHEMA_VERSION := 2
  const SLOT_COUNT := 4
  const DEFAULT_MAX_ACTIONS := 480

  datatype SlotAction = SlotAction(
    schema: int, tick: int, serverSeq: int, slot: int, clientSeq: int, source: Id, target: Id)

  datatype LogError =
    TooManyActions | InvalidSchemaVersion | InvalidTick | InvalidServerSeq | InvalidSlot | InvalidClientSeq
    | InvalidSource | InvalidTarget | SlotNotPermitted | InvalidDispatch | ActionAfterBattleEnd

  /** Order by tick, then server sequence, then slot, then client sequence. */
  predicate ActionLe(a: SlotAction, b: SlotAction) {
    if a.tick != b.tick then a.tick < b.tick
    else if a.serverSeq != b.serverSeq then a.serverSeq < b.serverSeq
    else if a.slot != b.slot then a.slot < b.slot
    else a.clientSeq <= b.clientSeq
  }

  lemma ActionOrder()
    ensures TotalOrder(ActionLe)
  {
  }

  // ----- The checks, in the order of the list

  /** How many actions of the list belong to the slot. */
  function SlotCount(actions: seq<SlotAction>, slot: int): nat {
    if actions == [] then 0
    else SlotCount(actions[..|actions| - 1], slot) + (if actions[|actions| - 1].slot == slot then 1 else 0)
  }

  predicate SeqUsed(actions: seq<SlotAction>, serverSeq: int) {
    exists i :: 0 <= i < |actions| && actions[i].serverSeq == serverSeq
  }

  /** What is wrong with an action that follows the accepted actions `before`. */
  function Fault(before: seq<SlotAction>, a: SlotAction): Option<LogError> {
    if a.schema != SCHEMA_VERSION then Some(InvalidSchemaVersion)
    else if a.tick < 0 then Some(InvalidTick)
    else if a.serverSeq < 0 || SeqUsed(before, a.serverSeq) then Some(InvalidServerSeq)
    else if a.slot < 0 || a.slot >= SLOT_COUNT then Some(InvalidSlot)
    else if a.clientSeq != SlotCount(before, a.slot) then Some(InvalidClientSeq)
    else if a.source == "" then Some(InvalidSource)
    else if a.target == "" then Some(InvalidTarget)
    else None
  }

  function FirstFault(actions: seq<SlotAction>, i: nat): Option<LogError>
    requires i <= |actions|
    decreases |actions| - i
  {
    if i == |actions| then None
    else
      match Fault(actions[..i], actions[i])
      case Some(e) => Some(e)
      case None => FirstFault(actions, i + 1)
  }

  function Limit(maxActions: int): int {
    if maxActions <= 0 then DEFAULT_MAX_ACTIONS else maxActions
  }

  function Canonicalize(actions: seq<SlotAction>, maxActions: int): Result<seq<SlotAction>, LogError> {
    if |actions| > Limit(maxActions) then Err(TooManyActions)
    else
      var sorted := Sort(ActionLe, actions);
      match FirstFault(sorted, 0)
      case Some(e) => Err(e)
      case None => Ok(sorted)
  }

  // ----- Which logs are accepted, without sorting

  predicate Before(a: SlotAction, b: SlotAction) {
    a.tick < b.tick || (a.tick == b.tick && a.serverSeq < b.serverSeq)
  }

  /** The actions of the slot that come before `a` in time, wherever they stand in the list. */
  function Earlier(actions: seq<SlotAction>, a: SlotAction): nat {
    if actions == [] then 0
    else Earlier(actions[1..], a) + (if actions[0].slot == a.slot && Before(actions[0], a) then 1 else 0)
  }

  predicate WellFormed(a: SlotAction) {
    a.schema == SCHEMA_VERSION && 0 <= a.tick && 0 <= a.serverSeq && 0 <= a.slot < SLOT_COUNT && a.source != ""
      && a.target != ""
  }

  ghost predicate DistinctSeqs(actions: seq<SlotAction>) {
    forall i, j :: 0 <= i < j < |actions| ==> actions[i].serverSeq != actions[j].serverSeq
  }

  /** Well-formed actions with distinct server sequences, each numbered by the actions its own slot
      took earlier. */
  ghost predicate Acceptable(actions: seq<SlotAction>) {
    && (forall a :: a in actions ==> WellFormed(a) && a.clientSeq == Earlier(actions, a))
    && DistinctSeqs(actions)
  }

  lemma {:induction false} EarlierInsert(x: SlotAction, s: seq<SlotAction>, a: SlotAction)
    ensures Earlier(Insert(ActionLe, x, s), a) == Earlier(s, a) + (if x.slot == a.slot && Before(x, a) then 1 else 0)
  {
    hide Before, ActionLe;
    if s == [] || ActionLe(x, s[0]) {
      assert ([x] + s)[1..] == s;
    } else {
      EarlierInsert(x, s[1..], a);
      assert ([s[0]] + Insert(ActionLe, x, s[1..]))[1..] == Insert(ActionLe, x, s[1..]);
    }
  }

  lemma {:induction false} EarlierSort(s: seq<SlotAction>, a: SlotAction)
    ensures Earlier(Sort(ActionLe, s), a) == Earlier(s, a)
  {
    if s != [] {
      EarlierSort(s[1..], a);
      EarlierInsert(s[0], Sort(ActionLe, s[1..]), a);
    }
  }

  lemma DistinctSeqsAnyOrder(s: seq<SlotAction>, t: seq<SlotAction>)
    requires multiset(s) == multiset(t) && DistinctSeqs(s)
    ensures DistinctSeqs(t)
  {
    assert Distinct(s);
    DistinctAnyOrder(s, t);
    SameElements(s, t);
    forall i, j | 0 <= i < j < |t| ensures t[i].serverSeq != t[j].serverSeq {
      assert t[i] in s && t[j] in s && t[i] != t[j];
    }
  }

  // ----- In a list sorted by time, the checks say exactly that it is acceptable

  lemma {:induction false} EarlierPrefix(s: seq<SlotAction>, a: SlotAction, k: nat)
    requires k <= |s|
    requires forall i :: 0 <= i < k ==> Before(s[i], a)
    requires forall i :: k <= i < |s| ==> !Before(s[i], a)
    ensures Earlier(s, a) == SlotCount(s[..k], a.slot)
    decreases |s|
  {
    hide Before;
    if s == [] {
    } else if k == 0 {
      EarlierPrefix(s[1..], a, 0);
    } else {
      EarlierPrefix(s[1..], a, k - 1);
      assert s[..k] == [s[0]] + s[1..][..k - 1];
      CountFirst(s[0], s[1..][..k - 1], a.slot);
    }
  }

  lemma {:induction false} CountFirst(x: SlotAction, s: seq<SlotAction>, slot: int)
    ensures SlotCount([x] + s, slot) == SlotCount(s, slot) + (if x.slot == slot then 1 else 0)
  {
    if s == [] {
      assert ([x] + s)[..0] == [];
    } else {
      CountFirst(x, s[..|s| - 1], slot);
      assert ([x] + s)[..|s|] == [x] + s[..|s| - 1];
    }
  }

  /** Sorted, with distinct sequences: later positions are later in time. */
  lemma SortedByTime(s: seq<SlotAction>, i: nat, j: nat)
    requires i < j < |s| && Sorted(ActionLe, s) && s[i].serverSeq != s[j].serverSeq
    ensures Before(s[i], s[j]) && !Before(s[j], s[i])
  {
    assert ActionLe(s[i], s[j]);
  }

  /** The faultless actions from `i` on, declaratively. */
  ghost predicate Faultless(s: seq<SlotAction>, i: nat)
    requires i <= |s|
  {
    forall k :: i <= k < |s| ==> Fault(s[..k], s[k]) == None
  }

  lemma {:induction false} NoFaultFrom(s: seq<SlotAction>, i: nat)
    requires i <= |s|
    ensures FirstFault(s, i) == None <==> Faultless(s, i)
    decreases |s| - i
  {
    hide Fault;
    if i < |s| {
      NoFaultFrom(s, i + 1);
      assert Faultless(s, i) <==> Fault(s[..i], s[i]) == None && Faultless(s, i + 1);
    }
  }

  lemma FaultlessDistinct(s: seq<SlotAction>)
    requires Faultless(s, 0)
    ensures DistinctSeqs(s)
  {
    hide SlotCount;
    forall i, j | 0 <= i < j < |s| ensures s[i].serverSeq != s[j].serverSeq {
      assert Fault(s[..j], s[j]) == None;
      assert s[..j][i] == s[i];
    }
  }

  lemma EarlierAt(s: seq<SlotAction>, k: nat)
    requires k < |s| && Sorted(ActionLe, s) && DistinctSeqs(s)
    ensures Earlier(s, s[k]) == SlotCount(s[..k], s[k].slot)
  {
    hide ActionLe, Before;
    forall i | 0 <= i < k ensures Before(s[i], s[k]) {
      SortedByTime(s, i, k);
    }
    forall i | k <= i < |s| ensures !Before(s[i], s[k]) {
      if i == k {
        NotBeforeItself(s[k]);
      } else {
        SortedByTime(s, k, i);
      }
    }
    EarlierPrefix(s, s[k], k);
  }

  lemma NotBeforeItself(a: SlotAction)
    ensures !Before(a, a)
  {
  }

  lemma SortedAcceptable(s: seq<SlotAction>)
    requires Sorted(ActionLe, s)
    ensures Faultless(s, 0) <==> Acceptable(s)
  {
    hide SlotCount, Earlier, Sorted, SeqUsed;
    if Faultless(s, 0) {
      FaultlessDistinct(s);
      forall a | a in s ensures WellFormed(a) && a.clientSeq == Earlier(s, a) {
        var k :| 0 <= k < |s| && s[k] == a;
        assert Fault(s[..k], s[k]) == None;
        EarlierAt(s, k);
      }
    }
    if Acceptable(s) {
      forall k | 0 <= k < |s| ensures Fault(s[..k], s[k]) == None {
        assert s[k] in s;
        EarlierAt(s, k);
        SeqFresh(s, k);
      }
    }
  }

  lemma SeqFresh(s: seq<SlotAction>, k: nat)
    requires DistinctSeqs(s) && k < |s|
    ensures !SeqUsed(s[..k], s[k].serverSeq)
  {
  }

  lemma AcceptableAnyOrder(s: seq<SlotAction>)
    ensures Acceptable(Sort(ActionLe, s)) <==> Acceptable(s)
  {
    hide Earlier, WellFormed, DistinctSeqs;
    var t := Sort(ActionLe, s);
    SameElements(t, s);
    forall a ensures Earlier(t, a) == Earlier(s, a) {
      EarlierSort(s, a);
    }
    if DistinctSeqs(s) {
      DistinctSeqsAnyOrder(s, t);
    }
    if DistinctSeqs(t) {
      DistinctSeqsAnyOrder(t, s);
    }
  }

  /** A log is accepted exactly when it is short enough and acceptable in whatever order it was
      given; the result holds the same actions in canonical order. */
  lemma CanonicalIff(actions: seq<SlotAction>, maxActions: int)
    ensures Canonicalize(actions, maxActions).Ok? <==> |actions| <= Limit(maxActions) && Acceptable(actions)
    ensures Canonicalize(actions, maxActions).Ok? ==>
      var r := Canonicalize(actions, maxActions).value;
      multiset(r) == multiset(actions) && Sorted(ActionLe, r) && Acceptable(r)
  {
    hide Acceptable;
    ActionOrder();
    SortSorted(ActionLe, actions);
    var t := Sort(ActionLe, actions);
    NoFaultFrom(t, 0);
    SortedAcceptable(t);
    AcceptableAnyOrder(actions);
  }

  lemma AcceptableStrict(s: seq<SlotAction>)
    requires Sorted(ActionLe, s) && Acceptable(s)
    ensures StrictlySorted(ActionLe, s)
  {
    hide Earlier, WellFormed;
    forall i, j | 0 <= i < j < |s| ensures ActionLe(s[i], s[j]) && !ActionLe(s[j], s[i]) {
      SortedByTime(s, i, j);
    }
  }

  /** An accepted log gives the same canonical log from any shuffle of it, in particular from the
      canonical log itself. */
  lemma AnyShuffle(actions: seq<SlotAction>, shuffled: seq<SlotAction>, maxActions: int)
    requires multiset(shuffled) == multiset(actions) && Canonicalize(actions, maxActions).Ok?
    ensures Canonicalize(shuffled, maxActions) == Canonicalize(actions, maxActions)
  {
    hide Acceptable;
    ActionOrder();
    SameElements(shuffled, actions);
    CanonicalIff(actions, maxActions);
    var r := Canonicalize(actions, maxActions).value;
    AcceptableStrict(r);
    SortSorted(ActionLe, shuffled);
    SortedUnique(ActionLe, r, Sort(ActionLe, shuffled));
  }

  /** A short log that is acceptable and already in order is returned unchanged. */
  lemma CanonicalUnchanged(actions: seq<SlotAction>, maxActions: int)
    requires |actions| <= Limit(maxActions) && Acceptable(actions) && Sorted(ActionLe, actions)
    ensures Canonicalize(actions, maxActions) == Ok(actions)
  {
    hide Acceptable;
    CanonicalIff(actions, maxActions);
    SortKeepsSorted(ActionLe, actions);
  }

  // ----- The loop

  method CanonicalizeActions(actions: seq<SlotAction>, maxActions: int) returns (r: Result<seq<SlotAction>, LogError>)
    ensures r == Canonicalize(actions, maxActions)
  {
    hide SlotCount, SeqUsed, ActionLe, Sort;
    var limit := if maxActions <= 0 then DEFAULT_MAX_ACTIONS else maxActions;
    if |actions| > limit {
      return Err(TooManyActions);
    }
    var canonical := Sort(ActionLe, actions);
    var seen: set<int> := {};
    var next := [0, 0, 0, 0];
    NothingYet();
    for i := 0 to |canonical|
      invariant FirstFault(canonical, i) == FirstFault(canonical, 0)
      invariant forall q :: q in seen <==> SeqUsed(canonical[..i], q)
      invariant |next| == SLOT_COUNT && forall k :: 0 <= k < SLOT_COUNT ==> next[k] == SlotCount(canonical[..i], k)
    {
      var a := canonical[i];
      if a.schema != SCHEMA_VERSION {
        return Err(InvalidSchemaVersion);
      }
      if a.tick < 0 {
        return Err(InvalidTick);
      }
      if a.serverSeq < 0 || a.serverSeq in seen {
        return Err(InvalidServerSeq);
      }
      if a.slot < 0 || a.slot >= SLOT_COUNT {
        return Err(InvalidSlot);
      }
      if a.clientSeq != next[a.slot] {
        return Err(InvalidClientSeq);
      }
      if a.source == "" {
        return Err(InvalidSource);
      }
      if a.target == "" {
        return Err(InvalidTarget);
      }
      AcceptedNext(canonical, i);
      seen := seen + {a.serverSeq};
      next := next[a.slot := next[a.slot] + 1];
    }
    return Ok(canonical);
  }

  lemma NothingYet()
    ensures forall q :: !SeqUsed([], q)
    ensures forall k :: SlotCount([], k) == 0
  {
  }

  lemma AcceptedNext(s: seq<SlotAction>, i: nat)
    requires i < |s|
    ensures forall q :: SeqUsed(s[..i + 1], q) <==> SeqUsed(s[..i], q) || q == s[i].serverSeq
    ensures forall k :: SlotCount(s[..i + 1], k) == SlotCount(s[..i], k) + (if s[i].slot == k then 1 else 0)
  {
    var front, all := s[..i], s[..i + 1];
    assert all[..i] == front && all[i] == s[i];
    forall q ensures SeqUsed(all, q) <==> SeqUsed(front, q) || q == s[i].serverSeq {
      assert forall k :: 0 <= k < i ==> front[k] == all[k];
      assert all[i].serverSeq == s[i].serverSeq;
    }
  }
}
