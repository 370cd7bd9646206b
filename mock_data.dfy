/**
 * The in-memory moderation store of `src/utils/mockData.js`: a gallery array of
 * approved characters and a queue of pending ones, changed in place by approve
 * (`push` + `splice`), reject (`splice`) and submit (`push`).
 *
 * `StoreState` and the functions over it are the specification; the class `Store`
 * holds the two arrays as fields and its methods are proved against those functions.
 */
module MockData {
  import opened Wrappers
  import opened Domain
  import Text

  // ---------------------------------------------------------------- gallery reads

  /** The filter of `getCharactersWithMusic` (`withMusic`) and `getCharactersWithoutMusic` (`!withMusic`). */
  predicate InPartition(c: Character, withMusic: bool) {
    c.hasMusic == withMusic && c.status == Approved
  }

  /** `mockCharacters.filter(...)`: the entries of one gallery partition, in gallery order. */
  function Partition(cs: seq<Character>, withMusic: bool): (r: seq<Character>)
    ensures |r| <= |cs|
    ensures forall k :: 0 <= k < |r| ==> InPartition(r[k], withMusic)
  {
    if cs == [] then []
    else if InPartition(cs[0], withMusic) then [cs[0]] + Partition(cs[1..], withMusic)
    else Partition(cs[1..], withMusic)
  }

  /** A partition lists exactly the gallery entries that belong to it. */
  lemma {:induction false} PartitionMembers(cs: seq<Character>, withMusic: bool, c: Character)
    ensures c in Partition(cs, withMusic) <==> c in cs && InPartition(c, withMusic)
  {
    if cs != [] {
      PartitionMembers(cs[1..], withMusic, c);
      assert c in cs <==> c == cs[0] || c in cs[1..];
    }
  }

  /** Filtering commutes with concatenation, so a partition keeps the gallery's order. */
  lemma {:induction false} PartitionOfJoin(xs: seq<Character>, ys: seq<Character>, withMusic: bool)
    ensures Partition(xs + ys, withMusic) == Partition(xs, withMusic) + Partition(ys, withMusic)
  {
    if xs != [] {
      assert (xs + ys)[0] == xs[0] && (xs + ys)[1..] == xs[1..] + ys;
      PartitionOfJoin(xs[1..], ys, withMusic);
      var head := if InPartition(xs[0], withMusic) then [xs[0]] else [];
      assert Partition(xs, withMusic) == head + Partition(xs[1..], withMusic);
      assert Partition(xs + ys, withMusic) == head + Partition(xs[1..] + ys, withMusic);
    } else {
      assert xs + ys == ys;
    }
  }

  /** Every approved entry of the gallery, in order (no such getter exists; it is the union the two partitions split). */
  function ApprovedEntries(cs: seq<Character>): seq<Character> {
    if cs == [] then []
    else if cs[0].status == Approved then [cs[0]] + ApprovedEntries(cs[1..])
    else ApprovedEntries(cs[1..])
  }

  /** The two partitions are disjoint and together hold each approved entry exactly as often as the gallery does. */
  lemma {:induction false} PartitionsSplitApproved(cs: seq<Character>)
    ensures multiset(Partition(cs, true)) + multiset(Partition(cs, false)) == multiset(ApprovedEntries(cs))
    ensures forall c :: !(c in Partition(cs, true) && c in Partition(cs, false))
  {
    if cs != [] {
      PartitionsSplitApproved(cs[1..]);
    }
  }

  // ---------------------------------------------------------------- the store

  /** The two module-level arrays: `mockCharacters` (gallery) and `mockPendingCharacters` (queue). */
  datatype StoreState = StoreState(gallery: seq<Character>, queue: seq<Character>)

  /** What the seed data has and every operation keeps: the gallery is approved, the queue pending. */
  predicate Consistent(s: StoreState) {
    (forall c :: c in s.gallery ==> c.status == Approved) &&
    (forall c :: c in s.queue ==> c.status == Pending)
  }

  /** `find` / `findIndex` with `c.id === characterId`: the first position holding the id. */
  function FindIndex(cs: seq<Character>, id: string): (r: Option<nat>)
    ensures r.Some? ==> r.value < |cs| && cs[r.value].id == id
    ensures r.Some? ==> forall k :: 0 <= k < r.value ==> cs[k].id != id
    ensures r.None? ==> forall k :: 0 <= k < |cs| ==> cs[k].id != id
  {
    if cs == [] then None
    else if cs[0].id == id then Some(0)
    else
      match FindIndex(cs[1..], id)
      case None => None
      case Some(i) => Some(i + 1)
  }

  /** How many queued entries carry the id (ids are not unique: a caller may pick its own). */
  function Occurrences(cs: seq<Character>, id: string): nat {
    if cs == [] then 0 else (if cs[0].id == id then 1 else 0) + Occurrences(cs[1..], id)
  }

  lemma {:induction false} OccurrencesOfJoin(xs: seq<Character>, ys: seq<Character>, id: string)
    ensures Occurrences(xs + ys, id) == Occurrences(xs, id) + Occurrences(ys, id)
  {
    if xs != [] {
      assert (xs + ys)[1..] == xs[1..] + ys;
      OccurrencesOfJoin(xs[1..], ys, id);
    } else {
      assert xs + ys == ys;
    }
  }

  lemma {:induction false} OccurrencesPositive(cs: seq<Character>, id: string)
    ensures Occurrences(cs, id) > 0 <==> exists k :: 0 <= k < |cs| && cs[k].id == id
  {
    if cs != [] {
      OccurrencesPositive(cs[1..], id);
      if exists k :: 0 <= k < |cs| && cs[k].id == id {
        var k :| 0 <= k < |cs| && cs[k].id == id;
        if k > 0 { assert cs[1..][k - 1].id == id; }
      }
      if exists k :: 0 <= k < |cs[1..]| && cs[1..][k].id == id {
        var k :| 0 <= k < |cs[1..]| && cs[1..][k].id == id;
        assert cs[k + 1].id == id;
      }
    }
  }

  /** `splice(index, 1)`: the queue without position `i`, the rest in order. */
  function RemoveAt(cs: seq<Character>, i: nat): (r: seq<Character>)
    requires i < |cs|
    ensures |r| == |cs| - 1
    ensures forall k :: 0 <= k < i ==> r[k] == cs[k]
    ensures forall k :: i <= k < |r| ==> r[k] == cs[k + 1]
    ensures multiset(r) + multiset{cs[i]} == multiset(cs)
  {
    assert cs == cs[..i] + [cs[i]] + cs[i + 1..];
    cs[..i] + cs[i + 1..]
  }

  /** The store after a decision, and the entry the promise resolves to (`undefined` when the id is not queued). */
  datatype Decided = Decided(state: StoreState, entry: Option<Character>)

  /** `approveCharacter(id)`: the first queued entry with the id becomes approved, moves to the end of the gallery. */
  function Approve(s: StoreState, id: string): (d: Decided)
    ensures d.entry.None? <==> FindIndex(s.queue, id).None?
    ensures d.entry.None? ==> d.state == s
    ensures d.entry.Some? ==> (d.entry.value.id == id && d.entry.value.status == Approved &&
      d.state.gallery == s.gallery + [d.entry.value] && |d.state.queue| + 1 == |s.queue|)
  {
    match FindIndex(s.queue, id)
    case None => Decided(s, None)
    case Some(i) =>
      var c := s.queue[i].(status := Approved);
      Decided(StoreState(s.gallery + [c], RemoveAt(s.queue, i)), Some(c))
  }

  /** `rejectCharacter(id)`: the first queued entry with the id becomes rejected and leaves the queue; the gallery is untouched. */
  function Reject(s: StoreState, id: string): (d: Decided)
    ensures d.entry.None? <==> FindIndex(s.queue, id).None?
    ensures d.entry.None? ==> d.state == s
    ensures d.entry.Some? ==> (d.entry.value.id == id && d.entry.value.status == Rejected &&
      d.state.gallery == s.gallery && |d.state.queue| + 1 == |s.queue|)
  {
    match FindIndex(s.queue, id)
    case None => Decided(s, None)
    case Some(i) =>
      var c := s.queue[i].(status := Rejected);
      Decided(StoreState(s.gallery, RemoveAt(s.queue, i)), Some(c))
  }

  /** Anything else the queue held is still there, and the decided id stays queued only if it was queued twice. */
  lemma QueueAfterDecision(s: StoreState, id: string, i: nat)
    requires FindIndex(s.queue, id) == Some(i)
    ensures Occurrences(RemoveAt(s.queue, i), id) == Occurrences(s.queue, id) - 1
    ensures forall x :: x != id ==> Occurrences(RemoveAt(s.queue, i), x) == Occurrences(s.queue, x)
  {
    var q := s.queue;
    assert q == q[..i] + [q[i]] + q[i + 1..];
    forall x ensures Occurrences(RemoveAt(q, i), x) == Occurrences(q, x) - (if q[i].id == x then 1 else 0) {
      OccurrencesOfJoin(q[..i] + [q[i]], q[i + 1..], x);
      OccurrencesOfJoin(q[..i], [q[i]], x);
      OccurrencesOfJoin(q[..i], q[i + 1..], x);
    }
  }

  /**
   * Approving an id that is not queued changes nothing and yields nothing. Otherwise the
   * entry yielded is the first queued one with that id, now approved; it appears at the end
   * of exactly the partition matching its music flag; it leaves the queue once.
   */
  lemma {:induction false} ApproveSpec(s: StoreState, id: string)
    ensures Approve(s, id).entry.None? <==> Occurrences(s.queue, id) == 0
    ensures Approve(s, id).entry.None? ==> Approve(s, id).state == s
    ensures Approve(s, id).entry.Some? ==>
      var c := Approve(s, id).entry.value;
      var after := Approve(s, id).state;
      var i := FindIndex(s.queue, id).value;
      c == s.queue[i].(status := Approved) && c.id == id &&
      (forall k :: 0 <= k < i ==> s.queue[k].id != id) &&
      after.gallery == s.gallery + [c] &&
      after.queue == s.queue[..i] + s.queue[i + 1..] &&
      Occurrences(after.queue, id) == Occurrences(s.queue, id) - 1 &&
      (forall x :: x != id ==> Occurrences(after.queue, x) == Occurrences(s.queue, x))
    ensures forall m :: (Partition(Approve(s, id).state.gallery, m) ==
      Partition(s.gallery, m) +
      (if Approve(s, id).entry.Some? && Approve(s, id).entry.value.hasMusic == m then [Approve(s, id).entry.value] else []))
  {
    OccurrencesPositive(s.queue, id);
    match FindIndex(s.queue, id)
    case None =>
    case Some(i) =>
      QueueAfterDecision(s, id, i);
      var c := s.queue[i].(status := Approved);
      forall m ensures Partition(s.gallery + [c], m) == Partition(s.gallery, m) + (if c.hasMusic == m then [c] else []) {
        PartitionOfJoin(s.gallery, [c], m);
        assert Partition([c], m) == (if c.hasMusic == m then [c] else []) by {
          assert [c][1..] == [];
        }
      }
  }

  /** Rejecting mirrors approving on the queue, but the entry never reaches the gallery or either partition. */
  lemma {:induction false} RejectSpec(s: StoreState, id: string)
    ensures Reject(s, id).entry.None? <==> Occurrences(s.queue, id) == 0
    ensures Reject(s, id).entry.None? ==> Reject(s, id).state == s
    ensures Reject(s, id).state.gallery == s.gallery
    ensures Reject(s, id).state.queue == Approve(s, id).state.queue
    ensures Reject(s, id).entry.Some? ==>
      var c := Reject(s, id).entry.value;
      var after := Reject(s, id).state;
      var i := FindIndex(s.queue, id).value;
      c == s.queue[i].(status := Rejected) && c.id == id &&
      after.queue == s.queue[..i] + s.queue[i + 1..] &&
      (forall m :: c !in Partition(after.gallery, m) && c !in Partition(s.gallery, m)) &&
      Occurrences(after.queue, id) == Occurrences(s.queue, id) - 1 &&
      (forall x :: x != id ==> Occurrences(after.queue, x) == Occurrences(s.queue, x))
  {
    OccurrencesPositive(s.queue, id);
    match FindIndex(s.queue, id)
    case None =>
    case Some(i) => QueueAfterDecision(s, id, i);
  }

  /** The owner summary `submitCharacter` stamps on every new entry. */
  const DemoUser := UserInfo("デモユーザー", "demo_user", None)

  /**
   * The object literal of `submitCharacter`: `id` is written before the caller's fields (so a
   * caller's `id` wins), `status`, `created_at` and `users` after them (so the caller's are lost).
   */
  function NewCharacter(d: Draft, nowMillis: nat, nowIso: string): (c: Character)
    ensures c.status == Pending && c.createdAt == nowIso && c.users == Some(DemoUser)
    ensures d.id.Some? ==> c.id == d.id.value
    ensures d.id.None? ==> c.id == Text.NatToString(nowMillis) && c.id != []
    ensures c.name == d.name && c.shortWorldview == d.shortWorldview && c.description == d.description &&
      c.hasMusic == d.hasMusic && c.aiToolUsed == d.aiToolUsed && c.userId == d.userId &&
      c.assets == d.assets && c.music == d.music && c.tags == d.tags
  {
    Character(
      d.id.GetOr(Text.NatToString(nowMillis)), d.name, d.shortWorldview, d.description, d.hasMusic,
      d.aiToolUsed, Pending, nowIso, d.userId, Some(DemoUser), d.assets, d.music, d.tags)
  }

  /** Whatever the caller puts in `status`, `created_at` or `users`, the new entry is pending, stamped now, owned by the demo user. */
  lemma NewCharacterIgnoresReservedFields(d: Draft, status: Option<Status>, createdAt: Option<string>,
                                          users: Option<UserInfo>, nowMillis: nat, nowIso: string)
    ensures NewCharacter(d.(status := status, createdAt := createdAt, users := users), nowMillis, nowIso) ==
            NewCharacter(d, nowMillis, nowIso)
    ensures NewCharacter(d, nowMillis, nowIso).status == Pending
    ensures NewCharacter(d, nowMillis, nowIso).createdAt == nowIso
    ensures d.id.Some? ==> NewCharacter(d, nowMillis, nowIso).id == d.id.value
    ensures d.id.None? ==> NewCharacter(d, nowMillis, nowIso).id == Text.NatToString(nowMillis)
  {
  }

  /** `submitCharacter`: the new entry goes to the end of the queue; the gallery is untouched. */
  function Submit(s: StoreState, c: Character): (r: StoreState)
    ensures r.gallery == s.gallery
    ensures |r.queue| == |s.queue| + 1 && r.queue[..|s.queue|] == s.queue && r.queue[|s.queue|] == c
    ensures multiset(r.queue) == multiset(s.queue) + multiset{c}
  {
    StoreState(s.gallery, s.queue + [c])
  }

  /** A submission grows the queue by one and, while pending, is listed by neither partition. */
  lemma SubmitSpec(s: StoreState, d: Draft, nowMillis: nat, nowIso: string)
    ensures var c := NewCharacter(d, nowMillis, nowIso);
      var after := Submit(s, c);
      |after.queue| == |s.queue| + 1 && after.queue[..|s.queue|] == s.queue && after.queue[|s.queue|] == c &&
      Occurrences(after.queue, c.id) == Occurrences(s.queue, c.id) + 1 &&
      (Consistent(s) ==> Consistent(after)) &&
      forall m :: Partition(after.gallery, m) == Partition(s.gallery, m) && c !in Partition(after.gallery, m)
  {
    var c := NewCharacter(d, nowMillis, nowIso);
    OccurrencesOfJoin(s.queue, [c], c.id);
    assert [c][1..] == [];
  }

  /** Approve and reject keep the gallery approved-only and the queue pending-only. */
  lemma DecisionsKeepConsistency(s: StoreState, id: string)
    requires Consistent(s)
    ensures Consistent(Approve(s, id).state)
    ensures Consistent(Reject(s, id).state)
  {
    match FindIndex(s.queue, id)
    case None =>
    case Some(i) =>
      var q := RemoveAt(s.queue, i);
      forall c | c in q ensures c in s.queue {
        assert c in multiset(q);
      }
  }

  /** The store object: the two arrays, changed in place by the service functions. */
  class Store {
    var gallery: seq<Character>
    var queue: seq<Character>

    function State(): StoreState
      reads this
    {
      StoreState(gallery, queue)
    }

    ghost predicate Valid()
      reads this
    {
      Consistent(State())
    }

    constructor (seed: StoreState)
      requires Consistent(seed)
      ensures Valid() && State() == seed
    {
      gallery := seed.gallery;
      queue := seed.queue;
    }

    /** `getCharactersWithMusic`. */
    method CharactersWithMusic() returns (r: seq<Character>)
      ensures r == Partition(gallery, true)
    {
      r := Partition(gallery, true);
    }

    /** `getCharactersWithoutMusic`. */
    method CharactersWithoutMusic() returns (r: seq<Character>)
      ensures r == Partition(gallery, false)
    {
      r := Partition(gallery, false);
    }

    /** `getPendingCharacters`: the queue itself, in queue order. */
    method PendingCharacters() returns (r: seq<Character>)
      ensures r == queue
    {
      r := queue;
    }

    /** `approveCharacter`. */
    method ApproveCharacter(id: string) returns (r: Option<Character>)
      requires Valid()
      modifies this
      ensures Valid()
      ensures Decided(State(), r) == Approve(old(State()), id)
    {
      DecisionsKeepConsistency(State(), id);
      var found := FindIndex(queue, id);
      if found.Some? {
        var i := found.value;
        var c := queue[i].(status := Approved);
        gallery := gallery + [c];
        queue := queue[..i] + queue[i + 1..];
        r := Some(c);
      } else {
        r := None;
      }
    }

    /** `rejectCharacter`. */
    method RejectCharacter(id: string) returns (r: Option<Character>)
      requires Valid()
      modifies this
      ensures Valid()
      ensures Decided(State(), r) == Reject(old(State()), id)
    {
      DecisionsKeepConsistency(State(), id);
      var found := FindIndex(queue, id);
      if found.Some? {
        var i := found.value;
        var c := queue[i].(status := Rejected);
        queue := queue[..i] + queue[i + 1..];
        r := Some(c);
      } else {
        r := None;
      }
    }

    /** `submitCharacter`; the clock readings (`Date.now()`, `new Date().toISOString()`) are parameters. */
    method SubmitCharacter(d: Draft, nowMillis: nat, nowIso: string) returns (c: Character)
      requires Valid()
      modifies this
      ensures Valid()
      ensures c == NewCharacter(d, nowMillis, nowIso)
      ensures State() == Submit(old(State()), c)
    {
      SubmitSpec(State(), d, nowMillis, nowIso);
      c := NewCharacter(d, nowMillis, nowIso);
      queue := queue + [c];
    }
  }
}
