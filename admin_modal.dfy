/**
 * The moderation dialog of `AdminModal.jsx`: its local copy of the pending list, the
 * per-id `processing` map that disables an entry's buttons while a decision is in flight,
 * and the two handlers. Each handler is an `async` function that marks the id, awaits the
 * store, and settles in `finally`; other handlers may run during the await, so each is
 * modelled as its two halves, `Begin…` and `Settle…`. The store's answer, the `confirm`
 * dialog and whether an `onUpdate` callback was passed are inputs.
 */
module AdminModal {
  import opened Wrappers
  import opened Domain
  import MockData

  /** `prev.filter(c => c.id !== characterId)`: every entry with the id goes, the rest stay in order. */
  function RemoveId(cs: seq<Character>, id: string): (r: seq<Character>)
    ensures |r| <= |cs|
    ensures forall k :: 0 <= k < |r| ==> r[k].id != id
  {
    if cs == [] then []
    else (if cs[0].id == id then [] else [cs[0]]) + RemoveId(cs[1..], id)
  }

  /** The entries kept are exactly those of the list with another id. */
  lemma {:induction false} RemoveIdKeeps(cs: seq<Character>, id: string, c: Character)
    ensures c in RemoveId(cs, id) <==> c in cs && c.id != id
  {
    if cs != [] {
      RemoveIdKeeps(cs[1..], id, c);
      assert c in cs <==> c == cs[0] || c in cs[1..];
    }
  }

  /** Filtering works piece by piece, so the kept entries keep their relative order. */
  lemma {:induction false} RemoveIdOfJoin(xs: seq<Character>, ys: seq<Character>, id: string)
    ensures RemoveId(xs + ys, id) == RemoveId(xs, id) + RemoveId(ys, id)
  {
    if xs == [] {
      assert xs + ys == ys;
    } else {
      assert (xs + ys)[1..] == xs[1..] + ys;
      RemoveIdOfJoin(xs[1..], ys, id);
    }
  }

  /** A list without the id is left exactly as it was. */
  lemma {:induction false} RemoveIdAbsent(cs: seq<Character>, id: string)
    requires forall k :: 0 <= k < |cs| ==> cs[k].id != id
    ensures RemoveId(cs, id) == cs
  {
    if cs != [] {
      RemoveIdAbsent(cs[1..], id);
    }
  }

  /** Every entry with the id is removed, and each other id keeps all of its entries. */
  lemma {:induction false} RemoveIdCounts(cs: seq<Character>, id: string, x: string)
    ensures MockData.Occurrences(RemoveId(cs, id), x) == if x == id then 0 else MockData.Occurrences(cs, x)
  {
    if cs != [] {
      RemoveIdCounts(cs[1..], id, x);
      MockData.OccurrencesOfJoin(if cs[0].id == id then [] else [cs[0]], RemoveId(cs[1..], id), x);
    }
  }

  /** Two decisions settle in either order with the same list. */
  lemma {:induction false} RemoveIdCommutes(cs: seq<Character>, a: string, b: string)
    ensures RemoveId(RemoveId(cs, a), b) == RemoveId(RemoveId(cs, b), a)
  {
    if cs != [] {
      RemoveIdCommutes(cs[1..], a, b);
      var head := if cs[0].id == a then [] else [cs[0]];
      RemoveIdOfJoin(head, RemoveId(cs[1..], a), b);
      var head' := if cs[0].id == b then [] else [cs[0]];
      RemoveIdOfJoin(head', RemoveId(cs[1..], b), a);
    }
  }

  /**
   * While the list holds the id once, removing it locally leaves the same list as the store's
   * `splice` of the queue: the dialog and the store stay in step.
   */
  lemma AgreesWithStoreWhenUnique(q: seq<Character>, id: string)
    requires MockData.Occurrences(q, id) == 1
    ensures MockData.FindIndex(q, id).Some?
    ensures RemoveId(q, id) == MockData.RemoveAt(q, MockData.FindIndex(q, id).value)
  {
    MockData.OccurrencesPositive(q, id);
    var i := MockData.FindIndex(q, id).value;
    var before, after := q[..i], q[i + 1..];
    assert q == before + [q[i]] + after;
    MockData.OccurrencesPositive(before, id);
    MockData.OccurrencesOfJoin(before + [q[i]], after, id);
    MockData.OccurrencesOfJoin(before, [q[i]], id);
    MockData.OccurrencesPositive(after, id);
    RemoveIdAround(before, q[i], after, id);
  }

  /** Removing the id from a list that holds it only at one known place. */
  lemma RemoveIdAround(before: seq<Character>, c: Character, after: seq<Character>, id: string)
    requires c.id == id
    requires forall k :: 0 <= k < |before| ==> before[k].id != id
    requires forall k :: 0 <= k < |after| ==> after[k].id != id
    ensures RemoveId(before + [c] + after, id) == before + after
  {
    assert [c][1..] == [];
    assert RemoveId([c], id) == [];
    RemoveIdOfJoin(before, [c], id);
    RemoveIdAbsent(before, id);
    assert RemoveId(before + [c], id) == before;
    RemoveIdOfJoin(before + [c], after, id);
    RemoveIdAbsent(after, id);
  }

  /**
   * When the id is queued more than once, the store approves only its first entry, while the
   * dialog drops them all: the dialog's list no longer shows entries the store still holds.
   */
  lemma DiffersFromStoreOnDuplicates(s: MockData.StoreState, id: string)
    requires MockData.Occurrences(s.queue, id) >= 2
    ensures RemoveId(s.queue, id) != MockData.Approve(s, id).state.queue
    ensures RemoveId(s.queue, id) != MockData.Reject(s, id).state.queue
  {
    RemoveIdCounts(s.queue, id, id);
    MockData.ApproveSpec(s, id);
    MockData.RejectSpec(s, id);
  }

  /** The two decisions a `processing` entry can be busy with. */
  datatype Activity = Approving | Rejecting

  /**
   * `processing`: an entry appears for an id when it is acted on and is set back to `null`
   * (here `None`), never deleted, when the call settles.
   */
  type Processing = map<string, Option<Activity>>

  /** `disabled={processing[character.id]}`, shared by both buttons of an entry. */
  predicate ActionsDisabled(p: Processing, id: string) {
    id in p && p[id].Some?
  }

  /** `setProcessing(prev => ({ ...prev, [id]: a }))`: one entry is written, every other kept. */
  function Mark(p: Processing, id: string, a: Option<Activity>): (r: Processing)
    ensures ActionsDisabled(r, id) <==> a.Some?
    ensures forall x :: x != id ==> (x in r <==> x in p) && (ActionsDisabled(r, x) <==> ActionsDisabled(p, x))
    ensures r.Keys == p.Keys + {id}
  {
    p[id := a]
  }

  /** A marked id is busy until it settles; settling frees it and no other id changes on the way. */
  lemma ProcessingCycle(p: Processing, id: string, a: Activity, x: string)
    requires x != id
    ensures ActionsDisabled(Mark(p, id, Some(a)), id)
    ensures !ActionsDisabled(Mark(Mark(p, id, Some(a)), id, None), id)
    ensures ActionsDisabled(Mark(Mark(p, id, Some(a)), id, None), x) == ActionsDisabled(p, x)
  {
  }

  /** The alerts the handlers raise. */
  datatype Notice = ApprovedNotice | ApproveFailedNotice | RejectedNotice | RejectFailedNotice

  /** What the dialog asks of the outside: the store, the `onUpdate` callback, the browser's dialogs. */
  datatype AdminCall =
    | FetchPending
    | ApproveRequest(id: string)
    | RejectRequest(id: string)
    | NotifyUpdate
    | AskConfirm
    | Alert(notice: Notice)

  /** The dialog's state. */
  class AdminModalState {
    var pendingCharacters: seq<Character>
    var loading: bool
    var processing: Processing
    var calls: seq<AdminCall>

    constructor()
      ensures pendingCharacters == [] && loading && processing == map[] && calls == []
    {
      pendingCharacters := [];
      loading := true;
      processing := map[];
      calls := [];
    }

    /**
     * `loadPendingCharacters`: a `null` answer shows an empty list; a thrown error keeps the
     * list that was shown. Loading ends either way.
     */
    method LoadPending(answer: Fetch<seq<Character>>)
      modifies this
      ensures pendingCharacters == match answer
        case Loaded(r) => r.GetOr([])
        case Threw => old(pendingCharacters)
      ensures !loading && processing == old(processing) && calls == old(calls) + [FetchPending]
    {
      loading := true;
      calls := calls + [FetchPending];
      match answer {
        case Loaded(r) => pendingCharacters := r.GetOr([]);
        case Threw =>
      }
      loading := false;
    }

    /** `handleApprove` up to its `await`: the id is marked `approving` and the store is asked. */
    method BeginApprove(id: string)
      modifies this
      ensures processing == Mark(old(processing), id, Some(Approving))
      ensures calls == old(calls) + [ApproveRequest(id)]
      ensures pendingCharacters == old(pendingCharacters) && loading == old(loading)
    {
      processing := Mark(processing, id, Some(Approving));
      calls := calls + [ApproveRequest(id)];
    }

    /**
     * `handleApprove` after its `await`: on success every entry with the id leaves the list,
     * `onUpdate` runs (when given) and the success alert shows; on failure the list stays and the
     * failure alert shows. The `finally` clears the id's mark in both cases.
     */
    method SettleApprove(id: string, succeeded: bool, hasOnUpdate: bool)
      modifies this
      ensures pendingCharacters == if succeeded then RemoveId(old(pendingCharacters), id) else old(pendingCharacters)
      ensures calls == old(calls) +
        if succeeded then (if hasOnUpdate then [NotifyUpdate] else []) + [Alert(ApprovedNotice)]
        else [Alert(ApproveFailedNotice)]
      ensures processing == Mark(old(processing), id, None) && loading == old(loading)
    {
      if succeeded {
        pendingCharacters := RemoveId(pendingCharacters, id);
        if hasOnUpdate {
          calls := calls + [NotifyUpdate];
        }
        calls := calls + [Alert(ApprovedNotice)];
      } else {
        calls := calls + [Alert(ApproveFailedNotice)];
      }
      processing := Mark(processing, id, None);
    }

    /**
     * `handleReject` up to its `await`: a declined `confirm` returns at once with nothing else
     * changed; otherwise the id is marked `rejecting` and the store is asked.
     */
    method BeginReject(id: string, confirmed: bool) returns (started: bool)
      modifies this
      ensures started == confirmed
      ensures calls == old(calls) + [AskConfirm] + (if confirmed then [RejectRequest(id)] else [])
      ensures processing == if confirmed then Mark(old(processing), id, Some(Rejecting)) else old(processing)
      ensures pendingCharacters == old(pendingCharacters) && loading == old(loading)
    {
      calls := calls + [AskConfirm];
      if !confirmed {
        return false;
      }
      processing := Mark(processing, id, Some(Rejecting));
      calls := calls + [RejectRequest(id)];
      started := true;
    }

    /**
     * `handleReject` after its `await`: like approval, except that `onUpdate` is never called,
     * so the gallery is not told.
     */
    method SettleReject(id: string, succeeded: bool)
      modifies this
      ensures pendingCharacters == if succeeded then RemoveId(old(pendingCharacters), id) else old(pendingCharacters)
      ensures calls == old(calls) + [Alert(if succeeded then RejectedNotice else RejectFailedNotice)]
      ensures NotifyUpdate !in calls[|old(calls)|..]
      ensures processing == Mark(old(processing), id, None) && loading == old(loading)
    {
      if succeeded {
        pendingCharacters := RemoveId(pendingCharacters, id);
      }
      calls := calls + [Alert(if succeeded then RejectedNotice else RejectFailedNotice)];
      processing := Mark(processing, id, None);
    }
  }

  /**
   * Two approvals in flight at once, settling in the opposite order: each filter runs on the list
   * as it is then, so both entries are gone, nothing else is, and neither id stays disabled.
   */
  method OverlappingApprovals(shown: seq<Character>, a: string, b: string) returns (m: AdminModalState)
    ensures forall c :: c in m.pendingCharacters <==> c in shown && c.id != a && c.id != b
    ensures m.pendingCharacters == RemoveId(RemoveId(shown, a), b)
    ensures !ActionsDisabled(m.processing, a) && !ActionsDisabled(m.processing, b)
  {
    m := new AdminModalState();
    m.LoadPending(Loaded(Some(shown)));
    m.BeginApprove(a);
    m.BeginApprove(b);
    assert ActionsDisabled(m.processing, a) && ActionsDisabled(m.processing, b);
    m.SettleApprove(b, true, true);
    m.SettleApprove(a, true, true);
    RemoveIdCommutes(shown, a, b);
    forall c ensures c in m.pendingCharacters <==> c in shown && c.id != a && c.id != b {
      RemoveIdKeeps(shown, a, c);
      RemoveIdKeeps(RemoveId(shown, a), b, c);
    }
  }
}
