/**
 * The administrator panel of `AdminPanel.jsx`: the counts it shows above the pending list,
 * the status each card's buttons request from the character service, and the busy flag of
 * a card. The service's answers are inputs.
 */
module AdminPanel {
  import opened Wrappers
  import opened Domain
  import Backend

  /** `pending.filter(c => c.has_music)`, or with `!c.has_music`. */
  function ByMusic(cs: seq<Character>, hasMusic: bool): (r: seq<Character>)
    ensures |r| <= |cs|
    ensures forall k :: 0 <= k < |r| ==> r[k].hasMusic == hasMusic
  {
    if cs == [] then []
    else (if cs[0].hasMusic == hasMusic then [cs[0]] else []) + ByMusic(cs[1..], hasMusic)
  }

  /** The filter keeps exactly the entries with the asked-for flag. */
  lemma {:induction false} ByMusicKeeps(cs: seq<Character>, hasMusic: bool, c: Character)
    ensures c in ByMusic(cs, hasMusic) <==> c in cs && c.hasMusic == hasMusic
  {
    if cs != [] {
      ByMusicKeeps(cs[1..], hasMusic, c);
      assert c in cs <==> c == cs[0] || c in cs[1..];
    }
  }

  /** Every entry has music or has none, so the two filters share the list between them. */
  lemma {:induction false} ByMusicSplits(cs: seq<Character>)
    ensures |ByMusic(cs, true)| + |ByMusic(cs, false)| == |cs|
  {
    if cs != [] {
      ByMusicSplits(cs[1..]);
    }
  }

  /** `statsData`. */
  datatype Stats = Stats(pending: nat, approved: nat, withMusic: nat, withoutMusic: nat)

  /**
   * The counts over the answer of `getPendingCharacters`: `pending?.length || 0` and the two
   * filtered lengths, with `approved` fixed at 0. A `null` answer counts as nothing.
   */
  function ComputeStats(pending: Option<seq<Character>>): (r: Stats)
    ensures r.approved == 0
    ensures pending.None? ==> r == Stats(0, 0, 0, 0)
    ensures pending.Some? ==> r.pending == |pending.value|
    ensures pending.Some? ==> r.withMusic == |ByMusic(pending.value, true)| && r.withoutMusic == |ByMusic(pending.value, false)|
  {
    match pending
    case None => Stats(0, 0, 0, 0)
    case Some(cs) => Stats(|cs|, 0, |ByMusic(cs, true)|, |ByMusic(cs, false)|)
  }

  /** The two music counts add up to the pending count, which is the length of the list shown. */
  lemma StatsAddUp(pending: Option<seq<Character>>)
    ensures var st := ComputeStats(pending);
      st.pending == |pending.GetOr([])| && st.withMusic + st.withoutMusic == st.pending
  {
    ByMusicSplits(pending.GetOr([]));
  }

  /** `AdminStats`: each count `|| 0`; before the first load the stats object is `{}`. */
  function Displayed(stats: Option<Stats>): (r: Stats)
    ensures stats.None? ==> r == Stats(0, 0, 0, 0)
    ensures stats.Some? ==> r == stats.value
  {
    stats.GetOr(Stats(0, 0, 0, 0))
  }

  /** The two buttons of a pending card. */
  datatype Decision = ApproveDecision | RejectDecision

  /** The status a button asks `updateCharacterStatus` for. */
  function StatusFor(d: Decision): (s: string)
    ensures d == ApproveDecision <==> Backend.MockStatusRoute(s) == Backend.ToApprove
    ensures d == RejectDecision <==> Backend.MockStatusRoute(s) == Backend.ToReject
  {
    match d
    case ApproveDecision => "approved"
    case RejectDecision => "rejected"
  }

  /** The two buttons ask for different statuses, and neither is one the mock service ignores. */
  lemma StatusForDistinct()
    ensures StatusFor(ApproveDecision) != StatusFor(RejectDecision)
    ensures forall d :: Backend.MockStatusRoute(StatusFor(d)) != Backend.Ignored
  {
  }

  /** What the panel and its cards ask of the outside. */
  datatype PanelCall =
    | FetchPending
    | UpdateStatus(id: string, status: string)
    | NotifyDecided
    | RefreshGallery

  /** `PendingCharacterCard`: the card's character id, its busy flag and whether its prompt is open. */
  class PendingCardState {
    const characterId: string
    var loading: bool
    var showDetails: bool
    var calls: seq<PanelCall>

    constructor(id: string)
      ensures characterId == id && !loading && !showDetails && calls == []
    {
      characterId := id;
      loading := false;
      showDetails := false;
      calls := [];
    }

    /**
     * `handleApprove`: asks for status `approved` for the card's own id; the panel is told only
     * when the update resolves, and a failure is only logged. The card is not busy afterwards.
     */
    method HandleApprove(succeeded: bool)
      modifies this
      ensures calls == old(calls) + [UpdateStatus(characterId, StatusFor(ApproveDecision))] +
        (if succeeded then [NotifyDecided] else [])
      ensures !loading && showDetails == old(showDetails)
    {
      loading := true;
      calls := calls + [UpdateStatus(characterId, StatusFor(ApproveDecision))];
      if succeeded {
        calls := calls + [NotifyDecided];
      }
      loading := false;
    }

    /** `handleReject`: the same with status `rejected`; it tells the panel through the same callback. */
    method HandleReject(succeeded: bool)
      modifies this
      ensures calls == old(calls) + [UpdateStatus(characterId, StatusFor(RejectDecision))] +
        (if succeeded then [NotifyDecided] else [])
      ensures !loading && showDetails == old(showDetails)
    {
      loading := true;
      calls := calls + [UpdateStatus(characterId, StatusFor(RejectDecision))];
      if succeeded {
        calls := calls + [NotifyDecided];
      }
      loading := false;
    }

    /** The prompt button: shows or hides the prompt summary. */
    method ToggleDetails()
      modifies this
      ensures showDetails == !old(showDetails) && loading == old(loading) && calls == old(calls)
    {
      showDetails := !showDetails;
    }
  }

  /** The panel: its pending list, busy flag and stats (`{}` until the first load). */
  class AdminPanelState {
    var pendingCharacters: seq<Character>
    var loading: bool
    var stats: Option<Stats>
    var calls: seq<PanelCall>

    constructor()
      ensures pendingCharacters == [] && loading && stats.None? && calls == []
    {
      pendingCharacters := [];
      loading := true;
      stats := None;
      calls := [];
    }

    /**
     * `loadPendingCharacters`: the answer, or an empty list for `null`, is shown with its
     * counts; a thrown error keeps the list and counts shown before. Loading ends either way.
     */
    method LoadPending(answer: Fetch<seq<Character>>)
      modifies this
      ensures answer.Loaded? ==> pendingCharacters == answer.result.GetOr([]) && stats == Some(ComputeStats(answer.result))
      ensures answer.Threw? ==> pendingCharacters == old(pendingCharacters) && stats == old(stats)
      ensures !loading && calls == old(calls) + [FetchPending]
    {
      loading := true;
      calls := calls + [FetchPending];
      if answer.Loaded? {
        var pending := answer.result;
        pendingCharacters := pending.GetOr([]);
        stats := Some(ComputeStats(pending));
      }
      loading := false;
    }

    /**
     * `handleCharacterAction`, what a card's callback runs: the list is fetched again and the
     * gallery is told to refresh, without waiting for the fetch.
     */
    method HandleCharacterAction(answer: Fetch<seq<Character>>)
      modifies this
      ensures answer.Loaded? ==> pendingCharacters == answer.result.GetOr([]) && stats == Some(ComputeStats(answer.result))
      ensures answer.Threw? ==> pendingCharacters == old(pendingCharacters) && stats == old(stats)
      ensures !loading && calls == old(calls) + [FetchPending, RefreshGallery]
    {
      LoadPending(answer);
      calls := calls + [RefreshGallery];
    }
  }
}
