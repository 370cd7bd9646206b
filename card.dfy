/**
 * The character card, in its two versions: `CharacterCard.jsx`, and the card inside
 * `CharacterGallery.jsx`, which behaves the same and also records engagement (a view on
 * mount, a play, a download). What the card does on a click, what it shows in place of
 * missing data, how it truncates the tag list, and its mute toggle.
 */
module Card {
  import opened Wrappers
  import opened Text
  import opened Domain
  import Playback
  import Backend
  import MockData
  import SubmissionModal

  /** Which card: the standalone one, or the gallery's, which tracks engagement. */
  datatype Version = Standalone | InGallery

  /** A download link: the URL it points at and the file name it suggests. */
  datatype DownloadLink = DownloadLink(href: string, filename: string)

  /** What a card's handler does: ask the slot to play, start a download, or record engagement. */
  datatype CardEffect =
    | RequestPlay(music: Music, characterId: string)
    | StartDownload(link: DownloadLink)
    | Track(characterId: string, action: Backend.EngagementAction)

  /** The card's first music entry, when the card is a music card and the character has one. */
  function PlayableTrack(c: Character, hasMusic: bool): (r: Option<Music>)
    ensures r.Some? <==> hasMusic && c.music != []
    ensures r.Some? ==> r.value == c.music[0]
  {
    if hasMusic && c.music != [] then Some(c.music[0]) else None
  }

  /**
   * `handlePlay`: `onPlay(music[0], id)` only for a music card with a track; the gallery's then
   * records a play for the card's own character.
   */
  function PlayEffects(c: Character, hasMusic: bool, v: Version): (e: seq<CardEffect>)
    ensures e == [] <==> !hasMusic || c.music == []
    ensures e != [] ==> e[0] == RequestPlay(c.music[0], c.id)
    ensures Track(c.id, Backend.Play) in e <==> v == InGallery && e != []
    ensures forall x :: x in e ==> x == e[0] || x == Track(c.id, Backend.Play)
  {
    match PlayableTrack(c, hasMusic)
    case None => []
    case Some(m) => [RequestPlay(m, c.id)] + (if v == InGallery then [Track(c.id, Backend.Play)] else [])
  }

  /** `${character.name}_${character.id}.png`. */
  function DownloadName(c: Character): (r: string)
    ensures AfterLast(r, '.') == "png"
    ensures |r| == |c.name| + |c.id| + 5 && r[..|c.name|] == c.name && r[|c.name|] == '_'
    ensures r[|c.name| + 1..|c.name| + 1 + |c.id|] == c.id
  {
    var stem := c.name + "_" + c.id;
    AfterLastOfJoin(stem, '.', "png");
    assert stem + ".png" == stem + ['.'] + "png";
    stem + ".png"
  }

  /** The download a card offers: only when its first asset has an original URL. */
  function DownloadFor(c: Character): (r: Option<DownloadLink>)
    ensures r.Some? <==> c.assets != [] && Truthy(c.assets[0].originalUrl)
    ensures r.Some? ==> r.value.href == c.assets[0].originalUrl.value && r.value.filename == DownloadName(c)
  {
    if c.assets != [] && Truthy(c.assets[0].originalUrl) then
      Some(DownloadLink(c.assets[0].originalUrl.value, DownloadName(c)))
    else None
  }

  /** `handleDownload`: the link, then, on the gallery's card, a recorded download. */
  function DownloadEffects(c: Character, v: Version): (e: seq<CardEffect>)
    ensures e == [] <==> c.assets == [] || !Truthy(c.assets[0].originalUrl)
    ensures e != [] ==> (e[0].StartDownload? && e[0].link.href == c.assets[0].originalUrl.value &&
      AfterLast(e[0].link.filename, '.') == "png")
    ensures Track(c.id, Backend.Download) in e <==> v == InGallery && e != []
    ensures forall x :: x in e ==> x == e[0] || x == Track(c.id, Backend.Download)
  {
    match DownloadFor(c)
    case None => []
    case Some(link) => [StartDownload(link)] + (if v == InGallery then [Track(c.id, Backend.Download)] else [])
  }

  /** The gallery's card records a view when it mounts; the standalone card records nothing. */
  function MountEffects(c: Character, v: Version): (e: seq<CardEffect>)
    ensures e != [] <==> v == InGallery
    ensures forall x :: x in e ==> x == Track(c.id, Backend.View)
  {
    if v == InGallery then [Track(c.id, Backend.View)] else []
  }

  /** The engagement actions among a card's effects, in order. */
  function Tracked(es: seq<CardEffect>): (r: seq<Backend.EngagementAction>)
    ensures |r| <= |es|
  {
    if es == [] then []
    else (if es[0].Track? then [es[0].action] else []) + Tracked(es[1..])
  }

  lemma {:induction false} TrackedOfJoin(xs: seq<CardEffect>, ys: seq<CardEffect>)
    ensures Tracked(xs + ys) == Tracked(xs) + Tracked(ys)
  {
    if xs == [] {
      assert xs + ys == ys;
    } else {
      assert (xs + ys)[0] == xs[0];
      assert (xs + ys)[1..] == xs[1..] + ys;
      TrackedOfJoin(xs[1..], ys);
    }
  }

  /** Both cards make the same play request under the same guard; the gallery's card adds one play record after it. */
  lemma PlayVersionsAgree(c: Character, hasMusic: bool)
    ensures var e := PlayEffects(c, hasMusic, Standalone);
      PlayEffects(c, hasMusic, InGallery) == e + (if e == [] then [] else [Track(c.id, Backend.Play)]) &&
      forall x :: x in e ==> !x.Track?
  {
  }

  /** Both cards start the same download under the same guard; the gallery's card adds one download record after it. */
  lemma DownloadVersionsAgree(c: Character)
    ensures var e := DownloadEffects(c, Standalone);
      DownloadEffects(c, InGallery) == e + (if e == [] then [] else [Track(c.id, Backend.Download)]) &&
      forall x :: x in e ==> !x.Track?
  {
  }

  /** A handler's effects hold at most one record, placed after its request. */
  lemma TrackedPair(x: CardEffect, y: CardEffect)
    ensures Tracked([x]) == (if x.Track? then [x.action] else [])
    ensures !x.Track? ==> Tracked([x, y]) == Tracked([y])
  {
    assert [x][1..] == [];
    assert [x, y][1..] == [y];
  }

  lemma TrackedHandlers(c: Character, hasMusic: bool, v: Version)
    ensures Tracked(MountEffects(c, v)) == (if v == InGallery then [Backend.View] else [])
    ensures Tracked(PlayEffects(c, hasMusic, v)) ==
      (if v == InGallery && PlayableTrack(c, hasMusic).Some? then [Backend.Play] else [])
    ensures Tracked(DownloadEffects(c, v)) ==
      (if v == InGallery && DownloadFor(c).Some? then [Backend.Download] else [])
  {
    TrackedPair(Track(c.id, Backend.View), Track(c.id, Backend.View));
    if PlayableTrack(c, hasMusic).Some? {
      var r := RequestPlay(c.music[0], c.id);
      TrackedPair(r, Track(c.id, Backend.Play));
      TrackedPair(Track(c.id, Backend.Play), r);
    }
    if DownloadFor(c).Some? {
      var r := StartDownload(DownloadFor(c).value);
      TrackedPair(r, Track(c.id, Backend.Download));
      TrackedPair(Track(c.id, Backend.Download), r);
    }
  }

  /**
   * Over a card's life (mounted, its play button and its download button each pressed once),
   * the standalone card records nothing; the gallery's card records a view, then a play
   * exactly when a track was requested, then a download exactly when one started.
   */
  lemma EngagementRecorded(c: Character, hasMusic: bool, v: Version)
    ensures Tracked(MountEffects(c, v) + PlayEffects(c, hasMusic, v) + DownloadEffects(c, v)) ==
      (if v == Standalone then [] else
        [Backend.View] + (if PlayableTrack(c, hasMusic).Some? then [Backend.Play] else []) +
        (if DownloadFor(c).Some? then [Backend.Download] else []))
  {
    TrackedOfJoin(MountEffects(c, v) + PlayEffects(c, hasMusic, v), DownloadEffects(c, v));
    TrackedOfJoin(MountEffects(c, v), PlayEffects(c, hasMusic, v));
    TrackedHandlers(c, hasMusic, v);
  }

  /** The card image: `thumbnail_url || original_url`. */
  function ImageSource(a: Asset): (r: Option<string>)
    ensures Truthy(a.thumbnailUrl) ==> r == a.thumbnailUrl
    ensures !Truthy(a.thumbnailUrl) ==> r == a.originalUrl
  {
    if Truthy(a.thumbnailUrl) then a.thumbnailUrl else a.originalUrl
  }

  /** The track title shown: `title || 'Untitled'`, never empty. */
  function TrackTitle(m: Music): (r: string)
    ensures r != []
    ensures Truthy(m.title) ==> r == m.title.value
    ensures !Truthy(m.title) ==> r == "Untitled"
  {
    OrElse(m.title, "Untitled")
  }

  /** The creator line: `users?.name || 'Unknown'`, never empty. */
  function CreatorName(c: Character): (r: string)
    ensures r != []
    ensures c.users.Some? && c.users.value.name != [] ==> r == c.users.value.name
    ensures !(c.users.Some? && c.users.value.name != []) ==> r == "Unknown"
  {
    if c.users.Some? && c.users.value.name != [] then c.users.value.name else "Unknown"
  }

  /** The "own track" badge: shown exactly when the card would play a track marked as the owner's. */
  function ShowVerifiedBadge(c: Character, hasMusic: bool): (r: bool)
    ensures r <==> PlayableTrack(c, hasMusic).Some? && PlayableTrack(c, hasMusic).value.verifiedOwner
  {
    hasMusic && c.music != [] && c.music[0].verifiedOwner
  }

  /** A character submitted through the quick dialog never shows the "own track" badge. */
  lemma DialogSubmissionNeverVerified(f: SubmissionModal.ModalForm, originalMillis: nat, thumbnailMillis: nat,
                                      nowMillis: nat, nowIso: string, hasMusic: bool)
    ensures !ShowVerifiedBadge(MockData.NewCharacter(SubmissionModal.BuildSubmission(f, originalMillis, thumbnailMillis),
                                                     nowMillis, nowIso), hasMusic)
  {
    SubmissionModal.SubmissionMusic(f, originalMillis, thumbnailMillis);
  }

  /** The tags shown: `character_tags.slice(0, 3)`. */
  function VisibleTags(tags: seq<Tag>): (r: seq<Tag>)
    ensures |r| == if |tags| < 3 then |tags| else 3
    ensures r == tags[..|r|]
  {
    if |tags| <= 3 then tags else tags[..3]
  }

  /** The `+N` badge after the shown tags, present only when more than three exist. */
  function HiddenTagCount(tags: seq<Tag>): (r: Option<nat>)
    ensures r.Some? <==> |tags| > 3
    ensures r.Some? ==> r.value > 0
  {
    if |tags| > 3 then Some(|tags| - 3) else None
  }

  /** The shown tags and the badge together account for every tag, in order. */
  lemma TagsAccounted(tags: seq<Tag>)
    ensures |VisibleTags(tags)| + HiddenTagCount(tags).GetOr(0) == |tags|
    ensures VisibleTags(tags) + tags[|VisibleTags(tags)|..] == tags
  {
  }

  /** A card's own state: the mute indicator and whether the prompt is shown. */
  class CardState {
    var isMuted: bool
    var showPrompt: bool

    constructor()
      ensures !isMuted && !showPrompt
    {
      isMuted := false;
      showPrompt := false;
    }

    /**
     * `toggleMute`: with a current audio, flips its `muted` and mirrors it in the indicator;
     * without one, nothing changes.
     */
    method ToggleMute(currentAudio: Playback.Audio?)
      modifies this, currentAudio
      ensures currentAudio != null ==> currentAudio.muted == !old(currentAudio.muted) && isMuted == currentAudio.muted
      ensures currentAudio != null ==> currentAudio.paused == old(currentAudio.paused) && currentAudio.src == old(currentAudio.src)
      ensures currentAudio != null ==> currentAudio.currentTime == old(currentAudio.currentTime)
      ensures currentAudio == null ==> isMuted == old(isMuted)
      ensures showPrompt == old(showPrompt)
    {
      if currentAudio != null {
        currentAudio.muted := !currentAudio.muted;
        isMuted := currentAudio.muted;
      }
    }

    /** The eye button: shows or hides the prompt. */
    method TogglePrompt()
      modifies this
      ensures showPrompt == !old(showPrompt) && isMuted == old(isMuted)
    {
      showPrompt := !showPrompt;
    }
  }
}
