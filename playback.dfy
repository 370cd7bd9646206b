/**
 * The single playback slot that `App.jsx` and `CharacterGallery.jsx` each keep: the current
 * audio element, the id of the character it plays, and the ref to the last one created.
 * Clicking a card's play button calls `HandlePlay`; the audio element's `canplay`, `ended`
 * and `error` events and the component's unmount are the environment's moves. The effect
 * that cleans up the previous audio runs whenever the current audio changes, so it is part
 * of every step that replaces it.
 */
module Playback {
  import opened Wrappers
  import opened Domain

  /** A browser audio element, reduced to what the handlers read and write. */
  class Audio {
    var src: string
    var paused: bool
    var currentTime: int
    var muted: bool

    /** `new Audio()`: no source, paused at the start, not muted. */
    constructor()
      ensures src == [] && paused && currentTime == 0 && !muted
    {
      src := [];
      paused := true;
      currentTime := 0;
      muted := false;
    }
  }

  /** `isPlaying` of each card in a grid: `playingCharacterId === character.id`. */
  function PlayingFlags(slot: Option<string>, ids: seq<string>): (r: seq<bool>)
    ensures |r| == |ids|
    ensures forall i :: 0 <= i < |ids| ==> (r[i] <==> slot == Some(ids[i]))
  {
    if ids == [] then [] else [slot == Some(ids[0])] + PlayingFlags(slot, ids[1..])
  }

  /** Among cards with distinct ids at most one reads as playing, and none when the slot is empty. */
  lemma AtMostOnePlaying(slot: Option<string>, ids: seq<string>)
    requires forall i, j :: 0 <= i < j < |ids| ==> ids[i] != ids[j]
    ensures forall i, j :: 0 <= i < j < |ids| && PlayingFlags(slot, ids)[i] ==> !PlayingFlags(slot, ids)[j]
    ensures slot.None? ==> forall i :: 0 <= i < |ids| ==> !PlayingFlags(slot, ids)[i]
  {
  }

  /** The slot: `currentAudio`, `playingCharacterId` and `audioRef`. */
  class Player {
    var currentAudio: Audio?
    var playingId: Option<string>
    var audioRef: Audio?

    /** Every handler sets or clears the two halves of the slot together. */
    predicate Valid()
      reads this
    {
      (currentAudio == null) == playingId.None?
    }

    constructor()
      ensures Valid() && currentAudio == null && playingId.None? && audioRef == null
    {
      currentAudio := null;
      playingId := None;
      audioRef := null;
    }

    /** Whether the card with this id shows as playing. */
    predicate IsPlaying(id: string)
      reads this
    {
      playingId == Some(id)
    }

    /**
     * Puts `next` and `id` in the slot. When that replaces an audio, the cleanup effect of the
     * replaced one runs: it is paused and its source blanked.
     */
    method Install(next: Audio?, id: Option<string>)
      requires (next == null) == id.None?
      modifies this, currentAudio
      ensures Valid() && currentAudio == next && playingId == id && audioRef == old(audioRef)
      ensures old(currentAudio) != null && old(currentAudio) != next ==>
        old(currentAudio).paused && old(currentAudio).src == [] &&
        old(currentAudio).currentTime == old(currentAudio.currentTime) && old(currentAudio).muted == old(currentAudio.muted)
      ensures old(currentAudio) != null && old(currentAudio) == next ==> unchanged(old(currentAudio))
    {
      var previous := currentAudio;
      currentAudio := next;
      playingId := id;
      if previous != null && previous != next {
        previous.paused := true;
        previous.src := [];
      }
    }

    /**
     * `handlePlay(music, characterId)`: the current audio is paused and rewound first. The same id
     * empties the slot (a second click stops); any other id gets a new audio playing
     * `music.embed_url`, whatever the platform, and takes the slot at once, before it can play.
     * The replaced audio ends up paused, rewound and with its source blanked.
     */
    method HandlePlay(music: Music, characterId: string)
      requires Valid()
      modifies this, currentAudio
      ensures Valid()
      ensures old(currentAudio) != null ==>
        old(currentAudio).paused && old(currentAudio).currentTime == 0 && old(currentAudio).src == []
      ensures old(currentAudio) != null ==> old(currentAudio).muted == old(currentAudio.muted)
      ensures old(playingId) == Some(characterId) ==>
        currentAudio == null && playingId.None? && audioRef == old(audioRef)
      ensures old(playingId) != Some(characterId) ==>
        currentAudio != null && fresh(currentAudio) && audioRef == currentAudio && IsPlaying(characterId) &&
        currentAudio.src == music.embedUrl && currentAudio.paused && currentAudio.currentTime == 0 && !currentAudio.muted
    {
      if currentAudio != null {
        currentAudio.paused := true;
        currentAudio.currentTime := 0;
      }
      if playingId == Some(characterId) {
        Install(null, None);
        return;
      }
      var audio := new Audio();
      audio.src := music.embedUrl;
      Install(audio, Some(characterId));
      audioRef := audio;
    }

    /** `canplay` on an audio: it starts unless the browser rejects `play()`; the slot is not consulted. */
    method OnCanPlay(source: Audio, playAccepted: bool)
      modifies source
      ensures source.paused == (old(source.paused) && !playAccepted)
      ensures source.src == old(source.src) && source.currentTime == old(source.currentTime) && source.muted == old(source.muted)
    {
      if playAccepted {
        source.paused := false;
      }
    }

    /**
     * `ended` or `error` on any audio: the slot is emptied whichever audio fired, and the cleanup
     * effect pauses and blanks the audio that was in it.
     */
    method OnEndedOrError(source: Audio)
      requires Valid()
      modifies this, currentAudio
      ensures Valid() && currentAudio == null && playingId.None? && audioRef == old(audioRef)
      ensures old(currentAudio) != null ==> old(currentAudio).paused && old(currentAudio).src == []
      ensures old(currentAudio) != null ==>
        old(currentAudio).currentTime == old(currentAudio.currentTime) && old(currentAudio).muted == old(currentAudio.muted)
    {
      Install(null, None);
    }

    /** Unmount: the cleanup effect pauses the current audio and blanks its source. */
    method Unmount()
      modifies currentAudio
      ensures currentAudio != null ==> currentAudio.paused && currentAudio.src == []
      ensures currentAudio != null ==>
        currentAudio.currentTime == old(currentAudio.currentTime) && currentAudio.muted == old(currentAudio.muted)
    {
      if currentAudio != null {
        currentAudio.paused := true;
        currentAudio.src := [];
      }
    }
  }

  /**
   * A switch from one track to another blanks the first audio's source. If the browser reports
   * that as an `error` on the first audio, the handler, which does not check which audio fired,
   * empties the slot, and the cleanup effect then pauses and blanks the second audio: the switch
   * ends in silence with no card playing.
   */
  method StaleErrorStopsNewTrack(first: Music, second: Music, firstId: string, secondId: string)
    returns (p: Player, firstAudio: Audio, secondAudio: Audio)
    requires firstId != secondId
    ensures firstAudio != secondAudio && secondAudio.src == [] && secondAudio.paused && firstAudio.paused
    ensures p.Valid() && p.currentAudio == null && !p.IsPlaying(firstId) && !p.IsPlaying(secondId)
  {
    p := new Player();
    p.HandlePlay(first, firstId);
    firstAudio := p.currentAudio;
    p.OnCanPlay(firstAudio, true);
    p.HandlePlay(second, secondId);
    secondAudio := p.currentAudio;
    p.OnCanPlay(secondAudio, true);
    p.OnEndedOrError(firstAudio);
  }
}
