/**
 * The quick submission dialog of `SubmissionModal.jsx`: its form fields, how an input
 * event changes them, the object it hands to `submitCharacter` (with the placeholder image,
 * demo track and title it fills in), when its submit button is disabled, and what a submit
 * does to the dialog's state.
 */
module SubmissionModal {
  import opened Wrappers
  import opened Text
  import opened Domain
  import MockData
  import SubmissionForm

  /** The dialog's `formData`. */
  datatype ModalForm = ModalForm(
    name: string,
    shortWorldview: string,
    description: string,
    hasMusic: bool,
    aiToolUsed: string,
    musicUrl: string,
    musicTitle: string,
    imageUrl: string,
    promptSummary: string)

  /** The values the dialog opens with and returns to after a successful submit. */
  const InitialForm := ModalForm("", "", "", false, "", "", "", "", "")

  /** The text inputs, by their `name` attribute; `has_music` is the one checkbox. */
  datatype TextField = Name | ShortWorldview | Description | AiToolUsed | MusicUrl | MusicTitle | ImageUrl | PromptSummary

  /** A change event: a text input carries its `value`, the checkbox its `checked` state. */
  datatype InputEvent = TextInput(field: TextField, value: string) | CheckboxInput(checked: bool)

  function FieldValue(f: ModalForm, field: TextField): string {
    match field
    case Name => f.name
    case ShortWorldview => f.shortWorldview
    case Description => f.description
    case AiToolUsed => f.aiToolUsed
    case MusicUrl => f.musicUrl
    case MusicTitle => f.musicTitle
    case ImageUrl => f.imageUrl
    case PromptSummary => f.promptSummary
  }

  /**
   * `handleInputChange`: `{ ...prev, [name]: type === 'checkbox' ? checked : value }`. Only the
   * named field changes; the checkbox sets `has_music` to its checked state.
   */
  function ApplyInput(f: ModalForm, e: InputEvent): (r: ModalForm)
    ensures e.TextInput? ==> FieldValue(r, e.field) == e.value && r.hasMusic == f.hasMusic
    ensures e.TextInput? ==> forall g :: g != e.field ==> FieldValue(r, g) == FieldValue(f, g)
    ensures e.CheckboxInput? ==> r.hasMusic == e.checked && forall g :: FieldValue(r, g) == FieldValue(f, g)
  {
    match e
    case CheckboxInput(checked) => f.(hasMusic := checked)
    case TextInput(field, value) =>
      match field
      case Name => f.(name := value)
      case ShortWorldview => f.(shortWorldview := value)
      case Description => f.(description := value)
      case AiToolUsed => f.(aiToolUsed := value)
      case MusicUrl => f.(musicUrl := value)
      case MusicTitle => f.(musicTitle := value)
      case ImageUrl => f.(imageUrl := value)
      case PromptSummary => f.(promptSummary := value)
  }

  /** Typing the value a field already holds leaves the form as it was. */
  lemma ApplyInputIdempotent(f: ModalForm, e: InputEvent)
    ensures ApplyInput(ApplyInput(f, e), e) == ApplyInput(f, e)
    ensures e.TextInput? && FieldValue(f, e.field) == e.value ==> ApplyInput(f, e) == f
    ensures e.CheckboxInput? && f.hasMusic == e.checked ==> ApplyInput(f, e) == f
  {
  }

  const PlaceholderImagePrefix := "https://picsum.photos/400/400?random="
  const DemoTrackUrl := "https://www.soundjay.com/misc/sounds/bell-ringing-05.wav"
  const DefaultTitle := "Untitled"

  /** `formData.image_url || 'https://picsum.photos/400/400?random=' + Date.now()`. */
  function ImageOrPlaceholder(imageUrl: string, nowMillis: nat): (r: string)
    ensures imageUrl != [] ==> r == imageUrl
    ensures imageUrl == [] ==> r == PlaceholderImagePrefix + NatToString(nowMillis)
  {
    OrElse(Some(imageUrl), PlaceholderImagePrefix + NatToString(nowMillis))
  }

  /** The one image asset: both URLs from the form, or placeholders from two separate clock readings. */
  function ImageAsset(f: ModalForm, originalMillis: nat, thumbnailMillis: nat): Asset {
    Asset(None, "image", Some(ImageOrPlaceholder(f.imageUrl, originalMillis)),
          Some(ImageOrPlaceholder(f.imageUrl, thumbnailMillis)), Some(f.promptSummary))
  }

  /** The music entry of a `has_music` submission: a Suno track, never verified, with URL and title defaults. */
  function TrackFor(f: ModalForm): Music {
    Music(None, "suno", OrElse(Some(f.musicUrl), DemoTrackUrl), Some(OrElse(Some(f.musicTitle), DefaultTitle)), false, None)
  }

  /**
   * `submissionData`: the form's text passed through untouched (no trimming, empty strings kept),
   * one image asset, the music list, and no tags.
   */
  function BuildSubmission(f: ModalForm, originalMillis: nat, thumbnailMillis: nat): (d: Draft)
    ensures d.name == f.name && d.shortWorldview == f.shortWorldview && d.hasMusic == f.hasMusic
    ensures d.description == Some(f.description) && d.aiToolUsed == Some(f.aiToolUsed)
    ensures d.id.None? && d.status.None? && d.userId.None? && d.tags == []
    ensures |d.assets| == 1 && d.assets[0].kind == "image" && d.assets[0].promptSummary == Some(f.promptSummary)
    ensures |d.music| == if f.hasMusic then 1 else 0
  {
    Draft(None, f.name, f.shortWorldview, Some(f.description), f.hasMusic, Some(f.aiToolUsed), None, None, None, None,
          [ImageAsset(f, originalMillis, thumbnailMillis)], if f.hasMusic then [TrackFor(f)] else [], [])
  }

  /**
   * A typed image URL is used for both the original and the thumbnail; without one each gets a
   * placeholder, and readings of the clock that differ give placeholders that differ.
   */
  lemma SubmissionImageUrls(f: ModalForm, originalMillis: nat, thumbnailMillis: nat)
    ensures var a := BuildSubmission(f, originalMillis, thumbnailMillis).assets[0];
      a.originalUrl.Some? && a.thumbnailUrl.Some? && a.originalUrl.value != [] && a.thumbnailUrl.value != [] &&
      (f.imageUrl != [] ==> a.originalUrl == a.thumbnailUrl == Some(f.imageUrl)) &&
      (f.imageUrl == [] ==> (a.originalUrl == a.thumbnailUrl <==> originalMillis == thumbnailMillis))
  {
    var p, x, y := PlaceholderImagePrefix, NatToString(originalMillis), NatToString(thumbnailMillis);
    if f.imageUrl == [] && p + x == p + y {
      assert x == (p + x)[|p|..] && y == (p + y)[|p|..];
      NatToStringInjective(originalMillis, thumbnailMillis);
    }
  }

  /** Every music entry is an unverified Suno track with a non-empty URL and title. */
  lemma SubmissionMusic(f: ModalForm, originalMillis: nat, thumbnailMillis: nat)
    ensures var d := BuildSubmission(f, originalMillis, thumbnailMillis);
      (f.hasMusic <==> d.music != []) &&
      forall m :: m in d.music ==>
        m.platform == "suno" && !m.verifiedOwner && m.embedUrl != [] && m.title.Some? && m.title.value != [] &&
        (f.musicUrl != [] ==> m.embedUrl == f.musicUrl) && (f.musicUrl == [] ==> m.embedUrl == DemoTrackUrl) &&
        (f.musicTitle != [] ==> m.title.value == f.musicTitle) && (f.musicTitle == [] ==> m.title.value == DefaultTitle)
  {
  }

  /** Queued through the mock store, the submission becomes a pending entry with the form's own fields. */
  lemma SubmissionQueuedPending(f: ModalForm, originalMillis: nat, thumbnailMillis: nat, nowMillis: nat, nowIso: string)
    ensures var c := MockData.NewCharacter(BuildSubmission(f, originalMillis, thumbnailMillis), nowMillis, nowIso);
      c.status == Pending && c.id == NatToString(nowMillis) && c.name == f.name &&
      c.shortWorldview == f.shortWorldview && c.hasMusic == f.hasMusic && c.tags == [] &&
      (c.music == [] <==> !f.hasMusic)
  {
  }

  /**
   * The submit button: disabled while submitting or while the name or worldview is the empty
   * string. A field of spaces counts as filled in: nothing is trimmed.
   */
  function SubmitDisabled(isSubmitting: bool, f: ModalForm): (r: bool)
    ensures isSubmitting ==> r
    ensures !isSubmitting && (f.name == [] || f.shortWorldview == []) ==> r
    ensures !isSubmitting && f.name != [] && f.shortWorldview != [] ==> !r
  {
    isSubmitting || f.name == [] || f.shortWorldview == []
  }

  /**
   * The dialog's gate compares with the empty string and does not trim: a name of spaces enables
   * the button, although the full submission form turns the same name away.
   */
  lemma BlankNameStillEnabled(f: ModalForm)
    requires f.name != [] && AllWhitespace(f.name) && f.shortWorldview != []
    ensures !SubmitDisabled(false, f)
    ensures forall platform, hasImageFile ::
      SubmissionForm.Validate(SubmissionForm.FormData(f.name, f.shortWorldview, f.description, f.hasMusic, f.aiToolUsed,
        f.promptSummary, f.musicUrl, f.musicTitle, platform, f.imageUrl, true), hasImageFile) == Some(SubmissionForm.NameRequired)
  {
  }

  /** The calls the dialog makes: `submitCharacter`, its two callbacks, and the closing alert. */
  datatype ModalCall = SubmitDraft(draft: Draft) | NotifySubmitted | Close | Alert(submitted: bool)

  /**
   * The dialog's state: the form, the busy flag, and the calls made so far. Whether
   * `submitCharacter` resolves and whether an `onSubmit` callback was passed are inputs.
   */
  class ModalState {
    var form: ModalForm
    var isSubmitting: bool
    var calls: seq<ModalCall>

    constructor()
      ensures form == InitialForm && !isSubmitting && calls == []
    {
      form := InitialForm;
      isSubmitting := false;
      calls := [];
    }

    /** `handleInputChange`: the event's field takes the event's value; nothing else changes. */
    method HandleInputChange(e: InputEvent)
      modifies this
      ensures form == ApplyInput(old(form), e)
      ensures isSubmitting == old(isSubmitting) && calls == old(calls)
    {
      form := ApplyInput(form, e);
    }

    /**
     * `handleSubmit`: hands the built submission to `submitCharacter`; when that resolves the form
     * goes back to its initial values, `onSubmit` (if given) and `onClose` run and the success alert
     * shows; when it throws the form keeps what was typed and the failure alert shows. Either way
     * the busy flag is down afterwards.
     */
    method HandleSubmit(originalMillis: nat, thumbnailMillis: nat, accepted: bool, hasOnSubmit: bool)
      modifies this
      ensures calls == old(calls) + [SubmitDraft(BuildSubmission(old(form), originalMillis, thumbnailMillis))] +
        (if accepted then (if hasOnSubmit then [NotifySubmitted] else []) + [Close, Alert(true)] else [Alert(false)])
      ensures form == if accepted then InitialForm else old(form)
      ensures !isSubmitting
    {
      isSubmitting := true;
      var submission := BuildSubmission(form, originalMillis, thumbnailMillis);
      calls := calls + [SubmitDraft(submission)];
      if accepted {
        form := InitialForm;
        if hasOnSubmit {
          calls := calls + [NotifySubmitted];
        }
        calls := calls + [Close, Alert(true)];
      } else {
        calls := calls + [Alert(false)];
      }
      isSubmitting := false;
    }
  }
}
