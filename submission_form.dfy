/**
 * `SubmissionForm.handleSubmit`: an ordered validator, the Character / Asset / Music
 * payloads built from the form, and the sequence of store calls, each of which may throw.
 *
 * The store's replies are an input (`Replies`). `Plan` lists every call the handler would
 * make if nothing failed, each paired with whether its reply lets it succeed;
 * `Attempted` cuts that list after the first failure. The class method runs the handler step
 * by step and is proved to issue exactly `Effects`.
 */
module SubmissionForm {
  import opened Wrappers
  import opened Text
  import opened Domain
  import opened Backend

  datatype FormData = FormData(
    name: string,
    shortWorldview: string,
    description: string,
    hasMusic: bool,
    aiToolUsed: string,
    promptSummary: string,
    musicUrl: string,
    musicTitle: string,
    musicPlatform: string,
    imageUrl: string,
    agreedToTerms: bool)

  // ---------------------------------------------------------------- validation

  /** The five checks, in the order the handler runs them. */
  datatype ValidationError = NameRequired | WorldviewRequired | ImageRequired | TermsRequired | MusicUrlRequired

  function Rank(e: ValidationError): nat {
    match e
    case NameRequired => 0
    case WorldviewRequired => 1
    case ImageRequired => 2
    case TermsRequired => 3
    case MusicUrlRequired => 4
  }

  /** When each check fails, stated on its own. */
  predicate Violates(f: FormData, hasImageFile: bool, e: ValidationError) {
    match e
    case NameRequired => Blank(f.name)
    case WorldviewRequired => Blank(f.shortWorldview)
    case ImageRequired => Blank(f.imageUrl) && !hasImageFile
    case TermsRequired => !f.agreedToTerms
    case MusicUrlRequired => f.hasMusic && Blank(f.musicUrl)
  }

  /** The validation chain: the first failing check, or none when every check passes. */
  function Validate(f: FormData, hasImageFile: bool): (r: Option<ValidationError>)
    ensures r.Some? ==> Violates(f, hasImageFile, r.value)
    ensures r.None? ==> forall e :: !Violates(f, hasImageFile, e)
    ensures r.Some? ==> forall e :: Rank(e) < Rank(r.value) ==> !Violates(f, hasImageFile, e)
  {
    if Blank(f.name) then Some(NameRequired)
    else if Blank(f.shortWorldview) then Some(WorldviewRequired)
    else if Blank(f.imageUrl) && !hasImageFile then Some(ImageRequired)
    else if !f.agreedToTerms then Some(TermsRequired)
    else if f.hasMusic && Blank(f.musicUrl) then Some(MusicUrlRequired)
    else None
  }

  // ---------------------------------------------------------------- payloads

  /** The owner id used when nobody is signed in. */
  const AnonymousUserId := "00000000-0000-0000-0000-000000000000"

  /**
   * The Character row: trimmed name and worldview, optional texts trimmed or null, always
   * pending, owned by the session user or else by the anonymous id. On a form that passed
   * validation the name and worldview are non-empty.
   */
  function CharacterPayloadFor(f: FormData, sessionUserId: Option<string>): (p: CharacterPayload)
    ensures p.status == Pending && p.hasMusic == f.hasMusic
    ensures p.name == Trim(f.name) && (p.name == [] <==> Blank(f.name))
    ensures p.shortWorldview == Trim(f.shortWorldview) && (p.shortWorldview == [] <==> Blank(f.shortWorldview))
    ensures p.description.None? <==> Blank(f.description)
    ensures p.description.Some? ==> p.description.value == Trim(f.description) && p.description.value != []
    ensures p.aiToolUsed.None? <==> Blank(f.aiToolUsed)
    ensures p.userId != []
    ensures Truthy(sessionUserId) ==> p.userId == sessionUserId.value
    ensures !Truthy(sessionUserId) ==> p.userId == AnonymousUserId
  {
    CharacterPayload(
      Trim(f.name), Trim(f.shortWorldview), TrimmedOrNull(f.description), f.hasMusic,
      TrimmedOrNull(f.aiToolUsed), Pending, OrElse(sessionUserId, AnonymousUserId))
  }

  /** The line appended to the prompt summary once the prompt file is uploaded. */
  function PromptNote(promptUrl: string): string {
    "\n[Prompt file]: " + promptUrl
  }

  /**
   * The Asset row: one image URL for both the original and the thumbnail, always a
   * downloadable image; the prompt summary is the trimmed summary followed by the note,
   * and null only when both are empty.
   */
  function AssetPayloadFor(characterId: string, imageUrl: string, f: FormData, note: string): (p: AssetPayload)
    ensures p.id.None? && p.characterId == characterId
    ensures p.originalUrl == imageUrl && p.thumbnailUrl == imageUrl
    ensures p.kind == "image" && p.downloadable
    ensures p.promptSummary.None? <==> Blank(f.promptSummary) && note == []
    ensures p.promptSummary.Some? ==> p.promptSummary.value == Trim(f.promptSummary) + note
  {
    var summary := Trim(f.promptSummary) + note;
    AssetPayload(None, characterId, "image", imageUrl, imageUrl, if summary == [] then None else Some(summary), true)
  }

  /** The Music row: the trimmed URL, the chosen platform, and never a verified owner. */
  function MusicPayloadFor(characterId: string, f: FormData): (p: MusicPayload)
    ensures p.id.None? && p.characterId == characterId
    ensures !p.verifiedOwner
    ensures p.embedUrl == Trim(f.musicUrl) && p.platform == f.musicPlatform
    ensures p.title.None? <==> Blank(f.musicTitle)
  {
    MusicPayload(None, characterId, f.musicPlatform, Trim(f.musicUrl), TrimmedOrNull(f.musicTitle), false)
  }

  // ---------------------------------------------------------------- the write pipeline

  /** The row `createCharacter` resolves to: its id and owner feed the later steps. */
  datatype Created = Created(id: string, userId: Option<string>)

  /**
   * The store's replies, one per step: `None` / `false` where that call throws. The two
   * `Date.now()` readings of the upload paths are here too.
   */
  datatype Replies = Replies(
    created: Option<Created>,
    imageUrl: Option<string>,
    promptUrl: Option<string>,
    assetOk: bool,
    musicOk: bool,
    imageMillis: nat,
    promptMillis: nat)

  /** What the handler reads besides the store: the form, the two chosen files, the session user, the backend flag. */
  datatype Submission = Submission(
    form: FormData,
    imageFile: Option<File>,
    promptFile: Option<File>,
    sessionUserId: Option<string>,
    configured: bool)

  /** The calls the handler makes, to the store and to its two callbacks (`onSubmit`, `onClose`). */
  datatype Call =
    | CreateCharacter(character: CharacterPayload)
    | UploadImage(image: UploadRequest)
    | UploadPrompt(prompt: UploadRequest)
    | CreateAsset(asset: AssetPayload)
    | CreateMusic(music: MusicPayload)
    | NotifySubmitted
    | Close

  function CallRank(c: Call): nat {
    match c
    case CreateCharacter(_) => 0
    case UploadImage(_) => 1
    case UploadPrompt(_) => 2
    case CreateAsset(_) => 3
    case CreateMusic(_) => 4
    case NotifySubmitted => 5
    case Close => 6
  }

  /** The calls follow the fixed order character, image, prompt, asset, music, callbacks. */
  predicate InWriteOrder(cs: seq<Call>) {
    forall i :: 0 <= i < |cs| - 1 ==> CallRank(cs[i]) < CallRank(cs[i + 1])
  }

  /** The message state the handler leaves: a validation message or the single generic failure. */
  datatype FormError = Invalid(reason: ValidationError) | SubmissionFailed

  datatype Step = Step(call: Call, ok: bool)

  predicate UploadsImage(s: Submission) {
    Blank(s.form.imageUrl) && s.imageFile.Some? && s.configured
  }

  predicate UploadsPrompt(s: Submission) {
    s.promptFile.Some? && s.configured
  }

  predicate WantsMusic(f: FormData) {
    f.hasMusic && !Blank(f.musicUrl)
  }

  function ImageUploadFor(s: Submission, c: Created, nowMillis: nat): UploadRequest
    requires s.imageFile.Some? && s.configured
  {
    PrepareUpload(true, Images, s.imageFile.value, c.userId, Some(c.id), nowMillis).value
  }

  function PromptUploadFor(s: Submission, c: Created, nowMillis: nat): UploadRequest
    requires UploadsPrompt(s)
  {
    PrepareUpload(true, Prompts, s.promptFile.value, c.userId, Some(c.id), nowMillis).value
  }

  /** The image URL the asset gets: the typed URL, or the uploaded file's URL when one was uploaded. */
  function ResolvedImageUrl(s: Submission, rep: Replies): string {
    if UploadsImage(s) then rep.imageUrl.GetOr("") else Trim(s.form.imageUrl)
  }

  function ResolvedNote(s: Submission, rep: Replies): string {
    if UploadsPrompt(s) then PromptNote(rep.promptUrl.GetOr("")) else ""
  }

  /** The image upload, made only when no URL was typed, a file was chosen and a backend is configured. */
  function ImageUpload(s: Submission, rep: Replies): Option<UploadRequest> {
    if UploadsImage(s) then Some(ImageUploadFor(s, rep.created.GetOr(Created("", None)), rep.imageMillis)) else None
  }

  /** The prompt-file upload, made only when a file was chosen and a backend is configured. */
  function PromptUpload(s: Submission, rep: Replies): Option<UploadRequest> {
    if UploadsPrompt(s) then Some(PromptUploadFor(s, rep.created.GetOr(Created("", None)), rep.promptMillis)) else None
  }

  /** The Asset row, written once the earlier steps succeed. */
  function AssetFor(s: Submission, rep: Replies): AssetPayload {
    AssetPayloadFor(rep.created.GetOr(Created("", None)).id, ResolvedImageUrl(s, rep), s.form, ResolvedNote(s, rep))
  }

  /** The Music row, written only when music was asked for and a URL given. */
  function MusicFor(s: Submission, rep: Replies): Option<MusicPayload> {
    if WantsMusic(s.form) then Some(MusicPayloadFor(rep.created.GetOr(Created("", None)).id, s.form)) else None
  }

  function ImageSegment(image: Option<UploadRequest>, rep: Replies): seq<Step> {
    if image.Some? then [Step(UploadImage(image.value), rep.imageUrl.Some?)] else []
  }

  function PromptSegment(prompt: Option<UploadRequest>, rep: Replies): seq<Step> {
    if prompt.Some? then [Step(UploadPrompt(prompt.value), rep.promptUrl.Some?)] else []
  }

  function MusicSegment(music: Option<MusicPayload>, rep: Replies): seq<Step> {
    if music.Some? then [Step(CreateMusic(music.value), rep.musicOk)] else []
  }

  /** `onSubmit()` then `onClose()`: the last two calls, which do not fail. */
  const Callbacks: seq<Step> := [Step(NotifySubmitted, true), Step(Close, true)]

  /**
   * Every call of a valid submission, in order, each with whether its reply lets it succeed:
   * the character, the optional image and prompt uploads, the asset, the optional music,
   * then the two callbacks.
   */
  function PlanOf(character: CharacterPayload, image: Option<UploadRequest>, prompt: Option<UploadRequest>,
                  asset: AssetPayload, music: Option<MusicPayload>, rep: Replies): seq<Step>
  {
    [Step(CreateCharacter(character), rep.created.Some?)] +
    (ImageSegment(image, rep) +
    (PromptSegment(prompt, rep) +
    ([Step(CreateAsset(asset), rep.assetOk)] +
    (MusicSegment(music, rep) + Callbacks))))
  }

  function Plan(s: Submission, rep: Replies): seq<Step> {
    PlanOf(CharacterPayloadFor(s.form, s.sessionUserId), ImageUpload(s, rep), PromptUpload(s, rep),
           AssetFor(s, rep), MusicFor(s, rep), rep)
  }

  predicate AllOk(steps: seq<Step>) {
    forall i :: 0 <= i < |steps| ==> steps[i].ok
  }

  function Calls(steps: seq<Step>): (r: seq<Call>)
    ensures |r| == |steps| && forall i :: 0 <= i < |steps| ==> r[i] == steps[i].call
  {
    if steps == [] then [] else [steps[0].call] + Calls(steps[1..])
  }

  /** The calls actually made: every step up to and including the first that throws. */
  function Attempted(steps: seq<Step>): seq<Call> {
    if steps == [] then []
    else [steps[0].call] + (if steps[0].ok then Attempted(steps[1..]) else [])
  }

  /** What a run does given the validation verdict and the plan: nothing on invalid input, else the attempted steps. */
  function Run(invalid: Option<ValidationError>, steps: seq<Step>): seq<Call> {
    if invalid.Some? then [] else Attempted(steps)
  }

  /** The error a run leaves on the form (`None` is the cleared message). */
  function RunOutcome(invalid: Option<ValidationError>, steps: seq<Step>): Option<FormError> {
    match invalid
    case Some(e) => Some(Invalid(e))
    case None => if AllOk(steps) then None else Some(SubmissionFailed)
  }

  /** Everything `handleSubmit` calls, in order. */
  function Effects(s: Submission, rep: Replies): seq<Call> {
    Run(Validate(s.form, s.imageFile.Some?), Plan(s, rep))
  }

  /** The error the form shows after `handleSubmit`. */
  function Outcome(s: Submission, rep: Replies): Option<FormError> {
    RunOutcome(Validate(s.form, s.imageFile.Some?), Plan(s, rep))
  }

  // ---------------------------------------------------------------- properties of a run

  /** The attempted calls are a prefix of the plan; all but the last succeeded; the last failed unless all did. */
  lemma {:induction false} AttemptedIsPrefix(steps: seq<Step>)
    ensures |Attempted(steps)| <= |steps|
    ensures Attempted(steps) == Calls(steps[..|Attempted(steps)|])
    ensures forall i :: 0 <= i < |Attempted(steps)| - 1 ==> steps[i].ok
    ensures AllOk(steps) ==> |Attempted(steps)| == |steps|
    ensures !AllOk(steps) ==> |Attempted(steps)| > 0 && !steps[|Attempted(steps)| - 1].ok
  {
    if steps != [] {
      var rest := steps[1..];
      assert [steps[0]] + rest == steps;
      AllOkAppend([steps[0]], rest);
      if steps[0].ok {
        AttemptedIsPrefix(rest);
        var k := |Attempted(rest)|;
        assert Attempted(steps) == [steps[0].call] + Attempted(rest);
        assert steps[..k + 1] == [steps[0]] + rest[..k];
        assert Calls(steps[..k + 1]) == [steps[0].call] + Calls(rest[..k]);
        forall i | 0 <= i < k ensures steps[i].ok {
          if i > 0 { assert steps[i] == rest[i - 1]; }
        }
      } else {
        assert Attempted(steps) == [steps[0].call];
        assert steps[..1] == [steps[0]];
      }
    }
  }

  lemma AllOkAppend(xs: seq<Step>, ys: seq<Step>)
    ensures AllOk(xs + ys) <==> AllOk(xs) && AllOk(ys)
  {
    if AllOk(xs) && AllOk(ys) {
      forall i | 0 <= i < |xs + ys| ensures (xs + ys)[i].ok {
        if i < |xs| { assert (xs + ys)[i] == xs[i]; } else { assert (xs + ys)[i] == ys[i - |xs|]; }
      }
    }
    if AllOk(xs + ys) {
      forall i | 0 <= i < |xs| ensures xs[i].ok { assert (xs + ys)[i] == xs[i]; }
      forall i | 0 <= i < |ys| ensures ys[i].ok { assert (xs + ys)[|xs| + i] == ys[i]; }
    }
  }

  /** Running two lists of steps one after the other: the second runs only if the whole first succeeded. */
  lemma {:induction false} AttemptedAppend(xs: seq<Step>, ys: seq<Step>)
    ensures Attempted(xs + ys) == Attempted(xs) + (if AllOk(xs) then Attempted(ys) else [])
  {
    if xs == [] {
      assert xs + ys == ys;
    } else {
      assert (xs + ys)[0] == xs[0] && (xs + ys)[1..] == xs[1..] + ys;
      assert [xs[0]] + xs[1..] == xs;
      AllOkAppend([xs[0]], xs[1..]);
      if xs[0].ok {
        AttemptedAppend(xs[1..], ys);
      }
    }
  }

  /** A step that may or may not be there is attempted whenever the run reaches it. */
  lemma AttemptedShort(seg: seq<Step>)
    requires |seg| <= 1
    ensures Attempted(seg) == Calls(seg)
  {
  }

  /** A valid submission run out: each later group of calls is made only when every earlier call succeeded. */
  lemma RunOfPlan(character: CharacterPayload, image: Option<UploadRequest>, prompt: Option<UploadRequest>,
                  asset: AssetPayload, music: Option<MusicPayload>, rep: Replies)
    ensures
      var sb, sc, se := ImageSegment(image, rep), PromptSegment(prompt, rep), MusicSegment(music, rep);
      Attempted(PlanOf(character, image, prompt, asset, music, rep)) ==
        [CreateCharacter(character)] + (if !rep.created.Some? then [] else
        Calls(sb) + (if !AllOk(sb) then [] else
        Calls(sc) + (if !AllOk(sc) then [] else
        [CreateAsset(asset)] + (if !rep.assetOk then [] else
        Calls(se) + (if !AllOk(se) then [] else [NotifySubmitted, Close])))))
  {
    var sa := [Step(CreateCharacter(character), rep.created.Some?)];
    var sb, sc, se := ImageSegment(image, rep), PromptSegment(prompt, rep), MusicSegment(music, rep);
    var sd := [Step(CreateAsset(asset), rep.assetOk)];
    AttemptedAppend(sa, sb + (sc + (sd + (se + Callbacks))));
    AttemptedAppend(sb, sc + (sd + (se + Callbacks)));
    AttemptedAppend(sc, sd + (se + Callbacks));
    AttemptedAppend(sd, se + Callbacks);
    AttemptedAppend(se, Callbacks);
    AttemptedShort(sb);
    AttemptedShort(sc);
    AttemptedShort(se);
    assert Attempted(sa) == [CreateCharacter(character)];
    assert Attempted(sd) == [CreateAsset(asset)];
    assert Attempted(Callbacks) == [NotifySubmitted, Close];
  }

  /** The form ends clean exactly when every store call succeeded. */
  lemma PlanAllOk(character: CharacterPayload, image: Option<UploadRequest>, prompt: Option<UploadRequest>,
                  asset: AssetPayload, music: Option<MusicPayload>, rep: Replies)
    ensures
      AllOk(PlanOf(character, image, prompt, asset, music, rep)) <==>
        rep.created.Some? && (image.Some? ==> rep.imageUrl.Some?) && (prompt.Some? ==> rep.promptUrl.Some?) &&
        rep.assetOk && (music.Some? ==> rep.musicOk)
  {
    var sa := [Step(CreateCharacter(character), rep.created.Some?)];
    var sb, sc, se := ImageSegment(image, rep), PromptSegment(prompt, rep), MusicSegment(music, rep);
    var sd := [Step(CreateAsset(asset), rep.assetOk)];
    AllOkAppend(sa, sb + (sc + (sd + (se + Callbacks))));
    AllOkAppend(sb, sc + (sd + (se + Callbacks)));
    AllOkAppend(sc, sd + (se + Callbacks));
    AllOkAppend(sd, se + Callbacks);
    AllOkAppend(se, Callbacks);
    assert AllOk(Callbacks);
    AllOkOne(sa[0]);
    AllOkOne(sd[0]);
    if image.Some? { AllOkOne(sb[0]); }
    if prompt.Some? { AllOkOne(sc[0]); }
    if music.Some? { AllOkOne(se[0]); }
  }

  lemma AllOkOne(st: Step)
    ensures AllOk([st]) <==> st.ok
  {
    assert [st][0] == st;
  }

  predicate StepsInOrder(steps: seq<Step>) {
    forall i :: 0 <= i < |steps| - 1 ==> CallRank(steps[i].call) < CallRank(steps[i + 1].call)
  }

  predicate RanksFrom(steps: seq<Step>, n: nat) {
    forall st :: st in steps ==> n <= CallRank(st.call)
  }

  /** The callbacks (`onSubmit`, `onClose`) never throw. */
  predicate CallbacksOk(steps: seq<Step>) {
    forall st :: st in steps && CallRank(st.call) >= 5 ==> st.ok
  }

  lemma {:induction false} RanksIncrease(steps: seq<Step>, i: nat, j: nat)
    requires StepsInOrder(steps) && i < j < |steps|
    ensures CallRank(steps[i].call) < CallRank(steps[j].call)
  {
    if i + 1 < j {
      RanksIncrease(steps, i, j - 1);
    }
  }

  lemma PrependSegment(ys: seq<Step>, xs: seq<Step>, n: nat)
    requires |ys| <= 1 && n < 5 && forall st :: st in ys ==> CallRank(st.call) == n
    requires StepsInOrder(xs) && RanksFrom(xs, n + 1) && CallbacksOk(xs)
    ensures StepsInOrder(ys + xs) && RanksFrom(ys + xs, n) && CallbacksOk(ys + xs)
  {
    if ys == [] {
      assert ys + xs == xs;
    } else {
      assert ys[0] in ys;
      forall i | 0 <= i < |ys + xs| - 1
        ensures CallRank((ys + xs)[i].call) < CallRank((ys + xs)[i + 1].call)
      {
        if i == 0 {
          assert (ys + xs)[1] == xs[0] && xs[0] in xs;
        } else {
          assert (ys + xs)[i] == xs[i - 1] && (ys + xs)[i + 1] == xs[i];
        }
      }
    }
  }

  lemma CallbacksWellFormed()
    ensures StepsInOrder(Callbacks) && RanksFrom(Callbacks, 5) && CallbacksOk(Callbacks)
  {
    assert Callbacks[0] == Step(NotifySubmitted, true) && Callbacks[1] == Step(Close, true);
  }

  /** Any plan lists character, image upload, prompt upload, asset, music and the callbacks in that order. */
  lemma PlanOfWellFormed(character: CharacterPayload, image: Option<UploadRequest>, prompt: Option<UploadRequest>,
                         asset: AssetPayload, music: Option<MusicPayload>, rep: Replies)
    ensures var p := PlanOf(character, image, prompt, asset, music, rep); StepsInOrder(p) && CallbacksOk(p)
  {
    var sa := [Step(CreateCharacter(character), rep.created.Some?)];
    var sb, sc, se := ImageSegment(image, rep), PromptSegment(prompt, rep), MusicSegment(music, rep);
    var sd := [Step(CreateAsset(asset), rep.assetOk)];
    CallbacksWellFormed();
    PrependSegment(se, Callbacks, 4);
    PrependSegment(sd, se + Callbacks, 3);
    PrependSegment(sc, sd + (se + Callbacks), 2);
    PrependSegment(sb, sc + (sd + (se + Callbacks)), 1);
    PrependSegment(sa, sb + (sc + (sd + (se + Callbacks))), 0);
  }

  /** When some call throws, only store calls were made: the failing one is a store call and everything before it ranks lower. */
  lemma FailureBeforeCallbacks(steps: seq<Step>)
    requires StepsInOrder(steps) && CallbacksOk(steps) && !AllOk(steps)
    ensures forall i :: 0 <= i < |Attempted(steps)| ==> CallRank(Attempted(steps)[i]) < 5
  {
    AttemptedIsPrefix(steps);
    var cs := Attempted(steps);
    var last := |cs| - 1;
    assert steps[last] in steps;
    assert CallRank(steps[last].call) < 5;
    forall i | 0 <= i < last ensures CallRank(steps[i].call) < 5 {
      RanksIncrease(steps, i, last);
    }
  }

  /** The attempted calls keep the plan's order. */
  lemma AttemptedInOrder(steps: seq<Step>)
    requires StepsInOrder(steps)
    ensures InWriteOrder(Attempted(steps))
  {
    AttemptedIsPrefix(steps);
    var cs := Attempted(steps);
    forall i | 0 <= i < |cs| - 1 ensures CallRank(cs[i]) < CallRank(cs[i + 1]) {
      assert cs[i] == steps[i].call && cs[i + 1] == steps[i + 1].call;
    }
  }

  /**
   * Invalid input makes no call and shows its validation message; when no call throws, every
   * planned call is made and the message is cleared. Either way the calls keep the plan's order.
   */
  lemma RunGatedAndOrdered(invalid: Option<ValidationError>, steps: seq<Step>)
    requires StepsInOrder(steps)
    ensures invalid.Some? ==> Run(invalid, steps) == [] && RunOutcome(invalid, steps) == Some(Invalid(invalid.value))
    ensures RunOutcome(invalid, steps).None? ==> invalid.None? && Run(invalid, steps) == Calls(steps)
    ensures InWriteOrder(Run(invalid, steps))
  {
    AttemptedIsPrefix(steps);
    AttemptedInOrder(steps);
    assert steps[..|steps|] == steps;
  }

  /**
   * Once the calls start, one that throws ends the run: nothing after it is called (in
   * particular neither callback) and the generic error is shown; the calls before it stand.
   */
  lemma RunStopsAtFailure(invalid: Option<ValidationError>, steps: seq<Step>)
    requires StepsInOrder(steps) && CallbacksOk(steps)
    requires RunOutcome(invalid, steps) == Some(SubmissionFailed)
    ensures var k := |Run(invalid, steps)|;
      0 < k <= |steps| && Run(invalid, steps) == Calls(steps[..k]) && !steps[k - 1].ok &&
      (forall i :: 0 <= i < k - 1 ==> steps[i].ok)
    ensures NotifySubmitted !in Run(invalid, steps) && Close !in Run(invalid, steps)
  {
    AttemptedIsPrefix(steps);
    FailureBeforeCallbacks(steps);
    assert CallRank(NotifySubmitted) == 5 && CallRank(Close) == 6;
  }

  /** The segments of a plan, each reduced to the calls it holds. */
  lemma SegmentCalls(image: Option<UploadRequest>, prompt: Option<UploadRequest>, music: Option<MusicPayload>, rep: Replies)
    ensures Calls(ImageSegment(image, rep)) == ImageCalls(image)
    ensures Calls(PromptSegment(prompt, rep)) == PromptCalls(prompt)
    ensures Calls(MusicSegment(music, rep)) == MusicCalls(music)
  {
    var sb, sc, se := ImageSegment(image, rep), PromptSegment(prompt, rep), MusicSegment(music, rep);
    if image.Some? { AllOkOne(sb[0]); assert Calls(sb) == [UploadImage(image.value)]; } else { assert Calls(sb) == []; }
    if prompt.Some? { AllOkOne(sc[0]); assert Calls(sc) == [UploadPrompt(prompt.value)]; } else { assert Calls(sc) == []; }
    if music.Some? { AllOkOne(se[0]); assert Calls(se) == [CreateMusic(music.value)]; } else { assert Calls(se) == []; }
  }

  /** A run always starts by creating the character. */
  lemma RunStartsWithCharacter(character: CharacterPayload, image: Option<UploadRequest>, prompt: Option<UploadRequest>,
                               asset: AssetPayload, music: Option<MusicPayload>, rep: Replies)
    ensures var r := Attempted(PlanOf(character, image, prompt, asset, music, rep));
      r != [] && r[0] == CreateCharacter(character)
  {
    RunOfPlan(character, image, prompt, asset, music, rep);
  }

  /** An image upload in a run is the planned one, made after the character was created. */
  lemma RunDrawsImage(character: CharacterPayload, image: Option<UploadRequest>, prompt: Option<UploadRequest>,
                      asset: AssetPayload, music: Option<MusicPayload>, rep: Replies)
    ensures forall c :: c in Attempted(PlanOf(character, image, prompt, asset, music, rep)) && c.UploadImage? ==>
      image == Some(c.image) && rep.created.Some?
  {
    RunOfPlan(character, image, prompt, asset, music, rep);
    SegmentCalls(image, prompt, music, rep);
  }

  /** A prompt upload in a run is the planned one, made after the character and any image upload succeeded. */
  lemma RunDrawsPrompt(character: CharacterPayload, image: Option<UploadRequest>, prompt: Option<UploadRequest>,
                       asset: AssetPayload, music: Option<MusicPayload>, rep: Replies)
    ensures forall c :: c in Attempted(PlanOf(character, image, prompt, asset, music, rep)) && c.UploadPrompt? ==>
      prompt == Some(c.prompt) && rep.created.Some? && (image.Some? ==> rep.imageUrl.Some?)
  {
    RunOfPlan(character, image, prompt, asset, music, rep);
    SegmentCalls(image, prompt, music, rep);
  }

  /** The asset written in a run is the planned one, written after every planned upload succeeded. */
  lemma RunDrawsAsset(character: CharacterPayload, image: Option<UploadRequest>, prompt: Option<UploadRequest>,
                      asset: AssetPayload, music: Option<MusicPayload>, rep: Replies)
    ensures forall c :: c in Attempted(PlanOf(character, image, prompt, asset, music, rep)) && c.CreateAsset? ==>
      c.asset == asset && rep.created.Some? && (image.Some? ==> rep.imageUrl.Some?) && (prompt.Some? ==> rep.promptUrl.Some?)
  {
    RunOfPlan(character, image, prompt, asset, music, rep);
    SegmentCalls(image, prompt, music, rep);
  }

  /** The music row written in a run is the planned one, written after the asset. */
  lemma RunDrawsMusic(character: CharacterPayload, image: Option<UploadRequest>, prompt: Option<UploadRequest>,
                      asset: AssetPayload, music: Option<MusicPayload>, rep: Replies)
    ensures forall c :: c in Attempted(PlanOf(character, image, prompt, asset, music, rep)) && c.CreateMusic? ==>
      music == Some(c.music) && rep.created.Some? && rep.assetOk
  {
    RunOfPlan(character, image, prompt, asset, music, rep);
    SegmentCalls(image, prompt, music, rep);
  }

  // ---------------------------------------------------------------- properties of handleSubmit

  /** Every plan ends with the two callbacks. */
  lemma PlanEndsWithCallbacks(character: CharacterPayload, image: Option<UploadRequest>, prompt: Option<UploadRequest>,
                              asset: AssetPayload, music: Option<MusicPayload>, rep: Replies)
    ensures var p := PlanOf(character, image, prompt, asset, music, rep); |p| >= 2 && p[|p| - 2..] == Callbacks
  {
    var sa := [Step(CreateCharacter(character), rep.created.Some?)];
    var body := ImageSegment(image, rep) + (PromptSegment(prompt, rep) + ([Step(CreateAsset(asset), rep.assetOk)] + MusicSegment(music, rep)));
    assert PlanOf(character, image, prompt, asset, music, rep) == (sa + body) + Callbacks;
  }

  /** `RunGatedAndOrdered`, `RunStopsAtFailure` and `RunCompletes` for any plan of the handler's shape. */
  lemma PlanRuns(invalid: Option<ValidationError>, character: CharacterPayload, image: Option<UploadRequest>,
                 prompt: Option<UploadRequest>, asset: AssetPayload, music: Option<MusicPayload>, rep: Replies)
    ensures var p := PlanOf(character, image, prompt, asset, music, rep);
      (invalid.Some? ==> Run(invalid, p) == [] && RunOutcome(invalid, p) == Some(Invalid(invalid.value))) &&
      (RunOutcome(invalid, p) == Some(SubmissionFailed) ==>
         NotifySubmitted !in Run(invalid, p) && Close !in Run(invalid, p)) &&
      (RunOutcome(invalid, p).None? ==>
         Run(invalid, p) == Calls(p) && |Run(invalid, p)| >= 2 &&
         Run(invalid, p)[|Run(invalid, p)| - 2..] == [NotifySubmitted, Close]) &&
      InWriteOrder(Run(invalid, p))
  {
    var p := PlanOf(character, image, prompt, asset, music, rep);
    PlanOfWellFormed(character, image, prompt, asset, music, rep);
    PlanEndsWithCallbacks(character, image, prompt, asset, music, rep);
    RunGatedAndOrdered(invalid, p);
    if RunOutcome(invalid, p) == Some(SubmissionFailed) {
      RunStopsAtFailure(invalid, p);
    }
    if RunOutcome(invalid, p).None? {
      RunCompletes(invalid, p);
    }
  }

  lemma RunCompletes(invalid: Option<ValidationError>, steps: seq<Step>)
    requires StepsInOrder(steps) && RunOutcome(invalid, steps).None?
    requires |steps| >= 2 && steps[|steps| - 2..] == Callbacks
    ensures Run(invalid, steps) == Calls(steps)
    ensures |Run(invalid, steps)| >= 2 && Run(invalid, steps)[|steps| - 2..] == [NotifySubmitted, Close]
  {
    RunGatedAndOrdered(invalid, steps);
    assert Calls(steps)[|steps| - 2..] == Calls(steps[|steps| - 2..]);
  }

  /** Validation gates every call; when something throws, neither callback runs. */
  lemma SubmitGated(s: Submission, rep: Replies)
    ensures Validate(s.form, s.imageFile.Some?).Some? ==>
      Effects(s, rep) == [] && Outcome(s, rep) == Some(Invalid(Validate(s.form, s.imageFile.Some?).value))
    ensures Outcome(s, rep) == Some(SubmissionFailed) ==>
      NotifySubmitted !in Effects(s, rep) && Close !in Effects(s, rep)
  {
    var v, p := Validate(s.form, s.imageFile.Some?), Plan(s, rep);
    PlanRuns(v, CharacterPayloadFor(s.form, s.sessionUserId), ImageUpload(s, rep), PromptUpload(s, rep), AssetFor(s, rep), MusicFor(s, rep), rep);
    assert Effects(s, rep) == Run(v, p) && Outcome(s, rep) == RunOutcome(v, p);
  }

  /**
   * When nothing throws every planned call is made and the last two are `onSubmit` then
   * `onClose`; the calls always keep the fixed order character, image upload, prompt upload,
   * asset, music, callbacks.
   */
  lemma SubmitOrdered(s: Submission, rep: Replies)
    ensures Outcome(s, rep).None? ==>
      Effects(s, rep) == Calls(Plan(s, rep)) && |Effects(s, rep)| >= 2 &&
      Effects(s, rep)[|Effects(s, rep)| - 2..] == [NotifySubmitted, Close]
    ensures InWriteOrder(Effects(s, rep))
  {
    var v, p := Validate(s.form, s.imageFile.Some?), Plan(s, rep);
    PlanRuns(v, CharacterPayloadFor(s.form, s.sessionUserId), ImageUpload(s, rep), PromptUpload(s, rep), AssetFor(s, rep), MusicFor(s, rep), rep);
    assert Effects(s, rep) == Run(v, p) && Outcome(s, rep) == RunOutcome(v, p);
  }

  /** The form ends clean exactly when the input is valid and every store call it makes succeeds. */
  lemma SubmitSucceedsIff(s: Submission, rep: Replies)
    ensures Outcome(s, rep).None? <==>
      Validate(s.form, s.imageFile.Some?).None? && rep.created.Some? &&
      (UploadsImage(s) ==> rep.imageUrl.Some?) && (UploadsPrompt(s) ==> rep.promptUrl.Some?) &&
      rep.assetOk && (WantsMusic(s.form) ==> rep.musicOk)
  {
    PlanAllOk(CharacterPayloadFor(s.form, s.sessionUserId), ImageUpload(s, rep), PromptUpload(s, rep), AssetFor(s, rep), MusicFor(s, rep), rep);
  }

  /** A valid submission always starts by writing a pending character with a non-empty name and worldview. */
  lemma CharacterWrittenFirst(s: Submission, rep: Replies)
    requires Validate(s.form, s.imageFile.Some?).None?
    ensures Effects(s, rep) != [] && Effects(s, rep)[0].CreateCharacter?
    ensures var p := Effects(s, rep)[0].character;
      p == CharacterPayloadFor(s.form, s.sessionUserId) && p.status == Pending &&
      p.name != [] && p.shortWorldview != [] && p.userId != []
  {
    RunStartsWithCharacter(CharacterPayloadFor(s.form, s.sessionUserId), ImageUpload(s, rep), PromptUpload(s, rep), AssetFor(s, rep), MusicFor(s, rep), rep);
    assert !Violates(s.form, s.imageFile.Some?, NameRequired) && !Violates(s.form, s.imageFile.Some?, WorldviewRequired);
  }

  /** The Asset row a submission plans, field by field. */
  lemma AssetForShape(s: Submission, rep: Replies)
    ensures var a := AssetFor(s, rep);
      a.characterId == rep.created.GetOr(Created("", None)).id &&
      a.originalUrl == a.thumbnailUrl && a.downloadable &&
      (UploadsImage(s) ==> a.originalUrl == rep.imageUrl.GetOr("")) &&
      (!UploadsImage(s) ==> a.originalUrl == Trim(s.form.imageUrl)) &&
      (UploadsPrompt(s) ==> a.promptSummary == Some(Trim(s.form.promptSummary) + PromptNote(rep.promptUrl.GetOr("")))) &&
      (!UploadsPrompt(s) ==> a.promptSummary == TrimmedOrNull(s.form.promptSummary))
  {
    if !UploadsPrompt(s) {
      assert Trim(s.form.promptSummary) + "" == Trim(s.form.promptSummary);
    } else {
      assert PromptNote(rep.promptUrl.GetOr("")) != [];
    }
  }

  /**
   * The Asset row is written only for a created character, under its id, with one URL for the
   * original and the thumbnail: the uploaded file's URL when a file was uploaded, else the typed
   * URL; the prompt file's URL is appended to the summary when one was uploaded.
   */
  lemma AssetWritten(s: Submission, rep: Replies)
    ensures forall c :: c in Effects(s, rep) && c.CreateAsset? ==>
      rep.created.Some? && c.asset.characterId == rep.created.value.id &&
      c.asset.originalUrl == c.asset.thumbnailUrl && c.asset.downloadable &&
      (UploadsImage(s) ==> rep.imageUrl.Some? && c.asset.originalUrl == rep.imageUrl.value) &&
      (!UploadsImage(s) ==> c.asset.originalUrl == Trim(s.form.imageUrl)) &&
      (UploadsPrompt(s) ==> (rep.promptUrl.Some? &&
         c.asset.promptSummary == Some(Trim(s.form.promptSummary) + PromptNote(rep.promptUrl.value)))) &&
      (!UploadsPrompt(s) ==> c.asset.promptSummary == TrimmedOrNull(s.form.promptSummary))
  {
    var asset := AssetFor(s, rep);
    RunDrawsAsset(CharacterPayloadFor(s.form, s.sessionUserId), ImageUpload(s, rep), PromptUpload(s, rep), asset, MusicFor(s, rep), rep);
    AssetForShape(s, rep);
    forall c | c in Effects(s, rep) && c.CreateAsset?
      ensures c.asset == asset && rep.created.Some? &&
        (UploadsImage(s) ==> rep.imageUrl.Some?) && (UploadsPrompt(s) ==> rep.promptUrl.Some?)
    {
      assert c in Attempted(Plan(s, rep));
    }
  }

  /** A typed image URL wins: no upload is made and the asset carries the trimmed URL, which is non-empty. */
  lemma TypedImageUrlWins(s: Submission, rep: Replies)
    requires !Blank(s.form.imageUrl)
    ensures forall c :: c in Effects(s, rep) ==> !c.UploadImage?
    ensures forall c :: c in Effects(s, rep) && c.CreateAsset? ==>
      c.asset.originalUrl == Trim(s.form.imageUrl) && c.asset.originalUrl != []
  {
    RunDrawsImage(CharacterPayloadFor(s.form, s.sessionUserId), ImageUpload(s, rep), PromptUpload(s, rep), AssetFor(s, rep), MusicFor(s, rep), rep);
    forall c | c in Effects(s, rep) ensures !c.UploadImage? {
      assert c in Attempted(Plan(s, rep));
    }
    AssetWritten(s, rep);
  }

  /**
   * Without a configured backend a chosen file passes validation but is never uploaded: the
   * asset is written with an empty image URL and no prompt note.
   */
  lemma NoBackendLeavesImageEmpty(s: Submission, rep: Replies)
    requires !s.configured && Blank(s.form.imageUrl)
    ensures forall c :: c in Effects(s, rep) ==> !c.UploadImage? && !c.UploadPrompt?
    ensures forall c :: c in Effects(s, rep) && c.CreateAsset? ==>
      c.asset.originalUrl == [] && c.asset.promptSummary == TrimmedOrNull(s.form.promptSummary)
  {
    RunDrawsImage(CharacterPayloadFor(s.form, s.sessionUserId), ImageUpload(s, rep), PromptUpload(s, rep), AssetFor(s, rep), MusicFor(s, rep), rep);
    RunDrawsPrompt(CharacterPayloadFor(s.form, s.sessionUserId), ImageUpload(s, rep), PromptUpload(s, rep), AssetFor(s, rep), MusicFor(s, rep), rep);
    forall c | c in Effects(s, rep) ensures !c.UploadImage? && !c.UploadPrompt? {
      assert c in Attempted(Plan(s, rep));
    }
    AssetWritten(s, rep);
    assert Trim(s.form.imageUrl) == [];
  }

  /**
   * The image goes to storage only after the character exists, into the images bucket, under
   * the created character's owner (or the anonymous prefix) and id, keeping the file's extension.
   */
  lemma ImageUploadFollowsCharacter(s: Submission, rep: Replies)
    ensures forall c :: c in Effects(s, rep) && c.UploadImage? ==>
      UploadsImage(s) && rep.created.Some? && c.image.bucket == Images &&
      c.image.owner == OrElse(rep.created.value.userId, "anon") && c.image.folder == OrElse(Some(rep.created.value.id), "temp") &&
      AfterLast(Path(c.image), '.') == Extension(s.imageFile.value.name, "png")
  {
    var image := ImageUpload(s, rep);
    RunDrawsImage(CharacterPayloadFor(s.form, s.sessionUserId), image, PromptUpload(s, rep), AssetFor(s, rep), MusicFor(s, rep), rep);
    forall c | c in Effects(s, rep) && c.UploadImage? ensures image == Some(c.image) && rep.created.Some? {
      assert c in Attempted(Plan(s, rep));
    }
    if UploadsImage(s) && rep.created.Some? {
      var created := rep.created.value;
      assert image == Some(ImageUploadFor(s, created, rep.imageMillis));
      PreparedPath(Images, s.imageFile.value, created.userId, Some(created.id), rep.imageMillis);
    }
  }

  /** The prompt file likewise, into the prompts bucket, keeping its extension (`txt` by default). */
  lemma PromptUploadFollowsCharacter(s: Submission, rep: Replies)
    ensures forall c :: c in Effects(s, rep) && c.UploadPrompt? ==>
      UploadsPrompt(s) && rep.created.Some? && c.prompt.bucket == Prompts &&
      c.prompt.owner == OrElse(rep.created.value.userId, "anon") && c.prompt.folder == OrElse(Some(rep.created.value.id), "temp") &&
      AfterLast(Path(c.prompt), '.') == Extension(s.promptFile.value.name, "txt")
  {
    var prompt := PromptUpload(s, rep);
    RunDrawsPrompt(CharacterPayloadFor(s.form, s.sessionUserId), ImageUpload(s, rep), prompt, AssetFor(s, rep), MusicFor(s, rep), rep);
    forall c | c in Effects(s, rep) && c.UploadPrompt? ensures prompt == Some(c.prompt) && rep.created.Some? {
      assert c in Attempted(Plan(s, rep));
    }
    if UploadsPrompt(s) && rep.created.Some? {
      var created := rep.created.value;
      assert prompt == Some(PromptUploadFor(s, created, rep.promptMillis));
      PreparedPath(Prompts, s.promptFile.value, created.userId, Some(created.id), rep.promptMillis);
    }
  }

  /** A run that completes makes a music call exactly when the plan has a music row. */
  lemma CompleteRunMakesMusicIff(character: CharacterPayload, image: Option<UploadRequest>, prompt: Option<UploadRequest>,
                                 asset: AssetPayload, music: Option<MusicPayload>, rep: Replies)
    requires AllOk(PlanOf(character, image, prompt, asset, music, rep))
    ensures music.Some? <==> exists c :: c in Attempted(PlanOf(character, image, prompt, asset, music, rep)) && c.CreateMusic?
  {
    RunOfPlan(character, image, prompt, asset, music, rep);
    RunDrawsMusic(character, image, prompt, asset, music, rep);
    PlanAllOk(character, image, prompt, asset, music, rep);
    if music.Some? {
      AllOkOne(MusicSegment(music, rep)[0]);
      assert Calls(MusicSegment(music, rep)) == [CreateMusic(music.value)];
      assert CreateMusic(music.value) in Attempted(PlanOf(character, image, prompt, asset, music, rep));
    }
  }

  /**
   * The Music row is written only when music was asked for with a URL and the asset was
   * written; it points at the created character, carries the trimmed URL and is never verified.
   */
  lemma MusicOnlyWhenAsked(s: Submission, rep: Replies)
    ensures forall c :: c in Effects(s, rep) && c.CreateMusic? ==>
      WantsMusic(s.form) && rep.created.Some? && rep.assetOk &&
      c.music.characterId == rep.created.value.id && !c.music.verifiedOwner &&
      c.music.embedUrl == Trim(s.form.musicUrl) && c.music.embedUrl != []
  {
    var music := MusicFor(s, rep);
    RunDrawsMusic(CharacterPayloadFor(s.form, s.sessionUserId), ImageUpload(s, rep), PromptUpload(s, rep), AssetFor(s, rep), music, rep);
    forall c | c in Effects(s, rep) && c.CreateMusic?
      ensures WantsMusic(s.form) && rep.created.Some? && rep.assetOk && c.music == MusicPayloadFor(rep.created.value.id, s.form)
    {
      assert c in Attempted(Plan(s, rep));
    }
  }

  /** A submission that ends clean wrote a Music row exactly when music was asked for with a URL. */
  lemma MusicWrittenIffAsked(s: Submission, rep: Replies)
    requires Outcome(s, rep).None?
    ensures WantsMusic(s.form) <==> exists c :: c in Effects(s, rep) && c.CreateMusic?
  {
    CompleteRunMakesMusicIff(CharacterPayloadFor(s.form, s.sessionUserId), ImageUpload(s, rep), PromptUpload(s, rep), AssetFor(s, rep), MusicFor(s, rep), rep);
  }

  // ---------------------------------------------------------------- the component

  function ImageCalls(image: Option<UploadRequest>): seq<Call> {
    if image.Some? then [UploadImage(image.value)] else []
  }

  function PromptCalls(prompt: Option<UploadRequest>): seq<Call> {
    if prompt.Some? then [UploadPrompt(prompt.value)] else []
  }

  function MusicCalls(music: Option<MusicPayload>): seq<Call> {
    if music.Some? then [CreateMusic(music.value)] else []
  }

  /** The calls from the image upload on, each group made only when everything before it succeeded. */
  function TailFromImage(image: Option<UploadRequest>, prompt: Option<UploadRequest>, asset: AssetPayload,
                         music: Option<MusicPayload>, rep: Replies): seq<Call> {
    ImageCalls(image) + (if image.Some? && rep.imageUrl.None? then [] else TailFromPrompt(prompt, asset, music, rep))
  }

  function TailFromPrompt(prompt: Option<UploadRequest>, asset: AssetPayload, music: Option<MusicPayload>, rep: Replies): seq<Call> {
    PromptCalls(prompt) + (if prompt.Some? && rep.promptUrl.None? then [] else TailFromAsset(asset, music, rep))
  }

  function TailFromAsset(asset: AssetPayload, music: Option<MusicPayload>, rep: Replies): seq<Call> {
    [CreateAsset(asset)] + (if !rep.assetOk then [] else TailFromMusic(music, rep))
  }

  function TailFromMusic(music: Option<MusicPayload>, rep: Replies): seq<Call> {
    MusicCalls(music) + (if music.Some? && !rep.musicOk then [] else [NotifySubmitted, Close])
  }

  /** Every call from the image upload on succeeds (those that are made at all). */
  predicate CompletesFromImage(image: Option<UploadRequest>, prompt: Option<UploadRequest>, music: Option<MusicPayload>, rep: Replies) {
    (image.Some? ==> rep.imageUrl.Some?) && CompletesFromPrompt(prompt, music, rep)
  }

  predicate CompletesFromPrompt(prompt: Option<UploadRequest>, music: Option<MusicPayload>, rep: Replies) {
    (prompt.Some? ==> rep.promptUrl.Some?) && CompletesFromAsset(music, rep)
  }

  predicate CompletesFromAsset(music: Option<MusicPayload>, rep: Replies) {
    rep.assetOk && (music.Some? ==> rep.musicOk)
  }

  /** A valid submission's calls, spelled out: each group is made only when everything before it succeeded. */
  lemma RunOfPlanUnrolled(character: CharacterPayload, image: Option<UploadRequest>, prompt: Option<UploadRequest>,
                          asset: AssetPayload, music: Option<MusicPayload>, rep: Replies)
    ensures Attempted(PlanOf(character, image, prompt, asset, music, rep)) ==
      [CreateCharacter(character)] + (if rep.created.None? then [] else TailFromImage(image, prompt, asset, music, rep))
    ensures AllOk(PlanOf(character, image, prompt, asset, music, rep)) <==>
      rep.created.Some? && CompletesFromImage(image, prompt, music, rep)
  {
    RunOfPlan(character, image, prompt, asset, music, rep);
    PlanAllOk(character, image, prompt, asset, music, rep);
    var sb, sc, se := ImageSegment(image, rep), PromptSegment(prompt, rep), MusicSegment(music, rep);
    if image.Some? { AllOkOne(sb[0]); assert Calls(sb) == [UploadImage(image.value)]; } else { assert Calls(sb) == []; }
    if prompt.Some? { AllOkOne(sc[0]); assert Calls(sc) == [UploadPrompt(prompt.value)]; } else { assert Calls(sc) == []; }
    if music.Some? { AllOkOne(se[0]); assert Calls(se) == [CreateMusic(music.value)]; } else { assert Calls(se) == []; }
  }

  /** The message left by a run whose remaining calls complete exactly when `ok`. */
  function FailedUnless(ok: bool): Option<FormError> {
    if ok then None else Some(SubmissionFailed)
  }

  /** `Effects` and `Outcome` of a valid submission, spelled out step by step. */
  lemma EffectsUnrolled(s: Submission, rep: Replies)
    requires Validate(s.form, s.imageFile.Some?).None?
    ensures Effects(s, rep) == [CreateCharacter(CharacterPayloadFor(s.form, s.sessionUserId))] +
      (if rep.created.None? then [] else TailFromImage(ImageUpload(s, rep), PromptUpload(s, rep), AssetFor(s, rep), MusicFor(s, rep), rep))
    ensures Outcome(s, rep) ==
      FailedUnless(rep.created.Some? && CompletesFromImage(ImageUpload(s, rep), PromptUpload(s, rep), MusicFor(s, rep), rep))
  {
    RunOfPlanUnrolled(CharacterPayloadFor(s.form, s.sessionUserId), ImageUpload(s, rep), PromptUpload(s, rep), AssetFor(s, rep), MusicFor(s, rep), rep);
  }

  lemma Shift(done: seq<Call>, c: seq<Call>, rest: seq<Call>)
    ensures done + (c + rest) == (done + c) + rest
  {
  }

  /** The image upload `handleSubmit` makes for these fields, if any. */
  predicate PlannedImage(f: FormData, imageFile: Option<File>, configured: bool, character: Created, rep: Replies,
                         image: Option<UploadRequest>) {
    image == (if Blank(f.imageUrl) && imageFile.Some? && configured
              then Some(PrepareUpload(true, Images, imageFile.value, character.userId, Some(character.id), rep.imageMillis).value)
              else None)
  }

  /** The prompt-file upload `handleSubmit` makes for these fields, if any. */
  predicate PlannedPrompt(promptFile: Option<File>, configured: bool, character: Created, rep: Replies,
                          prompt: Option<UploadRequest>) {
    prompt == (if promptFile.Some? && configured
               then Some(PrepareUpload(true, Prompts, promptFile.value, character.userId, Some(character.id), rep.promptMillis).value)
               else None)
  }

  /** The Asset and Music rows `handleSubmit` writes for these fields, given which uploads were made. */
  predicate PlannedRows(f: FormData, character: Created, rep: Replies, image: Option<UploadRequest>,
                        prompt: Option<UploadRequest>, asset: AssetPayload, music: Option<MusicPayload>) {
    asset == AssetPayloadFor(character.id, if image.Some? then rep.imageUrl.GetOr("") else Trim(f.imageUrl), f,
                             if prompt.Some? then PromptNote(rep.promptUrl.GetOr("")) else "") &&
    music == (if WantsMusic(f) then Some(MusicPayloadFor(character.id, f)) else None)
  }

  /** For a created character, the plan's uploads and rows are the ones the stages will make. */
  lemma PlanMatchesStages(s: Submission, rep: Replies, character: Created)
    requires rep.created == Some(character)
    ensures PlannedImage(s.form, s.imageFile, s.configured, character, rep, ImageUpload(s, rep))
    ensures PlannedPrompt(s.promptFile, s.configured, character, rep, PromptUpload(s, rep))
    ensures PlannedRows(s.form, character, rep, ImageUpload(s, rep), PromptUpload(s, rep), AssetFor(s, rep), MusicFor(s, rep))
  {
  }

  /**
   * The submission form's state: the fields and chosen files it submits, the message it shows,
   * its busy flag, and the calls it has made so far (to the store and to its callbacks).
   */
  class SubmissionFormState {
    var form: FormData
    var imageFile: Option<File>
    var promptFile: Option<File>
    var error: Option<FormError>
    var loading: bool
    var calls: seq<Call>

    constructor(form0: FormData)
      ensures form == form0 && imageFile.None? && promptFile.None?
      ensures error.None? && !loading && calls == []
    {
      form := form0;
      imageFile := None;
      promptFile := None;
      error := None;
      loading := false;
      calls := [];
    }

    /**
     * `handleSubmit`: clears the message, runs the validation chain, then makes the store
     * calls one by one, stopping at the first that throws; the busy flag is down afterwards.
     */
    method HandleSubmit(sessionUserId: Option<string>, configured: bool, rep: Replies)
      modifies this
      ensures form == old(form) && imageFile == old(imageFile) && promptFile == old(promptFile)
      ensures var s := Submission(form, imageFile, promptFile, sessionUserId, configured);
        calls == old(calls) + Effects(s, rep) && error == Outcome(s, rep)
      ensures loading == (if Validate(form, imageFile.Some?).Some? then old(loading) else false)
    {
      ghost var s := Submission(form, imageFile, promptFile, sessionUserId, configured);
      error := None;
      var invalid := Validate(form, imageFile.Some?);
      if invalid.Some? {
        error := Some(Invalid(invalid.value));
        return;
      }
      EffectsUnrolled(s, rep);
      loading := true;
      var first := [CreateCharacter(CharacterPayloadFor(form, sessionUserId))];
      calls := calls + first;
      if rep.created.None? {
        error := Some(SubmissionFailed);
        loading := false;
        assert first + [] == first;
        return;
      }
      var character := rep.created.value;
      ghost var image, prompt, asset, music := ImageUpload(s, rep), PromptUpload(s, rep), AssetFor(s, rep), MusicFor(s, rep);
      PlanMatchesStages(s, rep, character);
      Shift(old(calls), first, TailFromImage(image, prompt, asset, music, rep));
      UploadImageStage(configured, rep, character, image, prompt, asset, music);
      assert s == Submission(form, imageFile, promptFile, sessionUserId, configured);
    }

    /** After the character row: the image upload when no URL was typed and a file was chosen. */
    method UploadImageStage(configured: bool, rep: Replies, character: Created, ghost image: Option<UploadRequest>,
                            ghost prompt: Option<UploadRequest>, ghost asset: AssetPayload, ghost music: Option<MusicPayload>)
      requires error.None? && PlannedImage(form, imageFile, configured, character, rep, image)
      requires PlannedPrompt(promptFile, configured, character, rep, prompt)
      requires PlannedRows(form, character, rep, image, prompt, asset, music)
      modifies this
      ensures form == old(form) && imageFile == old(imageFile) && promptFile == old(promptFile)
      ensures calls == old(calls) + TailFromImage(image, prompt, asset, music, rep)
      ensures error == FailedUnless(CompletesFromImage(image, prompt, music, rep)) && !loading
    {
      var imageUrl := Trim(form.imageUrl);
      if imageUrl == [] && imageFile.Some? && configured {
        var upload := PrepareUpload(true, Images, imageFile.value, character.userId, Some(character.id), rep.imageMillis);
        assert image == Some(upload.value);
        calls := calls + [UploadImage(upload.value)];
        if rep.imageUrl.None? {
          error := Some(SubmissionFailed);
          loading := false;
          assert [UploadImage(upload.value)] + [] == [UploadImage(upload.value)];
          return;
        }
        imageUrl := rep.imageUrl.value;
        Shift(old(calls), [UploadImage(upload.value)], TailFromPrompt(prompt, asset, music, rep));
      } else {
        assert image.None?;
        assert [] + TailFromPrompt(prompt, asset, music, rep) == TailFromPrompt(prompt, asset, music, rep);
      }
      UploadPromptStage(configured, rep, character, imageUrl, image, prompt, asset, music);
    }

    /** After the image: the prompt-file upload when a file was chosen. */
    method UploadPromptStage(configured: bool, rep: Replies, character: Created, imageUrl: string, ghost image: Option<UploadRequest>,
                             ghost prompt: Option<UploadRequest>, ghost asset: AssetPayload, ghost music: Option<MusicPayload>)
      requires error.None? && PlannedPrompt(promptFile, configured, character, rep, prompt)
      requires PlannedRows(form, character, rep, image, prompt, asset, music)
      requires imageUrl == if image.Some? then rep.imageUrl.GetOr("") else Trim(form.imageUrl)
      modifies this
      ensures form == old(form) && imageFile == old(imageFile) && promptFile == old(promptFile)
      ensures calls == old(calls) + TailFromPrompt(prompt, asset, music, rep)
      ensures error == FailedUnless(CompletesFromPrompt(prompt, music, rep)) && !loading
    {
      var promptNote := "";
      if promptFile.Some? && configured {
        var upload := PrepareUpload(true, Prompts, promptFile.value, character.userId, Some(character.id), rep.promptMillis);
        assert prompt == Some(upload.value);
        calls := calls + [UploadPrompt(upload.value)];
        if rep.promptUrl.None? {
          error := Some(SubmissionFailed);
          loading := false;
          assert [UploadPrompt(upload.value)] + [] == [UploadPrompt(upload.value)];
          return;
        }
        promptNote := PromptNote(rep.promptUrl.value);
        Shift(old(calls), [UploadPrompt(upload.value)], TailFromAsset(asset, music, rep));
      } else {
        assert [] + TailFromAsset(asset, music, rep) == TailFromAsset(asset, music, rep);
      }
      WriteRowsStage(rep, character, imageUrl, promptNote, asset, music);
    }

    /** After the uploads: the Asset row, the Music row when asked for, then the two callbacks. */
    method WriteRowsStage(rep: Replies, character: Created, imageUrl: string, promptNote: string,
                          ghost asset: AssetPayload, ghost music: Option<MusicPayload>)
      requires error.None? && asset == AssetPayloadFor(character.id, imageUrl, form, promptNote)
      requires music == (if WantsMusic(form) then Some(MusicPayloadFor(character.id, form)) else None)
      modifies this
      ensures form == old(form) && imageFile == old(imageFile) && promptFile == old(promptFile)
      ensures calls == old(calls) + TailFromAsset(asset, music, rep)
      ensures error == FailedUnless(CompletesFromAsset(music, rep)) && !loading
    {
      var row := AssetPayloadFor(character.id, imageUrl, form, promptNote);
      assert row == asset;
      calls := calls + [CreateAsset(row)];
      if !rep.assetOk {
        error := Some(SubmissionFailed);
        loading := false;
        assert TailFromAsset(asset, music, rep) == [CreateAsset(row)];
        return;
      }
      assert TailFromAsset(asset, music, rep) == [CreateAsset(row)] + TailFromMusic(music, rep);
      if form.hasMusic && !Blank(form.musicUrl) {
        var track := MusicPayloadFor(character.id, form);
        assert music == Some(track) && MusicCalls(music) == [CreateMusic(track)];
        calls := calls + [CreateMusic(track)];
        if !rep.musicOk {
          error := Some(SubmissionFailed);
          loading := false;
          assert TailFromMusic(music, rep) == [CreateMusic(track)];
          return;
        }
      } else {
        assert music.None? && MusicCalls(music) == [];
      }
      calls := calls + [NotifySubmitted, Close];
      loading := false;
    }
  }
}
