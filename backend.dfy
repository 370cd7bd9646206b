/**
 * The service layer of `src/lib/supabase.js`: whether a backend is configured, the
 * storage path and extension an upload uses, the payload shapes of the create calls,
 * and what the services do in mock mode (no backend configured). The hosted
 * backend itself (queries, storage, public URLs) is outside the model.
 */
module Backend {
  import opened Wrappers
  import opened Text
  import opened Domain
  import MockData

  /** `hasSupabase`: both settings present and non-empty, and the URL is not the template placeholder. */
  function HasSupabase(url: Option<string>, key: Option<string>): (r: bool)
    ensures r <==> Truthy(url) && Truthy(key) && !(exists i :: OccursAt(url.value, "your-project", i))
  {
    Truthy(url) && Truthy(key) && !Includes(url.value, "your-project")
  }

  // ---------------------------------------------------------------- uploads

  /** A browser `File`; only its (possibly missing) name matters here. */
  datatype File = File(name: Option<string>)

  /** The storage bucket: `images` for `uploadImage`, `prompts` for `uploadPromptFile`. */
  datatype Bucket = Images | Prompts

  function DefaultExtension(b: Bucket): (r: string)
    ensures r != [] && '.' !in r
  {
    match b
    case Images => "png"
    case Prompts => "txt"
  }

  /** `file.name?.split('.').pop()?.toLowerCase() || fallback`. */
  function Extension(name: Option<string>, fallback: string): (r: string)
    ensures name.None? || AfterLast(name.value, '.') == [] ==> r == fallback
    ensures name.Some? && AfterLast(name.value, '.') != [] ==>
      r == ToLower(AfterLast(name.value, '.')) && r != [] && '.' !in r
  {
    if name.None? then fallback
    else
      var tail := AfterLast(name.value, '.');
      if tail == [] then fallback
      else
        ToLowerKeepsAbsent(tail, '.');
        ToLower(tail)
  }

  lemma {:induction false} AfterLastWithoutSeparator(s: string, sep: char)
    requires sep !in s
    ensures AfterLast(s, sep) == s
  {
    if s != [] {
      assert sep !in s[..|s| - 1] by { assert forall c :: c in s[..|s| - 1] ==> c in s; }
      AfterLastWithoutSeparator(s[..|s| - 1], sep);
      assert s[..|s| - 1] + [s[|s| - 1]] == s;
    }
  }

  /** A name without a dot is its own extension (lower-cased); a name ending in a dot gets the fallback. */
  lemma ExtensionEdgeCases(name: string, fallback: string)
    ensures '.' !in name && name != [] ==> Extension(Some(name), fallback) == ToLower(name)
    ensures name != [] && name[|name| - 1] == '.' ==> Extension(Some(name), fallback) == fallback
  {
    if '.' !in name {
      AfterLastWithoutSeparator(name, '.');
    }
  }

  /** Where an upload goes: the object `${owner}/${folder}/${stamp}.${ext}` in `bucket`. */
  datatype UploadRequest = UploadRequest(bucket: Bucket, owner: string, folder: string, stamp: nat, ext: string)

  /**
   * The object path of an upload: the owner, a slash, the folder, a slash, the decimal stamp,
   * a dot, and the extension, which is then what follows the path's last dot.
   */
  function Path(u: UploadRequest): (p: string)
    ensures |u.owner| < |p| && p[..|u.owner|] == u.owner && p[|u.owner|] == '/'
    ensures var k := |u.owner| + 1;
      k + |u.folder| < |p| && p[k..k + |u.folder|] == u.folder && p[k + |u.folder|] == '/'
    ensures var j, n := |u.owner| + |u.folder| + 2, NatToString(u.stamp);
      j + |n| < |p| && p[j..j + |n|] == n && p[j + |n|] == '.' && p[j + |n| + 1..] == u.ext
    ensures '.' !in u.ext ==> AfterLast(p, '.') == u.ext
  {
    var prefix := u.owner + "/" + u.folder + "/" + NatToString(u.stamp);
    if '.' in u.ext then prefix + "." + u.ext
    else
      AfterLastOfJoin(prefix, '.', u.ext);
      prefix + "." + u.ext
  }

  datatype UploadError = NotConfigured

  /**
   * `uploadImage` / `uploadPromptFile` up to the storage call: they throw when no backend
   * is configured; otherwise the object is stored under `${userId || 'anon'}/${characterId || 'temp'}`
   * with the current time as its name and the file's extension, lower-cased, or the bucket's default.
   */
  function PrepareUpload(configured: bool, bucket: Bucket, file: File, userId: Option<string>,
                         characterId: Option<string>, nowMillis: nat): (r: Result<UploadRequest, UploadError>)
    ensures r.Failure? <==> !configured
    ensures r.Success? ==> r.value.bucket == bucket && r.value.stamp == nowMillis
    ensures r.Success? ==> r.value.owner == OrElse(userId, "anon") && r.value.folder == OrElse(characterId, "temp")
    ensures r.Success? ==> r.value.owner != [] && r.value.ext == Extension(file.name, DefaultExtension(bucket))
    ensures r.Success? ==> r.value.ext != [] && '.' !in r.value.ext
  {
    if !configured then Failure(NotConfigured)
    else Success(UploadRequest(bucket, OrElse(userId, "anon"), OrElse(characterId, "temp"), nowMillis,
                               Extension(file.name, DefaultExtension(bucket))))
  }

  /** A prepared upload's path starts with a non-empty owner segment and keeps the file's extension. */
  lemma PreparedPath(bucket: Bucket, file: File, userId: Option<string>, characterId: Option<string>, nowMillis: nat)
    ensures var u := PrepareUpload(true, bucket, file, userId, characterId, nowMillis).value;
      var p, owner := Path(u), OrElse(userId, "anon");
      owner != [] && |owner| < |p| && p[..|owner|] == owner && p[|owner|] == '/' &&
      AfterLast(p, '.') == Extension(file.name, DefaultExtension(bucket))
  {
  }

  // ---------------------------------------------------------------- create payloads

  /** The row `createCharacter` inserts. */
  datatype CharacterPayload = CharacterPayload(
    name: string,
    shortWorldview: string,
    description: Option<string>,
    hasMusic: bool,
    aiToolUsed: Option<string>,
    status: Status,
    userId: string)

  /** The row `createAsset` inserts; `id` is present only if the caller sets one. */
  datatype AssetPayload = AssetPayload(
    id: Option<string>,
    characterId: string,
    kind: string,
    originalUrl: string,
    thumbnailUrl: string,
    promptSummary: Option<string>,
    downloadable: bool)

  /** The row `createMusic` inserts. */
  datatype MusicPayload = MusicPayload(
    id: Option<string>,
    characterId: string,
    platform: string,
    embedUrl: string,
    title: Option<string>,
    verifiedOwner: bool)

  datatype Row<P> = Row(id: string, payload: P)

  /** Mock `createAsset`: `{ id: 'mock-asset', ...payload }`, so a payload id overrides the mock one. */
  function MockCreateAsset(p: AssetPayload): (r: Row<AssetPayload>)
    ensures r.payload == p
    ensures p.id.None? ==> r.id == "mock-asset"
    ensures p.id.Some? ==> r.id == p.id.value
  {
    Row(p.id.GetOr("mock-asset"), p)
  }

  /** Mock `createMusic`: `{ id: 'mock-music', ...payload }`. */
  function MockCreateMusic(p: MusicPayload): (r: Row<MusicPayload>)
    ensures r.payload == p
    ensures p.id.None? ==> r.id == "mock-music"
    ensures p.id.Some? ==> r.id == p.id.value
  {
    Row(p.id.GetOr("mock-music"), p)
  }

  /**
   * What mock `createCharacter` hands to `submitCharacter`: the payload's fields spread, no id,
   * no timestamps. Whenever the store queues it, the entry takes the timestamp id and carries
   * the payload's texts and owner, with no assets, music or tags.
   */
  function AsDraft(p: CharacterPayload): (d: Draft)
    ensures d.id.None? && d.status == Some(p.status)
    ensures forall now: nat, iso: string :: var c := MockData.NewCharacter(d, now, iso);
      c.id == NatToString(now) && c.name == p.name && c.shortWorldview == p.shortWorldview &&
      c.description == p.description && c.hasMusic == p.hasMusic && c.aiToolUsed == p.aiToolUsed &&
      c.userId == Some(p.userId) && c.assets == [] && c.music == [] && c.tags == []
  {
    Draft(None, p.name, p.shortWorldview, p.description, p.hasMusic, p.aiToolUsed, Some(p.status),
          None, Some(p.userId), None, [], [], [])
  }

  /** Mock `createCharacter`: the character joins the queue under a timestamp id and keeps the payload's owner. */
  method MockCreateCharacter(store: MockData.Store, p: CharacterPayload, nowMillis: nat, nowIso: string)
    returns (c: Character)
    requires store.Valid()
    modifies store
    ensures store.Valid()
    ensures c == MockData.NewCharacter(AsDraft(p), nowMillis, nowIso)
    ensures c.id == NatToString(nowMillis) && c.userId == Some(p.userId) && c.status == Pending
    ensures store.State() == MockData.Submit(old(store.State()), c)
  {
    c := store.SubmitCharacter(AsDraft(p), nowMillis, nowIso);
  }

  // ---------------------------------------------------------------- status updates

  /** Where mock `updateCharacterStatus` sends a status. */
  datatype MockRoute = ToApprove | ToReject | Ignored

  function MockStatusRoute(status: string): (r: MockRoute)
    ensures r == ToApprove <==> status == "approved"
    ensures r == ToReject <==> status == "rejected"
  {
    if status == "approved" then ToApprove
    else if status == "rejected" then ToReject
    else Ignored
  }

  /** Mock `updateCharacterStatus`: approve, reject, or nothing at all for any other status. */
  method MockUpdateCharacterStatus(store: MockData.Store, id: string, status: string) returns (r: Option<Character>)
    requires store.Valid()
    modifies store
    ensures store.Valid()
    ensures status == "approved" ==> MockData.Decided(store.State(), r) == MockData.Approve(old(store.State()), id)
    ensures status == "rejected" ==> MockData.Decided(store.State(), r) == MockData.Reject(old(store.State()), id)
    ensures status != "approved" && status != "rejected" ==> r.None? && store.State() == old(store.State())
  {
    match MockStatusRoute(status)
    case ToApprove => r := store.ApproveCharacter(id);
    case ToReject => r := store.RejectCharacter(id);
    case Ignored => r := None;
  }

  // ---------------------------------------------------------------- engagement

  datatype EngagementAction = View | Play | Download

  datatype EngagementRow = EngagementRow(characterId: string, action: EngagementAction)

  /**
   * `trackEngagement`: the inserts it attempts. Nothing without a backend; one row with one.
   * A failing insert is caught and logged, so no outcome reaches the caller.
   */
  function EngagementInserts(configured: bool, characterId: string, action: EngagementAction): (r: seq<EngagementRow>)
    ensures !configured <==> r == []
    ensures configured ==> |r| == 1 && r[0].characterId == characterId && r[0].action == action
  {
    if !configured then [] else [EngagementRow(characterId, action)]
  }
}
