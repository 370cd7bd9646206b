/**
 * The records the gallery passes around: a character with its nested assets, music
 * and tags, as the mock data and the backend's hydrated reads shape them.
 * A JavaScript field that may be `null` or absent is an `Option`; an absent array is
 * the empty sequence (every reader goes through `?.[0]` or `.length`).
 */
module Domain {
  import opened Wrappers

  /** The moderation state of a character: `'pending'`, `'approved'` or `'rejected'`. */
  datatype Status = Pending | Approved | Rejected

  /** The owner summary embedded as `users` in a character. */
  datatype UserInfo = UserInfo(name: string, handle: string, avatarUrl: Option<string>)

  datatype Tag = Tag(name: string, kind: string, color: string)

  datatype Asset = Asset(
    id: Option<string>,
    kind: string,
    originalUrl: Option<string>,
    thumbnailUrl: Option<string>,
    promptSummary: Option<string>)

  datatype Music = Music(
    id: Option<string>,
    platform: string,
    embedUrl: string,
    title: Option<string>,
    verifiedOwner: bool,
    sunoTrackId: Option<string>)

  datatype Character = Character(
    id: string,
    name: string,
    shortWorldview: string,
    description: Option<string>,
    hasMusic: bool,
    aiToolUsed: Option<string>,
    status: Status,
    createdAt: string,
    userId: Option<string>,
    users: Option<UserInfo>,
    assets: seq<Asset>,
    music: seq<Music>,
    tags: seq<Tag>)

  /**
   * The object a caller hands to `submitCharacter`: the same fields, each of which the
   * caller may leave out, including the ones the store fills in itself.
   */
  datatype Draft = Draft(
    id: Option<string>,
    name: string,
    shortWorldview: string,
    description: Option<string>,
    hasMusic: bool,
    aiToolUsed: Option<string>,
    status: Option<Status>,
    createdAt: Option<string>,
    userId: Option<string>,
    users: Option<UserInfo>,
    assets: seq<Asset>,
    music: seq<Music>,
    tags: seq<Tag>)
}
