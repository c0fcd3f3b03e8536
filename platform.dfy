/** What the reconciler sees of Discord: identifiers, the record kept for a
    tracked channel, and the outcomes of the platform calls it makes.
    Platform calls are not performed here; their outcomes are inputs. */
module Platform {
  import opened Common
  import opened Names

  /** Discord snowflakes. */
  type ChannelId = int
  type GuildId = int

  /** A point in time, in whole seconds. */
  type Time = int

  /** `timedelta(minutes=5)`, the period every revision is built around. */
  const FiveMinutes: int := 300

  /** One entry of `vc_tracking`: the guild, the mirror channel and the
      source channel's name as it was when tracking began. */
  datatype TrackInfo = TrackInfo(guild: GuildId, mirror: ChannelId, name: string)

  /** What a lookup of the recorded mirror channel finds. */
  datatype MirrorView =
    | Missing                                            // no guild, no id, or no channel
    | Present(isVoice: bool, category: Option<string>)   // a channel and its category's name

  /** A usable mirror: a voice channel inside a status category. `strict`
      selects the case-sensitive test of the later revisions. */
  predicate ValidMirror(v: MirrorView, strict: bool)
  {
    v.Present? && v.isVoice && v.category.Some? && CategoryMatches(v.category.value, strict)
  }

  /** Outcome of `fetch_channel` on the mirror. */
  datatype FetchResult =
    | Fetched(name: string)
    | FetchNotFound
    | FetchForbidden
    | FetchFailed            // time-out or any other error

  /** Outcome of `edit(name=...)` on a channel. */
  datatype EditResult =
    | Edited
    | RateLimited(retryAfter: Option<nat>)   // HTTP 429, with the server's hint if any
    | EditFailed                             // time-out, permission or any other error

  /** Outcome of creating a mirror (category lookup or creation included). */
  datatype CreateResult = Created(mirror: ChannelId) | CreateFailed
}
