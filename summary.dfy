/** The guild-wide summary channel of `nekochanbot2.py`
    (`update_summary_vc_name`): its name shows the number of non-bot users
    in every voice channel of the guild outside the status category, capped
    at 999. */
module Summary {
  import opened Common
  import opened Names
  import opened Platform

  /** A voice channel of the guild as the summary sees it. */
  datatype Voice = Voice(id: ChannelId, category: Option<string>, members: seq<Member>)

  /** Channels inside a status category (mirrors and the summary channel
      itself) are not counted. */
  predicate Counted(c: Voice)
  {
    !(c.category.Some? && IsStatusCategory(c.category.value))
  }

  /** Non-bot users over the counted channels, defined on prefixes so that
      it can be read off a left-to-right loop. */
  function Total(channels: seq<Voice>): nat
    decreases |channels|
  {
    if |channels| == 0 then 0
    else
      var last := channels[|channels| - 1];
      Total(channels[..|channels| - 1]) + (if Counted(last) then NonBotCount(last.members) else 0)
  }

  lemma {:induction false} TotalAppend(a: seq<Voice>, b: seq<Voice>)
    ensures Total(a + b) == Total(a) + Total(b)
    decreases |b|
  {
    if |b| == 0 {
      assert a + b == a;
    } else {
      assert (a + b)[..|a + b| - 1] == a + b[..|b| - 1];
      TotalAppend(a, b[..|b| - 1]);
    }
  }

  /** Adding a channel from the status category never changes the total,
      and adding a counted channel adds exactly its non-bot users. */
  lemma TotalIgnoresStatus(channels: seq<Voice>, c: Voice)
    ensures Total(channels + [c]) == Total(channels) + (if Counted(c) then NonBotCount(c.members) else 0)
    ensures !Counted(c) ==> Total([c] + channels) == Total(channels)
  {
    TotalAppend([c], channels);
    assert Total([c]) == Total([]) + (if Counted(c) then NonBotCount(c.members) else 0) by {
      assert [c][..0] == [];
    }
    assert (channels + [c])[..|channels|] == channels;
  }

  /** The total never exceeds the number of members across all channels. */
  function MemberTotal(channels: seq<Voice>): nat
    decreases |channels|
  {
    if |channels| == 0 then 0
    else MemberTotal(channels[..|channels| - 1]) + |channels[|channels| - 1].members|
  }

  lemma {:induction false} TotalBounded(channels: seq<Voice>)
    ensures Total(channels) <= MemberTotal(channels)
    decreases |channels|
  {
    if |channels| > 0 {
      TotalBounded(channels[..|channels| - 1]);
    }
  }

  /** The summary bookkeeping of one guild: the summary channel, if any,
      and the end of a rate-limit cooldown, if any. */
  datatype SummaryEntry = SummaryEntry(channel: Option<ChannelId>, cooldown: Option<Time>)

  datatype SummaryPass = SummaryPass(entry: SummaryEntry, attempted: Option<string>)

  /** Fallback cooldown after a 429 without a hint. */
  const DefaultRetryAfter: nat := 60

  /** One run of `update_summary_vc_name` once the flag is taken, given
      whether the recorded channel is still a voice channel, its current
      name, the guild's voice channels, the clock and the outcome of the
      rename. */
  function Pass(s: SummaryEntry, isVoice: bool, currentName: string, channels: seq<Voice>,
                now: Time, edit: EditResult): SummaryPass
  {
    if s.channel.None? then SummaryPass(s, None)
    else if !isVoice then SummaryPass(s.(channel := None), None)
    else if s.cooldown.Some? && now < s.cooldown.value then SummaryPass(s, None)
    else Rename(s, SummaryName(Cap(Total(channels))), currentName, now, edit)
  }

  /** The rename step of a pass, once the target name is known. */
  function Rename(s: SummaryEntry, target: string, currentName: string, now: Time, edit: EditResult): SummaryPass
  {
    if target == currentName then SummaryPass(s, None)
    else match edit
      case Edited => SummaryPass(s.(cooldown := None), Some(target))
      case RateLimited(ra) =>
        SummaryPass(s.(cooldown := Some(now + if ra.Some? then ra.value else DefaultRetryAfter)), Some(target))
      case EditFailed => SummaryPass(s, Some(target))
  }

  /** A pass only ever writes the summary label for the current total, and
      only when the channel does not already show it. */
  lemma PassTarget(s: SummaryEntry, isVoice: bool, currentName: string, channels: seq<Voice>,
                   now: Time, edit: EditResult)
    ensures var p := Pass(s, isVoice, currentName, channels, now, edit);
      p.attempted.Some? ==>
        && p.attempted.value == SummaryName(Cap(Total(channels)))
        && p.attempted.value != currentName
        && s.channel.Some? && isVoice
  {
  }

  /** A summary channel that is no longer a voice channel is forgotten. */
  lemma PassDropsStale(s: SummaryEntry, currentName: string, channels: seq<Voice>, now: Time, edit: EditResult)
    requires s.channel.Some?
    ensures Pass(s, false, currentName, channels, now, edit).entry.channel.None?
  {
  }

  /** The rate-limit rules of a pass: a rename is attempted exactly when
      the recorded channel is still a voice channel, no cooldown is in force
      and the label differs from the current name; success clears the
      cooldown, a 429 sets it `retry_after` (or 60) seconds ahead, any other
      failure and every pass without an attempt leave it as it was. */
  lemma PassCooldown(s: SummaryEntry, isVoice: bool, currentName: string, channels: seq<Voice>,
                     now: Time, edit: EditResult)
    ensures var p := Pass(s, isVoice, currentName, channels, now, edit);
      && (p.attempted.Some? <==>
            && s.channel.Some? && isVoice
            && !(s.cooldown.Some? && now < s.cooldown.value)
            && SummaryName(Cap(Total(channels))) != currentName)
      && p.entry.channel == (if isVoice then s.channel else None)
      && (p.attempted.None? ==> p.entry.cooldown == s.cooldown)
      && (p.attempted.Some? && edit.Edited? ==> p.entry.cooldown.None?)
      && (p.attempted.Some? && edit.RateLimited? ==>
            p.entry.cooldown == Some(now + if edit.retryAfter.Some? then edit.retryAfter.value else DefaultRetryAfter))
      && (p.attempted.Some? && edit.EditFailed? ==> p.entry == s)
  {
  }

  /** A pass that attempts a rename and meets a 429: every later pass
      before the cooldown ends, whatever the members, the name and the
      outcome, attempts nothing and keeps the entry. */
  lemma {:induction false} PassBackoff(s: SummaryEntry, currentName: string, channels: seq<Voice>,
                                       now: Time, ra: Option<nat>, later: seq<(Time, string, seq<Voice>, EditResult)>)
    requires s.channel.Some? && !(s.cooldown.Some? && now < s.cooldown.value)
    requires SummaryName(Cap(Total(channels))) != currentName
    requires forall k :: 0 <= k < |later| ==>
      now <= later[k].0 < now + (if ra.Some? then ra.value else DefaultRetryAfter)
    ensures var p := Pass(s, true, currentName, channels, now, RateLimited(ra));
      && p.attempted.Some?
      && Replay(p.entry, later) == p.entry
      && forall k :: 0 <= k < |later| ==>
           Pass(p.entry, true, later[k].1, later[k].2, later[k].0, later[k].3).attempted.None?
    decreases |later|
  {
    var p := Pass(s, true, currentName, channels, now, RateLimited(ra));
    PassCooldown(s, true, currentName, channels, now, RateLimited(ra));
    if |later| > 0 {
      var (t, n, cs, e) := later[|later| - 1];
      PassBackoff(s, currentName, channels, now, ra, later[..|later| - 1]);
      assert Replay(p.entry, later) == Pass(Replay(p.entry, later[..|later| - 1]), true, n, cs, t, e).entry;
    }
  }

  /** The entry after a series of passes on a voice channel, each given its
      clock, current name, channels and rename outcome. */
  function Replay(s: SummaryEntry, passes: seq<(Time, string, seq<Voice>, EditResult)>): SummaryEntry
    decreases |passes|
  {
    if |passes| == 0 then s
    else
      var (t, n, cs, e) := passes[|passes| - 1];
      Pass(Replay(s, passes[..|passes| - 1]), true, n, cs, t, e).entry
  }

  /** The loop of `update_summary_vc_name` that adds up the users. */
  method CountUsers(channels: seq<Voice>) returns (total: nat)
    ensures total == Total(channels)
  {
    total := 0;
    var i := 0;
    while i < |channels|
      invariant 0 <= i <= |channels|
      invariant total == Total(channels[..i])
    {
      assert channels[..i + 1][..i] == channels[..i];
      if Counted(channels[i]) {
        total := total + NonBotCount(channels[i].members);
      }
      i := i + 1;
    }
    assert channels[..i] == channels;
  }

  /** The body of `update_summary_vc_name` once the flag is taken, step by
      step as the source runs it. */
  method RunPass(s: SummaryEntry, isVoice: bool, currentName: string, voices: seq<Voice>,
                 now: Time, edit: EditResult) returns (p: SummaryPass)
    ensures p == Pass(s, isVoice, currentName, voices, now, edit)
  {
    if s.channel.None? {
      return SummaryPass(s, None);
    }
    if !isVoice {
      return SummaryPass(s.(channel := None), None);
    }
    if s.cooldown.Some? && now < s.cooldown.value {
      return SummaryPass(s, None);
    }
    var total := CountUsers(voices);
    p := RunRename(s, SummaryName(Cap(total)), currentName, now, edit);
  }

  /** Compare with the current name and rename if they differ. */
  method RunRename(s: SummaryEntry, target: string, currentName: string, now: Time, edit: EditResult)
    returns (p: SummaryPass)
    ensures p == Rename(s, target, currentName, now, edit)
  {
    if target == currentName {
      return SummaryPass(s, None);
    }
    match edit {
      case Edited =>
        p := SummaryPass(s.(cooldown := None), Some(target));
      case RateLimited(ra) =>
        p := SummaryPass(s.(cooldown := Some(now + if ra.Some? then ra.value else DefaultRetryAfter)), Some(target));
      case EditFailed =>
        p := SummaryPass(s, Some(target));
    }
  }

  /** `summary_vc_tracking`, `summary_vc_processing_flags` and
      `summary_vc_api_cooldown_until`. */
  class SummaryTracker {
    var channels: map<GuildId, ChannelId>
    var processing: set<GuildId>
    var cooldownUntil: map<GuildId, Time>

    constructor ()
      ensures channels == map[] && processing == {} && cooldownUntil == map[]
    {
      channels := map[];
      processing := {};
      cooldownUntil := map[];
    }

    function EntryOf(g: GuildId): SummaryEntry
      reads this
    {
      SummaryEntry(Get(channels, g), Get(cooldownUntil, g))
    }

    /** `update_summary_vc_name(guild)`: skipped when another run holds the
        guild's flag; otherwise the guild's entry becomes what `Pass`
        says, every other guild keeps its entry, and the flag is released. */
    method Update(g: GuildId, isVoice: bool, currentName: string, voices: seq<Voice>,
                  now: Time, edit: EditResult) returns (attempted: Option<string>)
      modifies this
      ensures processing == old(processing)
      ensures old(g in processing) ==>
        channels == old(channels) && cooldownUntil == old(cooldownUntil) && attempted.None?
      ensures old(g !in processing) ==>
        var p := Pass(old(EntryOf(g)), isVoice, currentName, voices, now, edit);
        && channels == Put(old(channels), g, p.entry.channel)
        && cooldownUntil == Put(old(cooldownUntil), g, p.entry.cooldown)
        && attempted == p.attempted
    {
      if g in processing {
        return None;
      }
      var s := SummaryEntry(Get(channels, g), Get(cooldownUntil, g));
      processing := processing + {g};
      var p := RunPass(s, isVoice, currentName, voices, now, edit);
      channels := Put(channels, g, p.entry.channel);
      cooldownUntil := Put(cooldownUntil, g, p.entry.cooldown);
      attempted := p.attempted;
      processing := processing - {g};
    }

    /** The summary part of the periodic sweep, over the guild ids in the
        table's own order: guilds the bot can no longer see lose their
        summary channel; the others are due for an update. */
    method Sweep(keys: seq<GuildId>, visible: set<GuildId>) returns (due: set<GuildId>)
      requires forall g :: g in keys <==> g in channels
      modifies this
      ensures channels == map g | g in old(channels) && g in visible :: old(channels)[g]
      ensures due == old(channels).Keys * visible
      ensures processing == old(processing) && cooldownUntil == old(cooldownUntil)
    {
      due := {};
      ghost var start := channels;
      var i := 0;
      while i < |keys|
        invariant 0 <= i <= |keys|
        invariant channels.Keys <= start.Keys
        invariant forall g :: g in channels <==> g in start && (g in visible || g !in keys[..i])
        invariant forall g :: g in channels ==> channels[g] == start[g]
        invariant forall g :: g in due <==> g in start && g in visible && g in keys[..i]
        invariant processing == old(processing) && cooldownUntil == old(cooldownUntil)
      {
        var g := keys[i];
        if g in visible {
          due := due + {g};
        } else {
          channels := channels - {g};
        }
        i := i + 1;
      }
      assert keys[..i] == keys;
      ghost var expected := map g | g in start && g in visible :: start[g];
      forall g ensures g in channels <==> g in expected {
        assert g in start ==> g in keys[..i];
      }
      assert channels.Keys == expected.Keys;
      forall g ensures g in due <==> g in start.Keys * visible {
        assert g in start ==> g in keys[..i];
      }
      assert forall g :: g in channels ==> channels[g] == expected[g];
      assert channels == expected;
    }
  }
}
