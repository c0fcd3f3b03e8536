/** The case analyses of `nekochanbot2.py` that decide what to do with a
    tracked channel: the periodic sweep (`periodic_status_update`) and the
    channel-deletion handler (`on_guild_channel_delete`). Both only look at
    the tables and at what the guild currently holds; the routines they
    schedule are modelled in `FlagReconciler` and `Summary`. */
module SweepRules {
  import opened Common
  import opened Names
  import opened Platform
  import Summary

  // ---------------------------------------------------------------------
  // The periodic sweep
  // ---------------------------------------------------------------------

  /** What the sweep finds for one tracked id: whether the entry is still
      there, whether its guild is visible, whether the source channel is a
      voice channel, and what the recorded mirror id resolves to. */
  datatype Probe = Probe(tracked: bool, guildFound: bool, sourceIsVoice: bool, mirror: MirrorView)

  /** The task the sweep schedules for one id. */
  datatype SweepAction =
    | Skip                 // the entry disappeared
    | UnregisterNoGuild    // the guild is gone
    | FixCategory          // the mirror sits outside a status category
    | Refresh              // a regular name update
    | UnregisterSource     // the source is no longer a voice channel
    | Recreate             // the mirror is gone or not a voice channel
    | UnregisterGeneric    // the catch-all last branch

  /** The branch of the sweep body taken for one id, in source order. */
  function Decide(p: Probe): (a: SweepAction)
    ensures a == Refresh ==> p.sourceIsVoice && ValidMirror(p.mirror, false)
  {
    if !p.tracked then Skip
    else if !p.guildFound then UnregisterNoGuild
    else if p.sourceIsVoice && p.mirror.Present? && p.mirror.isVoice then
      if p.mirror.category.None? || !IsStatusCategory(p.mirror.category.value) then FixCategory
      else Refresh
    else if !p.sourceIsVoice then UnregisterSource
    else if p.sourceIsVoice && !(p.mirror.Present? && p.mirror.isVoice) then Recreate
    else UnregisterGeneric
  }

  /** The catch-all branch is dead: the three branches before it already
      cover every combination of the two channel kinds. */
  lemma GenericUnreachable(p: Probe)
    ensures Decide(p) != UnregisterGeneric
  {
  }

  /** For a visible tracked entry whose source is still a voice channel,
      the sweep refreshes the name exactly when the mirror is usable, and
      otherwise schedules a repair (a new registration); it never drops
      such an entry. */
  lemma RepairExactlyWhenInvalid(p: Probe)
    requires p.tracked && p.guildFound && p.sourceIsVoice
    ensures Decide(p) == Refresh <==> ValidMirror(p.mirror, false)
    ensures Decide(p) != Refresh ==> Decide(p) == FixCategory || Decide(p) == Recreate
  {
  }

  /** An entry is dropped by the sweep exactly when its guild or its
      source channel is gone. */
  lemma UnregisterExactly(p: Probe)
    requires p.tracked
    ensures Decide(p) in {UnregisterNoGuild, UnregisterSource} <==> !p.guildFound || !p.sourceIsVoice
  {
  }

  /** The loop over the tracked ids (a snapshot of the table's keys, in
      the table's order): one scheduled task per id. Nothing awaits inside
      the loop, so every probe sees the tables as they were at its start. */
  method PlanSweep(ids: seq<ChannelId>, probes: seq<Probe>) returns (plan: seq<SweepAction>)
    requires |probes| == |ids|
    ensures |plan| == |ids|
    ensures forall i :: 0 <= i < |ids| ==> plan[i] == Decide(probes[i]) && plan[i] != UnregisterGeneric
  {
    plan := [];
    var i := 0;
    while i < |ids|
      invariant 0 <= i <= |ids|
      invariant |plan| == i
      invariant forall j :: 0 <= j < i ==> plan[j] == Decide(probes[j]) && plan[j] != UnregisterGeneric
    {
      var p := probes[i];
      var a: SweepAction;
      if !p.tracked {
        a := Skip;
      } else if !p.guildFound {
        a := UnregisterNoGuild;
      } else if p.sourceIsVoice && p.mirror.Present? && p.mirror.isVoice {
        if p.mirror.category.None? || !IsStatusCategory(p.mirror.category.value) {
          a := FixCategory;
        } else {
          a := Refresh;
        }
      } else if !p.sourceIsVoice {
        a := UnregisterSource;
      } else {
        a := Recreate;
      }
      plan := plan + [a];
      i := i + 1;
    }
  }

  // ---------------------------------------------------------------------
  // Channel deletion
  // ---------------------------------------------------------------------

  /** A deleted channel in a guild with a summary channel triggers a
      summary update unless it sat in a status category. */
  predicate SummaryAffected(summaryGuilds: set<GuildId>, guild: GuildId, category: Option<string>)
  {
    guild in summaryGuilds && !(category.Some? && IsStatusCategory(category.value))
  }

  /** The summary is refreshed exactly when the deleted channel was one the
      summary counts. */
  lemma SummaryAffectedIffCounted(summaryGuilds: set<GuildId>, guild: GuildId, id: ChannelId,
                                  category: Option<string>, members: seq<Member>)
    requires guild in summaryGuilds
    ensures SummaryAffected(summaryGuilds, guild, category) <==> Summary.Counted(Summary.Voice(id, category, members))
  {
  }

  /** Which tracked entry a deleted voice channel belongs to, and whether
      it was that entry's mirror (rather than its source). */
  datatype Deletion = Deletion(source: ChannelId, mirrorDeleted: bool)

  /** A tracked entry whose mirror is `id` in guild `guild`. */
  predicate MirrorOf(tracking: map<ChannelId, TrackInfo>, k: ChannelId, id: ChannelId, guild: GuildId)
  {
    k in tracking && tracking[k].mirror == id && tracking[k].guild == guild
  }

  /** The classification at the head of `on_guild_channel_delete`:
      non-voice channels are ignored; a tracked source is itself the
      entry; otherwise the first entry, in table order `keys`, whose mirror
      is the deleted channel. The id found is used only if it is non-zero,
      as the source tests it for truth. */
  method ClassifyDeleted(tracking: map<ChannelId, TrackInfo>, keys: seq<ChannelId>,
                         id: ChannelId, guild: GuildId, isVoice: bool) returns (r: Option<Deletion>)
    ensures !isVoice ==> r.None?
    ensures isVoice && id in tracking ==> r == (if id != 0 then Some(Deletion(id, false)) else None)
    ensures r.Some? ==> isVoice && (r.value.mirrorDeleted <==> id !in tracking)
    ensures r.Some? && r.value.mirrorDeleted ==>
      && id !in tracking && r.value.source != 0
      && exists i :: 0 <= i < |keys| && keys[i] == r.value.source && MirrorOf(tracking, keys[i], id, guild)
           && forall j :: 0 <= j < i ==> !MirrorOf(tracking, keys[j], id, guild)
    ensures isVoice && id !in tracking && r.None? ==>
      forall i ::
        (0 <= i < |keys| && MirrorOf(tracking, keys[i], id, guild)
         && forall j :: 0 <= j < i ==> !MirrorOf(tracking, keys[j], id, guild))
        ==> keys[i] == 0
  {
    if !isVoice {
      return None;
    }
    if id in tracking {
      return if id != 0 then Some(Deletion(id, false)) else None;
    }
    var i := 0;
    while i < |keys|
      invariant 0 <= i <= |keys|
      invariant forall j :: 0 <= j < i ==> !MirrorOf(tracking, keys[j], id, guild)
    {
      if MirrorOf(tracking, keys[i], id, guild) {
        return if keys[i] != 0 then Some(Deletion(keys[i], true)) else None;
      }
      i := i + 1;
    }
    return None;
  }
}
