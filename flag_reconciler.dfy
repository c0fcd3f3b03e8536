/** The per-channel reconciler of `nekochanbot2.py`: `vc_tracking`,
    `vc_zero_stats`, `vc_discord_api_cooldown_until` and the processing
    flags, with registration, unregistration, the name update, the
    deletion handler and the repair tasks of the periodic sweep.

    Each routine's effect on one channel is a pure function on that
    channel's `Entry`; the `Tracker` class applies it to the dictionaries
    under the processing flag. */
module FlagReconciler {
  import opened Common
  import opened Names
  import opened Platform
  import opened ZeroRule

  /** Seconds to wait after a 429 that carries no `retry_after`. */
  const DefaultRetryAfter: nat := 60

  /** Everything the bot keeps about one source channel. */
  datatype Entry = Entry(track: Option<TrackInfo>, zero: Option<ZeroStat>, cooldown: Option<Time>)

  /** What `unregister_vc_tracking_internal` leaves behind. */
  const Untracked: Entry := Entry(None, None, None)

  /** A rate-limit cooldown is in force. */
  predicate Cooling(e: Entry, now: Time)
  {
    e.cooldown.Some? && now < e.cooldown.value
  }

  /** `retry_after if retry_after is not None else 60.0`. */
  function RetryDelay(retryAfter: Option<nat>): nat
  {
    if retryAfter.Some? then retryAfter.value else DefaultRetryAfter
  }

  /** The new entry, and the name a rename was attempted with, if any. */
  datatype Pass = Pass(entry: Entry, attempted: Option<string>)

  /** `update_dynamic_status_channel_name` once the flag is taken. `live`
      says both channels are still voice channels, `members` is the number
      of non-bot members of the source, `fetched` and `edit` are the
      outcomes of reading and renaming the mirror. */
  function UpdatePass(e: Entry, now: Time, live: bool, members: nat,
                      fetched: FetchResult, edit: EditResult): Pass
  {
    if !live || Cooling(e, now) || e.track.None? then Pass(e, None)
    else
      var count := Cap(members);
      var z := Observe(e.zero, count, now);
      Settle(e.(zero := z), MirrorName(e.track.value.name, count), Due(z, now), now, fetched, edit)
  }

  /** The second half of an update: compare the fetched name with `target`
      and rename when they differ. `due` is the five-minute zero condition;
      it is recorded as announced once the mirror shows the target. */
  function Settle(e: Entry, target: string, due: bool, now: Time,
                  fetched: FetchResult, edit: EditResult): Pass
  {
    if !fetched.Fetched? then Pass(e, None)
    else if target == fetched.name then
      Pass(if due then e.(zero := MarkNotified(e.zero)) else e, None)
    else match edit
      case Edited =>
        Pass(e.(zero := if due then MarkNotified(e.zero) else e.zero, cooldown := None), Some(target))
      case RateLimited(ra) =>
        Pass(e.(cooldown := Some(now + RetryDelay(ra))), Some(target))
      case EditFailed =>
        Pass(e, Some(target))
  }

  // ---------------------------------------------------------------------
  // One update

  /** What a settling step may do, for any target: rename exactly when the
      mirror shows something else, leave tracking alone, set the cooldown
      only from the rename's outcome, and only ever mark the zero entry as
      notified, when it is due and the mirror shows or is being given the
      target. */
  ghost predicate Settled(e: Entry, target: string, due: bool, now: Time, fetched: FetchResult,
                          edit: EditResult, p: Pass)
  {
    && (p.attempted.Some? <==> fetched.Fetched? && fetched.name != target)
    && (p.attempted.Some? ==> p.attempted.value == target)
    && p.entry.track == e.track
    && (p.attempted.Some? && edit.Edited? ==> p.entry.cooldown.None?)
    && (p.attempted.Some? && edit.RateLimited? ==> p.entry.cooldown == Some(now + RetryDelay(edit.retryAfter)))
    && (p.attempted.None? || edit.EditFailed? ==> p.entry.cooldown == e.cooldown)
    && (p.entry.zero == e.zero
        || (&& due && p.entry.zero == MarkNotified(e.zero) && fetched.Fetched?
            && (fetched.name == target || p.attempted == Some(target))))
  }

  lemma SettleFacts(e: Entry, target: string, due: bool, now: Time, fetched: FetchResult, edit: EditResult)
    ensures Settled(e, target, due, now, fetched, edit, Settle(e, target, due, now, fetched, edit))
  {
  }

  /** An update past its guards is a `Settle` on the label for the capped
      count, after the zero observation; before them it changes nothing. */
  lemma UpdateSettles(e: Entry, now: Time, live: bool, members: nat, fetched: FetchResult, edit: EditResult)
    ensures !live || Cooling(e, now) || e.track.None? ==>
      UpdatePass(e, now, live, members, fetched, edit) == Pass(e, None)
    ensures live && !Cooling(e, now) && e.track.Some? ==>
      var z := Observe(e.zero, Cap(members), now);
      var target := MirrorName(e.track.value.name, Cap(members));
      Settled(e.(zero := z), target, Due(z, now), now, fetched, edit, UpdatePass(e, now, live, members, fetched, edit))
  {
    if live && !Cooling(e, now) && e.track.Some? {
      var z := Observe(e.zero, Cap(members), now);
      SettleFacts(e.(zero := z), MirrorName(e.track.value.name, Cap(members)), Due(z, now), now, fetched, edit);
    }
  }

  /** An update renames only to the label for the current (capped) count,
      only when the mirror shows something else, and exactly then. */
  lemma UpdateTarget(e: Entry, now: Time, live: bool, members: nat, fetched: FetchResult, edit: EditResult)
    ensures var p := UpdatePass(e, now, live, members, fetched, edit);
      p.attempted.Some? <==>
        && live && !Cooling(e, now) && e.track.Some? && fetched.Fetched?
        && fetched.name != MirrorName(e.track.value.name, Cap(members))
    ensures var p := UpdatePass(e, now, live, members, fetched, edit);
      p.attempted.Some? ==> p.attempted.value == MirrorName(e.track.value.name, Cap(members))
  {
    UpdateSettles(e, now, live, members, fetched, edit);
  }

  /** An update never changes what is tracked. */
  lemma UpdateKeepsTracking(e: Entry, now: Time, live: bool, members: nat, fetched: FetchResult, edit: EditResult)
    ensures UpdatePass(e, now, live, members, fetched, edit).entry.track == e.track
  {
    UpdateSettles(e, now, live, members, fetched, edit);
  }

  /** What the rename's outcome does to the cooldown: success clears it, a
      429 sets it `retry_after` (or 60) seconds ahead, anything else leaves
      it alone. */
  lemma UpdateCooldown(e: Entry, now: Time, live: bool, members: nat, fetched: FetchResult, edit: EditResult)
    ensures var p := UpdatePass(e, now, live, members, fetched, edit);
      && (p.attempted.Some? && edit.Edited? ==> p.entry.cooldown.None?)
      && (p.attempted.Some? && edit.RateLimited? ==> p.entry.cooldown == Some(now + RetryDelay(edit.retryAfter)))
      && (p.attempted.None? || edit.EditFailed? ==> p.entry.cooldown == e.cooldown)
  {
    UpdateSettles(e, now, live, members, fetched, edit);
  }

  /** The zero bookkeeping of a pass that gets past the guards: users
      close the entry, a first empty observation opens it at `now`. */
  lemma UpdateZeroEntry(e: Entry, now: Time, members: nat, fetched: FetchResult, edit: EditResult)
    requires !Cooling(e, now) && e.track.Some?
    ensures var p := UpdatePass(e, now, true, members, fetched, edit);
      && (members > 0 ==> p.entry.zero.None?)
      && (members == 0 && e.zero.None? ==> p.entry.zero == Some(ZeroStat(now, false)))
  {
    UpdateSettles(e, now, true, members, fetched, edit);
  }

  /** The "0 users" notice is recorded only after five empty minutes, and
      only once the mirror shows the zero label. */
  lemma NoticeOnlyWhenDue(e: Entry, now: Time, live: bool, members: nat, fetched: FetchResult, edit: EditResult)
    requires !(e.zero.Some? && e.zero.value.notified)
    ensures var p := UpdatePass(e, now, live, members, fetched, edit);
      p.entry.zero.Some? && p.entry.zero.value.notified ==>
        && members == 0 && e.track.Some?
        && now >= p.entry.zero.value.since + FiveMinutes
        && fetched.Fetched?
        && (fetched.name == MirrorName(e.track.value.name, 0) || p.attempted == Some(MirrorName(e.track.value.name, 0)))
  {
    UpdateSettles(e, now, live, members, fetched, edit);
    var p := UpdatePass(e, now, live, members, fetched, edit);
    if p.entry.zero.Some? && p.entry.zero.value.notified {
      var z := Observe(e.zero, Cap(members), now);
      assert z.None? || !z.value.notified;
      assert p.entry.zero != z;
      assert Due(z, now) && p.entry.zero == MarkNotified(z);
      assert Cap(members) == 0;
    }
  }

  /** The code shows "0 users" on the first update that sees the channel
      empty, without waiting for the five-minute condition: the forced
      label is the same string as the ordinary one. */
  lemma ZeroShownAtOnce(e: Entry, now: Time, current: string, edit: EditResult)
    requires !Cooling(e, now) && e.track.Some? && e.zero.None?
    requires current != MirrorName(e.track.value.name, 0)
    ensures UpdatePass(e, now, true, 0, Fetched(current), edit).attempted == Some(MirrorName(e.track.value.name, 0))
  {
    UpdateSettles(e, now, true, 0, Fetched(current), edit);
  }

  // ---------------------------------------------------------------------
  // Series of updates

  /** The inputs of one update. */
  datatype Tick = Tick(now: Time, live: bool, members: nat, fetched: FetchResult, edit: EditResult)

  /** The final entry and every rename attempted over a series of updates. */
  datatype History = History(entry: Entry, attempts: seq<string>)

  function Replay(e: Entry, ticks: seq<Tick>): History
    decreases |ticks|
  {
    if |ticks| == 0 then History(e, [])
    else
      var t := ticks[0];
      var p := UpdatePass(e, t.now, t.live, t.members, t.fetched, t.edit);
      var rest := Replay(p.entry, ticks[1..]);
      History(rest.entry, (if p.attempted.Some? then [p.attempted.value] else []) + rest.attempts)
  }

  /** While a cooldown is in force nothing at all happens, however many
      updates run. */
  lemma {:induction false} CooldownSilences(e: Entry, ticks: seq<Tick>)
    requires e.cooldown.Some?
    requires forall i :: 0 <= i < |ticks| ==> ticks[i].now < e.cooldown.value
    ensures Replay(e, ticks) == History(e, [])
    decreases |ticks|
  {
    if |ticks| > 0 {
      var t := ticks[0];
      UpdateSettles(e, t.now, t.live, t.members, t.fetched, t.edit);
      CooldownSilences(e, ticks[1..]);
    }
  }

  /** After a 429 no rename is attempted before `retry_after` seconds (60
      without a hint) have passed. */
  lemma RateLimitBackoff(e: Entry, t: Tick, later: seq<Tick>)
    requires t.edit.RateLimited?
    requires UpdatePass(e, t.now, t.live, t.members, t.fetched, t.edit).attempted.Some?
    requires forall i :: 0 <= i < |later| ==> later[i].now < t.now + RetryDelay(t.edit.retryAfter)
    ensures Replay(e, [t] + later).attempts == [MirrorName(e.track.value.name, Cap(t.members))]
  {
    var p := UpdatePass(e, t.now, t.live, t.members, t.fetched, t.edit);
    assert ([t] + later)[1..] == later;
    UpdateTarget(e, t.now, t.live, t.members, t.fetched, t.edit);
    UpdateCooldown(e, t.now, t.live, t.members, t.fetched, t.edit);
    CooldownSilences(p.entry, later);
  }

  /** Updates never change what is tracked. */
  lemma {:induction false} ReplayKeepsTracking(e: Entry, ticks: seq<Tick>)
    ensures Replay(e, ticks).entry.track == e.track
    decreases |ticks|
  {
    if |ticks| > 0 {
      var t := ticks[0];
      var p := UpdatePass(e, t.now, t.live, t.members, t.fetched, t.edit);
      UpdateKeepsTracking(e, t.now, t.live, t.members, t.fetched, t.edit);
      ReplayKeepsTracking(p.entry, ticks[1..]);
    }
  }

  /** A mirror that already shows the right label is never renamed. */
  lemma {:induction false} CorrectNameIsLeftAlone(e: Entry, ticks: seq<Tick>)
    requires e.track.Some?
    requires forall i :: 0 <= i < |ticks| ==>
      ticks[i].fetched == Fetched(MirrorName(e.track.value.name, Cap(ticks[i].members)))
    ensures Replay(e, ticks).attempts == []
    decreases |ticks|
  {
    if |ticks| > 0 {
      var t := ticks[0];
      var p := UpdatePass(e, t.now, t.live, t.members, t.fetched, t.edit);
      UpdateTarget(e, t.now, t.live, t.members, t.fetched, t.edit);
      UpdateKeepsTracking(e, t.now, t.live, t.members, t.fetched, t.edit);
      assert p.attempted.None? && p.entry.track == e.track;
      var rest := ticks[1..];
      forall i | 0 <= i < |rest|
        ensures rest[i].fetched == Fetched(MirrorName(p.entry.track.value.name, Cap(rest[i].members)))
      {
        assert rest[i] == ticks[i + 1];
      }
      CorrectNameIsLeftAlone(p.entry, rest);
      assert Replay(e, ticks).attempts == Replay(p.entry, rest).attempts;
    }
  }

  // ---------------------------------------------------------------------
  // Registration, unregistration, deletion

  /** The new entry, whether registration succeeded, and whether a mirror
      was to be created. */
  datatype Registration = Registration(entry: Entry, ok: bool, creates: bool)

  /** `register_new_vc_for_tracking` once the flag is taken. `current` is
      what a lookup of the recorded mirror finds. */
  function RegisterPass(e: Entry, current: MirrorView, guild: GuildId, name: string,
                        create: CreateResult): Registration
  {
    if e.track.Some? && ValidMirror(current, false) then Registration(e, false, false)
    else
      var cleared := if e.track.Some? then Untracked else e;
      match create
      case Created(m) => Registration(Entry(Some(TrackInfo(guild, m, name)), None, None), true, true)
      case CreateFailed => Registration(cleared.(track := None), false, true)
  }

  /** Registration succeeds exactly when there is no usable mirror yet and
      one is created; it then records the new mirror and the source name
      and starts with no zero entry and no cooldown. Otherwise the channel
      is either left as it was (usable mirror) or not tracked. */
  lemma RegisterOutcome(e: Entry, current: MirrorView, guild: GuildId, name: string, create: CreateResult)
    ensures var r := RegisterPass(e, current, guild, name, create);
      && (r.ok <==> !(e.track.Some? && ValidMirror(current, false)) && create.Created?)
      && (r.ok ==> r.entry == Entry(Some(TrackInfo(guild, create.mirror, name)), None, None))
      && (!r.ok ==> r.entry == e || r.entry.track.None?)
      && (r.creates <==> !(e.track.Some? && ValidMirror(current, false)))
  {
  }

  /** Registering again once the new mirror is in place changes nothing. */
  lemma RegisterIdempotent(e: Entry, current: MirrorView, guild: GuildId, name: string,
                           create: CreateResult, category: string, again: CreateResult)
    requires IsStatusCategory(category)
    requires RegisterPass(e, current, guild, name, create).ok
    ensures var r := RegisterPass(e, current, guild, name, create);
      RegisterPass(r.entry, Present(true, Some(category)), guild, name, again) == Registration(r.entry, false, false)
  {
  }

  /** `on_guild_channel_delete`'s handler once the flag is taken: when the
      mirror was deleted and the source is still a voice channel a new
      mirror is created under the source's current name; in every other
      case the channel ends up untracked. */
  function DeletionPass(e: Entry, mirrorDeleted: bool, sourceIsVoice: bool, guild: GuildId,
                        name: string, create: CreateResult): Entry
  {
    if mirrorDeleted && sourceIsVoice then
      match create
      case Created(m) => Entry(Some(TrackInfo(guild, m, name)), None, None)
      case CreateFailed => Untracked
    else Untracked
  }

  lemma DeletionOutcome(e: Entry, mirrorDeleted: bool, sourceIsVoice: bool, guild: GuildId,
                        name: string, create: CreateResult)
    ensures var r := DeletionPass(e, mirrorDeleted, sourceIsVoice, guild, name, create);
      && (r.track.Some? <==> mirrorDeleted && sourceIsVoice && create.Created?)
      && (r.track.Some? ==> r.track.value == TrackInfo(guild, create.mirror, name))
      && r.zero.None? && r.cooldown.None?
  {
  }

  // ---------------------------------------------------------------------
  // The dictionaries and the processing flags

  class Tracker {
    var tracking: map<ChannelId, TrackInfo>
    var zeroStats: map<ChannelId, ZeroStat>
    var cooldownUntil: map<ChannelId, Time>
    var processing: set<ChannelId>

    constructor ()
      ensures tracking == map[] && zeroStats == map[] && cooldownUntil == map[] && processing == {}
    {
      tracking := map[];
      zeroStats := map[];
      cooldownUntil := map[];
      processing := {};
    }

    function EntryOf(id: ChannelId): Entry
      reads this
    {
      Entry(Get(tracking, id), Get(zeroStats, id), Get(cooldownUntil, id))
    }

    /** The three dictionaries are the old ones with `id`'s entries
        replaced by `e` and every other channel's entries kept. */
    ghost predicate StoredAt(id: ChannelId, e: Entry, t0: map<ChannelId, TrackInfo>,
                             z0: map<ChannelId, ZeroStat>, c0: map<ChannelId, Time>)
      reads this
    {
      tracking == Put(t0, id, e.track) && zeroStats == Put(z0, id, e.zero) && cooldownUntil == Put(c0, id, e.cooldown)
    }

    method Store(id: ChannelId, e: Entry)
      modifies this
      ensures StoredAt(id, e, old(tracking), old(zeroStats), old(cooldownUntil))
      ensures processing == old(processing)
    {
      tracking := Put(tracking, id, e.track);
      zeroStats := Put(zeroStats, id, e.zero);
      cooldownUntil := Put(cooldownUntil, id, e.cooldown);
    }

    /** `update_dynamic_status_channel_name`: skipped while the channel's
        flag is set, otherwise the channel's entry becomes what
        `UpdatePass` gives; the flag ends as it began. */
    method Update(id: ChannelId, now: Time, live: bool, members: nat,
                  fetched: FetchResult, edit: EditResult) returns (attempted: Option<string>)
      modifies this
      ensures processing == old(processing)
      ensures old(id in processing) ==>
        StoredAt(id, old(EntryOf(id)), old(tracking), old(zeroStats), old(cooldownUntil)) && attempted.None?
      ensures old(id !in processing) ==>
        var p := UpdatePass(old(EntryOf(id)), now, live, members, fetched, edit);
        StoredAt(id, p.entry, old(tracking), old(zeroStats), old(cooldownUntil)) && attempted == p.attempted
    {
      var e := EntryOf(id);
      if id in processing {
        PutGetEntry(id);
        return None;
      }
      processing := processing + {id};
      var p := UpdatePass(e, now, live, members, fetched, edit);
      Store(id, p.entry);
      attempted := p.attempted;
      processing := processing - {id};
    }

    /** Storing a channel's own entry back changes nothing. */
    lemma PutGetEntry(id: ChannelId)
      ensures StoredAt(id, EntryOf(id), tracking, zeroStats, cooldownUntil)
    {
      PutGet(tracking, id);
      PutGet(zeroStats, id);
      PutGet(cooldownUntil, id);
    }

    /** `unregister_vc_tracking_internal`: forgets the channel (tracking,
        zero entry, cooldown) and names the recorded mirror to delete. It
        does not look at the flag. */
    method UnregisterInternal(id: ChannelId) returns (deleting: Option<ChannelId>)
      modifies this
      ensures StoredAt(id, Untracked, old(tracking), old(zeroStats), old(cooldownUntil))
      ensures processing == old(processing)
      ensures deleting.Some? <==> id in old(tracking)
      ensures deleting.Some? ==> deleting.value == old(tracking)[id].mirror
    {
      deleting := if id in tracking then Some(tracking[id].mirror) else None;
      Store(id, Untracked);
    }

    /** `unregister_vc_tracking`: the same under the flag. */
    method Unregister(id: ChannelId) returns (deleting: Option<ChannelId>)
      modifies this
      ensures processing == old(processing)
      ensures old(id in processing) ==>
        StoredAt(id, old(EntryOf(id)), old(tracking), old(zeroStats), old(cooldownUntil)) && deleting.None?
      ensures old(id !in processing) ==>
        && StoredAt(id, Untracked, old(tracking), old(zeroStats), old(cooldownUntil))
        && (deleting.Some? <==> id in old(tracking))
        && (deleting.Some? ==> deleting.value == old(tracking)[id].mirror)
    {
      if id in processing {
        PutGetEntry(id);
        return None;
      }
      processing := processing + {id};
      deleting := UnregisterInternal(id);
      processing := processing - {id};
    }

    /** `register_new_vc_for_tracking`: returns `False` at once while the
        flag is set; otherwise the entry becomes what `RegisterPass` gives,
        and `request` is the name a new mirror is created with. */
    method Register(id: ChannelId, guild: GuildId, name: string, members: nat,
                    current: MirrorView, create: CreateResult) returns (ok: bool, request: Option<string>)
      modifies this
      ensures processing == old(processing)
      ensures old(id in processing) ==>
        StoredAt(id, old(EntryOf(id)), old(tracking), old(zeroStats), old(cooldownUntil)) && !ok && request.None?
      ensures old(id !in processing) ==>
        var r := RegisterPass(old(EntryOf(id)), current, guild, name, create);
        && StoredAt(id, r.entry, old(tracking), old(zeroStats), old(cooldownUntil))
        && ok == r.ok
        && (request.Some? <==> r.creates)
        && (request.Some? ==> request.value == InitialMirrorName(name, Cap(members)))
    {
      var e := EntryOf(id);
      if id in processing {
        PutGetEntry(id);
        return false, None;
      }
      processing := processing + {id};
      var r := RegisterPass(e, current, guild, name, create);
      Store(id, r.entry);
      ok := r.ok;
      request := if r.creates then Some(InitialMirrorName(name, Cap(members))) else None;
      processing := processing - {id};
    }

    /** The handler `on_guild_channel_delete` schedules, under the flag. */
    method HandleDeletion(id: ChannelId, mirrorDeleted: bool, sourceIsVoice: bool, guild: GuildId,
                          name: string, create: CreateResult)
      modifies this
      ensures processing == old(processing)
      ensures old(id in processing) ==>
        StoredAt(id, old(EntryOf(id)), old(tracking), old(zeroStats), old(cooldownUntil))
      ensures old(id !in processing) ==>
        StoredAt(id, DeletionPass(old(EntryOf(id)), mirrorDeleted, sourceIsVoice, guild, name, create),
                 old(tracking), old(zeroStats), old(cooldownUntil))
    {
      var e := EntryOf(id);
      if id in processing {
        PutGetEntry(id);
        return;
      }
      processing := processing + {id};
      Store(id, DeletionPass(e, mirrorDeleted, sourceIsVoice, guild, name, create));
      processing := processing - {id};
    }

    /** `fix_cat_task` / `recreate_status_task` of the periodic sweep as
        written: they take the flag, unregister, and then call
        `register_new_vc_for_tracking`, which sees the flag they hold and
        returns `False`. Whatever the platform would have answered, the
        channel ends up untracked and its mirror deleted. */
    method RepairAsWritten(id: ChannelId, guild: GuildId, name: string, members: nat,
                           current: MirrorView, create: CreateResult) returns (ok: bool)
      modifies this
      ensures processing == old(processing)
      ensures old(id !in processing) ==>
        !ok && StoredAt(id, Untracked, old(tracking), old(zeroStats), old(cooldownUntil))
    {
      if id in processing {
        return false;
      }
      processing := processing + {id};
      ghost var t0, z0, c0 := tracking, zeroStats, cooldownUntil;
      var _ := UnregisterInternal(id);
      ghost var t1, z1, c1 := tracking, zeroStats, cooldownUntil;
      var request;
      ok, request := Register(id, guild, name, members, current, create);
      assert tracking == t1 && zeroStats == z1 && cooldownUntil == c1 by {
        PutGet(t1, id);
        PutGet(z1, id);
        PutGet(c1, id);
      }
      processing := processing - {id};
    }

    /** The repair the sweep intends: under the flag, forget the channel
        and register it afresh, so that it stays tracked exactly when a new
        mirror is created. */
    method Repair(id: ChannelId, guild: GuildId, name: string, members: nat,
                  create: CreateResult) returns (ok: bool, request: Option<string>)
      modifies this
      ensures processing == old(processing)
      ensures old(id !in processing) ==>
        var r := RegisterPass(Untracked, Missing, guild, name, create);
        && StoredAt(id, r.entry, old(tracking), old(zeroStats), old(cooldownUntil))
        && ok == create.Created?
        && (id in tracking <==> create.Created?)
        && request == Some(InitialMirrorName(name, Cap(members)))
    {
      if id in processing {
        return false, None;
      }
      request := Some(InitialMirrorName(name, Cap(members)));
      var r := RegisterPass(Untracked, Missing, guild, name, create);
      ok := r.ok;
      processing := processing + {id};
      RegisterOutcome(Untracked, Missing, guild, name, create);
      assert r.entry.track.Some? <==> create.Created?;
      ghost var t0, z0, c0 := tracking, zeroStats, cooldownUntil;
      var _ := UnregisterInternal(id);
      Store(id, r.entry);
      PutPut(t0, id, None, r.entry.track);
      PutPut(z0, id, None, r.entry.zero);
      PutPut(c0, id, None, r.entry.cooldown);
      assert Get(tracking, id) == r.entry.track;
      processing := processing - {id};
    }
  }
}
