/** The per-channel reconciler of `nekochanbot.py`, the first revision.
    Its only throttle is `channel_last_successful_update_at`: an update is
    skipped until five minutes after the recorded time. A 429 pushes that
    time into the future; registration and start-up push it five minutes
    into the past so that the next update may run at once. There is no
    zero-user rule. */
module CooldownReconciler {
  import opened Common
  import opened Names
  import opened Platform

  /** `CHANNEL_NAME_UPDATE_COOLDOWN`, in seconds. */
  const Cooldown: nat := FiveMinutes

  /** What the bot keeps about one source channel: the tracking record and
      the last recorded update time. */
  datatype Entry = Entry(track: Option<TrackInfo>, last: Option<Time>)

  const Untracked: Entry := Entry(None, None)

  /** All tracked entries, and only those, as one value per channel. */
  function EntryIn(tracking: map<ChannelId, TrackInfo>, last: map<ChannelId, Time>, id: ChannelId): (e: Entry)
    ensures e.track.Some? <==> id in tracking
    ensures e.last.Some? <==> id in last
  {
    Entry(Get(tracking, id), Get(last, id))
  }

  /** The update is held back. */
  predicate Waiting(e: Entry, now: Time)
  {
    e.last.Some? && now < e.last.value + Cooldown
  }

  /** `retry_after if retry_after else 300`: a missing or zero hint counts
      as the full cooldown. */
  function RetryDelay(retryAfter: Option<nat>): (d: nat)
    ensures retryAfter.Some? && retryAfter.value > 0 ==> d == retryAfter.value
    ensures retryAfter.None? || retryAfter.value == 0 ==> d == Cooldown
  {
    if retryAfter.Some? && retryAfter.value != 0 then retryAfter.value else Cooldown
  }

  datatype Pass = Pass(entry: Entry, attempted: Option<string>)

  /** `update_dynamic_status_channel_name`. The time check comes first;
      `live` says both channels still exist. */
  function UpdatePass(e: Entry, now: Time, live: bool, members: nat,
                      fetched: FetchResult, edit: EditResult): Pass
  {
    if Waiting(e, now) || !live || e.track.None? then Pass(e, None)
    else Settle(e, MirrorName(e.track.value.name, Cap(members)), now, fetched, edit)
  }

  /** Compare with the fetched name and rename when it differs. Both a
      successful rename and an already correct name record `now`. */
  function Settle(e: Entry, target: string, now: Time, fetched: FetchResult, edit: EditResult): Pass
  {
    if !fetched.Fetched? then Pass(e, None)
    else if target == fetched.name then Pass(e.(last := Some(now)), None)
    else match edit
      case Edited => Pass(e.(last := Some(now)), Some(target))
      case RateLimited(ra) => Pass(e.(last := Some(now + RetryDelay(ra))), Some(target))
      case EditFailed => Pass(e, Some(target))
  }

  // ---------------------------------------------------------------------
  // One update

  /** The rename is attempted exactly when the five minutes are over, the
      channels exist, the channel is tracked and the mirror shows another
      name; the name is the plain label for the capped count. */
  lemma UpdateTarget(e: Entry, now: Time, live: bool, members: nat, fetched: FetchResult, edit: EditResult)
    ensures var p := UpdatePass(e, now, live, members, fetched, edit);
      p.attempted.Some? <==>
        && !Waiting(e, now) && live && e.track.Some? && fetched.Fetched?
        && fetched.name != MirrorName(e.track.value.name, Cap(members))
    ensures var p := UpdatePass(e, now, live, members, fetched, edit);
      p.attempted.Some? ==> p.attempted.value == MirrorName(e.track.value.name, Cap(members))
  {
  }

  /** How the recorded time moves: `now` after a rename or a correct name,
      `now + retry_after` after a 429, not at all otherwise. The tracking
      record never changes. */
  lemma UpdateStamp(e: Entry, now: Time, live: bool, members: nat, fetched: FetchResult, edit: EditResult)
    ensures var p := UpdatePass(e, now, live, members, fetched, edit);
      && p.entry.track == e.track
      && (p.attempted.Some? && edit.Edited? ==> p.entry.last == Some(now))
      && (p.attempted.Some? && edit.RateLimited? ==> p.entry.last == Some(now + RetryDelay(edit.retryAfter)))
      && (p.attempted.Some? && edit.EditFailed? ==> p.entry.last == e.last)
      && (p.attempted.None? && p.entry != e ==> p.entry.last == Some(now) && fetched.Fetched?)
  {
  }

  /** After a 429 the next rename can come no earlier than `retry_after`
      plus five minutes. */
  lemma RateLimitDelay(e: Entry, now: Time, live: bool, members: nat, fetched: FetchResult, ra: Option<nat>,
                       later: Time, live2: bool, members2: nat, fetched2: FetchResult, edit2: EditResult)
    requires UpdatePass(e, now, live, members, fetched, RateLimited(ra)).attempted.Some?
    requires later < now + RetryDelay(ra) + Cooldown
    ensures var p := UpdatePass(e, now, live, members, fetched, RateLimited(ra));
      UpdatePass(p.entry, later, live2, members2, fetched2, edit2) == Pass(p.entry, None)
  {
  }

  // ---------------------------------------------------------------------
  // Series of updates

  datatype Tick = Tick(now: Time, live: bool, members: nat, fetched: FetchResult, edit: EditResult)

  /** The final entry, the renames attempted, and how many succeeded. */
  datatype History = History(entry: Entry, attempts: seq<string>, renamed: nat)

  function Replay(e: Entry, ticks: seq<Tick>): History
    decreases |ticks|
  {
    if |ticks| == 0 then History(e, [], 0)
    else
      var t := ticks[0];
      var p := UpdatePass(e, t.now, t.live, t.members, t.fetched, t.edit);
      var rest := Replay(p.entry, ticks[1..]);
      var done := if p.attempted.Some? && t.edit.Edited? then 1 else 0;
      History(rest.entry, (if p.attempted.Some? then [p.attempted.value] else []) + rest.attempts,
              rest.renamed + done)
  }

  /** Until five minutes after the recorded time nothing happens. */
  lemma {:induction false} WaitingSilences(e: Entry, ticks: seq<Tick>)
    requires e.last.Some?
    requires forall i :: 0 <= i < |ticks| ==> ticks[i].now < e.last.value + Cooldown
    ensures Replay(e, ticks) == History(e, [], 0)
    decreases |ticks|
  {
    if |ticks| > 0 {
      WaitingSilences(e, ticks[1..]);
    }
  }

  /** At most one rename in five minutes: over any series of updates whose
      clock readings lie in `[t0, t0 + 5 min)`, at most one rename
      succeeds. */
  lemma {:induction false} OneRenamePerCooldown(e: Entry, ticks: seq<Tick>, t0: Time)
    requires forall i :: 0 <= i < |ticks| ==> t0 <= ticks[i].now < t0 + Cooldown
    ensures Replay(e, ticks).renamed <= 1
    decreases |ticks|
  {
    if |ticks| > 0 {
      var t := ticks[0];
      var p := UpdatePass(e, t.now, t.live, t.members, t.fetched, t.edit);
      if p.attempted.Some? && t.edit.Edited? {
        assert p.entry.last == Some(t.now);
        WaitingSilences(p.entry, ticks[1..]);
      } else {
        OneRenamePerCooldown(p.entry, ticks[1..], t0);
      }
    }
  }

  // ---------------------------------------------------------------------
  // Registration, unregistration and start-up

  datatype Registration = Registration(entry: Entry, ok: bool, creates: bool)

  /** `register_new_vc_for_tracking` under the lock: an entry with a usable
      mirror (category name containing "STATUS") is left alone; otherwise
      the channel is forgotten and, when a mirror is created, tracked again
      with its time set five minutes back. */
  function RegisterPass(e: Entry, current: MirrorView, guild: GuildId, name: string, now: Time,
                        create: CreateResult): Registration
  {
    if e.track.Some? && ValidMirror(current, true) then Registration(e, false, false)
    else
      var cleared := if e.track.Some? then Untracked else e;
      match create
      case Created(m) => Registration(Entry(Some(TrackInfo(guild, m, name)), Some(now - Cooldown)), true, true)
      case CreateFailed => Registration(cleared, false, true)
  }

  /** A new registration is immediately eligible for an update; a failed
      creation adds nothing to the tables. */
  lemma RegisterOutcome(e: Entry, current: MirrorView, guild: GuildId, name: string, now: Time,
                        create: CreateResult, later: Time)
    requires later >= now
    ensures var r := RegisterPass(e, current, guild, name, now, create);
      && (r.ok <==> !(e.track.Some? && ValidMirror(current, true)) && create.Created?)
      && (r.ok ==> r.entry.track == Some(TrackInfo(guild, create.mirror, name)) && !Waiting(r.entry, later))
      && (!r.ok && r.creates ==> r.entry == e || r.entry == Untracked)
      && (!r.ok && r.creates && e.track.None? ==> r.entry == e)
  {
  }

  /** The first update after a successful registration is not held back:
      it renames exactly when the new mirror shows another label. */
  lemma RegisteredUpdate(e: Entry, current: MirrorView, guild: GuildId, name: string, now: Time,
                         create: CreateResult, members: nat, fetched: FetchResult, edit: EditResult)
    ensures var r := RegisterPass(e, current, guild, name, now, create);
      r.ok ==>
        (UpdatePass(r.entry, now, true, members, fetched, edit).attempted.Some? <==>
           fetched.Fetched? && fetched.name != MirrorName(name, Cap(members)))
  {
    var r := RegisterPass(e, current, guild, name, now, create);
    if r.ok {
      UpdateTarget(r.entry, now, true, members, fetched, edit);
    }
  }

  /** What the start-up pass finds for one tracked id. */
  datatype ReadyProbe = ReadyProbe(now: Time, guildFound: bool, sourceIsVoice: bool,
                                   current: MirrorView, create: CreateResult)

  /** The entry after `on_ready` has handled it, and whether an update of
      the name follows. */
  datatype ReadyResult = ReadyResult(entry: Entry, refresh: bool)

  /** One iteration of the start-up loop of `on_ready`: an entry whose
      guild or source is gone is dropped; a usable mirror is kept; a
      missing or misplaced one is replaced, overwriting only the mirror id
      of the record; if that fails the entry is dropped. Kept entries are
      made eligible for an immediate update. */
  function ReadyPass(e: Entry, p: ReadyProbe): ReadyResult
  {
    if e.track.None? then ReadyResult(e, false)
    else if !p.guildFound || !p.sourceIsVoice then ReadyResult(Untracked, false)
    else if ValidMirror(p.current, true) then ReadyResult(e.(last := Some(p.now - Cooldown)), true)
    else match p.create
      case Created(m) => ReadyResult(Entry(Some(e.track.value.(mirror := m)), Some(p.now - Cooldown)), true)
      case CreateFailed => ReadyResult(Untracked, false)
  }

  /** A tracked entry survives start-up exactly when its guild and source
      are there and it has, or gets, a usable mirror; a surviving entry
      keeps its guild and stored name, and its mirror is the old one or the
      new one. */
  lemma ReadyOutcome(e: Entry, p: ReadyProbe)
    requires e.track.Some?
    ensures var r := ReadyPass(e, p);
      && (r.entry.track.Some? <==> p.guildFound && p.sourceIsVoice && (ValidMirror(p.current, true) || p.create.Created?))
      && (r.entry.track.None? ==> r.entry == Untracked)
      && (r.entry.track.Some? ==>
            && r.entry.track.value.guild == e.track.value.guild
            && r.entry.track.value.name == e.track.value.name
            && r.entry.track.value.mirror == (if ValidMirror(p.current, true) then e.track.value.mirror else p.create.mirror)
            && r.refresh && !Waiting(r.entry, p.now))
  {
  }

  /** How a routine that takes the channel's lock ends: it returns, or it
      waits for ever on a lock that is never released. */
  datatype Outcome = Returned(ok: bool) | Hung

  /** The tables of this revision, and the per-channel `asyncio.Lock`s
      that are held for ever. Every routine here is otherwise one
      uninterrupted step that takes and releases its channel's lock;
      `asyncio.Lock` is not re-entrant, so a routine that awaits a routine
      taking the lock it already holds never resumes, and neither does
      anything that later asks for that lock. */
  class Tracker {
    var tracking: map<ChannelId, TrackInfo>
    var lastUpdate: map<ChannelId, Time>
    var stuck: set<ChannelId>

    constructor ()
      ensures tracking == map[] && lastUpdate == map[] && stuck == {}
    {
      tracking := map[];
      lastUpdate := map[];
      stuck := {};
    }

    function EntryOf(id: ChannelId): Entry
      reads this
    {
      EntryIn(tracking, lastUpdate, id)
    }

    /** Replace `id`'s entries by `e`, keeping every other channel's. */
    method Store(id: ChannelId, e: Entry)
      modifies this
      ensures tracking == Put(old(tracking), id, e.track) && lastUpdate == Put(old(lastUpdate), id, e.last)
      ensures EntryOf(id) == e
      ensures forall k :: k != id ==> EntryOf(k) == old(EntryOf(k))
      ensures stuck == old(stuck)
    {
      tracking := Put(tracking, id, e.track);
      lastUpdate := Put(lastUpdate, id, e.last);
    }

    /** `update_dynamic_status_channel_name`: it waits for ever on a stuck
        lock; otherwise the entry becomes what `UpdatePass` gives. */
    method Update(id: ChannelId, now: Time, live: bool, members: nat,
                  fetched: FetchResult, edit: EditResult) returns (attempted: Option<string>)
      modifies this
      ensures stuck == old(stuck)
      ensures id in old(stuck) ==>
        tracking == old(tracking) && lastUpdate == old(lastUpdate) && attempted.None?
      ensures id !in old(stuck) ==>
        var p := UpdatePass(old(EntryOf(id)), now, live, members, fetched, edit);
        && tracking == Put(old(tracking), id, p.entry.track) && lastUpdate == Put(old(lastUpdate), id, p.entry.last)
        && attempted == p.attempted
    {
      if id in stuck {
        return None;
      }
      var p := UpdatePass(EntryOf(id), now, live, members, fetched, edit);
      Store(id, p.entry);
      attempted := p.attempted;
    }

    /** `unregister_vc_tracking`: the record and the time go; the recorded
        mirror is named for deletion. */
    method Unregister(id: ChannelId) returns (deleting: Option<ChannelId>)
      modifies this
      ensures stuck == old(stuck)
      ensures id in old(stuck) ==> tracking == old(tracking) && lastUpdate == old(lastUpdate) && deleting.None?
      ensures id !in old(stuck) ==>
        && tracking == old(tracking) - {id} && lastUpdate == old(lastUpdate) - {id}
        && (deleting.Some? <==> id in old(tracking))
        && (deleting.Some? ==> deleting.value == old(tracking)[id].mirror)
    {
      if id in stuck {
        return None;
      }
      deleting := if id in tracking then Some(tracking[id].mirror) else None;
      tracking := tracking - {id};
      lastUpdate := lastUpdate - {id};
    }

    /** `register_new_vc_for_tracking` as written: after a successful
        creation it awaits the first update while still holding the lock
        that update asks for, so it never returns `True` and the channel's
        lock stays held: the new mirror is recorded but never renamed
        again. */
    method RegisterAsWritten(id: ChannelId, guild: GuildId, name: string, members: nat, now: Time,
                             current: MirrorView, create: CreateResult) returns (out: Outcome)
      modifies this
      ensures id in old(stuck) ==>
        tracking == old(tracking) && lastUpdate == old(lastUpdate) && stuck == old(stuck) && out == Hung
      ensures id !in old(stuck) ==>
        var r := RegisterPass(old(EntryOf(id)), current, guild, name, now, create);
        && tracking == Put(old(tracking), id, r.entry.track) && lastUpdate == Put(old(lastUpdate), id, r.entry.last)
        && (out == Hung <==> r.ok)
        && (out.Returned? ==> !out.ok && stuck == old(stuck))
        && (r.ok ==> stuck == old(stuck) + {id})
    {
      if id in stuck {
        return Hung;
      }
      var r := RegisterPass(EntryOf(id), current, guild, name, now, create);
      Store(id, r.entry);
      if r.ok {
        stuck := stuck + {id};
        out := Hung;
      } else {
        out := Returned(false);
      }
    }

    /** The registration intended: the lock is released before the first
        update, which then runs at once (the entry's time was set five
        minutes back) and the routine reports success. The new mirror is
        requested under the source's full name. */
    method Register(id: ChannelId, guild: GuildId, name: string, members: nat, now: Time,
                    current: MirrorView, create: CreateResult, fetched: FetchResult, edit: EditResult)
      returns (ok: bool, request: Option<string>, attempted: Option<string>)
      modifies this
      ensures stuck == old(stuck)
      ensures id in old(stuck) ==> tracking == old(tracking) && lastUpdate == old(lastUpdate) && !ok
      ensures id !in old(stuck) ==>
        var r := RegisterPass(old(EntryOf(id)), current, guild, name, now, create);
        var e := if r.ok then UpdatePass(r.entry, now, true, members, fetched, edit).entry else r.entry;
        && tracking == Put(old(tracking), id, e.track) && lastUpdate == Put(old(lastUpdate), id, e.last)
        && ok == r.ok
        && (request.Some? <==> r.creates)
        && (request.Some? ==> request.value == MirrorName(name, Cap(members)))
        && (ok ==> (attempted.Some? <==> fetched.Fetched? && fetched.name != MirrorName(name, Cap(members))))
    {
      if id in stuck {
        return false, None, None;
      }
      var e0 := EntryOf(id);
      var r := RegisterPass(e0, current, guild, name, now, create);
      RegisteredUpdate(e0, current, guild, name, now, create, members, fetched, edit);
      var e := r.entry;
      attempted := None;
      if r.ok {
        var p := UpdatePass(r.entry, now, true, members, fetched, edit);
        e := p.entry;
        attempted := p.attempted;
      }
      Store(id, e);
      ok := r.ok;
      request := if r.creates then Some(MirrorName(name, Cap(members))) else None;
    }

    /** The start-up loop of `on_ready` as written: for the first id whose
        entry is kept it awaits the name update while holding that id's
        lock, so the loop stops there for good; the ids after it are never
        checked and the periodic task, started after the loop, never
        starts. */
    method ReconcileAsWritten(ids: seq<ChannelId>, probes: seq<ReadyProbe>) returns (completed: bool)
      requires |probes| == |ids|
      requires forall i, j :: 0 <= i < j < |ids| ==> ids[i] != ids[j]
      modifies this
      ensures forall k :: k !in ids ==> EntryOf(k) == old(EntryOf(k))
      ensures completed ==>
        && stuck == old(stuck)
        && forall i :: 0 <= i < |ids| ==>
             && ids[i] !in old(stuck) && !ReadyPass(old(EntryOf(ids[i])), probes[i]).refresh
             && EntryOf(ids[i]) == ReadyPass(old(EntryOf(ids[i])), probes[i]).entry
      ensures !completed ==> exists h ::
        && 0 <= h < |ids|
        && stuck == old(stuck) + {ids[h]}
        && (forall j :: 0 <= j < h ==>
              && ids[j] !in old(stuck) && !ReadyPass(old(EntryOf(ids[j])), probes[j]).refresh
              && EntryOf(ids[j]) == ReadyPass(old(EntryOf(ids[j])), probes[j]).entry)
        && (ids[h] in old(stuck) ==> EntryOf(ids[h]) == old(EntryOf(ids[h])))
        && (ids[h] !in old(stuck) ==>
              && ReadyPass(old(EntryOf(ids[h])), probes[h]).refresh
              && EntryOf(ids[h]) == ReadyPass(old(EntryOf(ids[h])), probes[h]).entry)
        && (forall j :: h < j < |ids| ==> EntryOf(ids[j]) == old(EntryOf(ids[j])))
    {
      ghost var t0, l0 := tracking, lastUpdate;
      var i := 0;
      while i < |ids|
        invariant 0 <= i <= |ids|
        invariant stuck == old(stuck)
        invariant forall j :: 0 <= j < i ==>
          && ids[j] !in stuck && !ReadyPass(EntryIn(t0, l0, ids[j]), probes[j]).refresh
          && EntryOf(ids[j]) == ReadyPass(EntryIn(t0, l0, ids[j]), probes[j]).entry
        invariant forall k :: k !in ids[..i] ==> EntryOf(k) == EntryIn(t0, l0, k)
      {
        var id := ids[i];
        assert id !in ids[..i];
        if id in stuck {
          assert forall j :: i < j < |ids| ==> ids[j] !in ids[..i];
          assert forall k :: k !in ids ==> k !in ids[..i];
          return false;
        }
        var r := ReadyPass(EntryOf(id), probes[i]);
        Store(id, r.entry);
        if r.refresh {
          stuck := stuck + {id};
          assert forall j :: i < j < |ids| ==> ids[j] !in ids[..i] && ids[j] != id;
          assert forall k :: k !in ids ==> k !in ids[..i] && k != id;
          return false;
        }
        i := i + 1;
      }
      assert ids[..i] == ids;
      return true;
    }

    /** The start-up loop intended: each id's entry becomes what
        `ReadyPass` gives, every other entry is kept, and the ids whose
        names are to be refreshed are returned in order, to be updated once
        their locks are released. */
    method Reconcile(ids: seq<ChannelId>, probes: seq<ReadyProbe>) returns (refresh: seq<ChannelId>)
      requires |probes| == |ids|
      requires forall i, j :: 0 <= i < j < |ids| ==> ids[i] != ids[j]
      requires forall i :: 0 <= i < |ids| ==> ids[i] !in stuck
      modifies this
      ensures stuck == old(stuck)
      ensures forall i :: 0 <= i < |ids| ==> EntryOf(ids[i]) == ReadyPass(old(EntryOf(ids[i])), probes[i]).entry
      ensures forall k :: k !in ids ==> EntryOf(k) == old(EntryOf(k))
      ensures forall k :: k in refresh <==>
        exists i :: 0 <= i < |ids| && ids[i] == k && ReadyPass(old(EntryOf(ids[i])), probes[i]).refresh
    {
      ghost var t0, l0 := tracking, lastUpdate;
      refresh := [];
      var i := 0;
      while i < |ids|
        invariant 0 <= i <= |ids|
        invariant stuck == old(stuck)
        invariant forall j :: 0 <= j < i ==> EntryOf(ids[j]) == ReadyPass(EntryIn(t0, l0, ids[j]), probes[j]).entry
        invariant forall k :: k !in ids[..i] ==> EntryOf(k) == EntryIn(t0, l0, k)
        invariant forall k :: k in refresh <==>
          exists j :: 0 <= j < i && ids[j] == k && ReadyPass(EntryIn(t0, l0, ids[j]), probes[j]).refresh
      {
        var id := ids[i];
        assert id !in ids[..i];
        var r := ReadyPass(EntryOf(id), probes[i]);
        Store(id, r.entry);
        if r.refresh {
          refresh := refresh + [id];
        }
        i := i + 1;
      }
      assert ids[..i] == ids;
    }
  }
}
