/** The per-channel reconciler of `app/nekochanbot2.py`. Beside the 429
    cooldown and the zero bookkeeping of `ZeroRule`, it keeps a rename
    window per channel (`vc_rate_limit_windows`): at most two successful
    renames per window of five minutes. The mirror's category is accepted
    only when its name contains "STATUS" in capitals, and a mirror that is
    found gone while updating makes the channel untracked. */
module WindowReconciler {
  import opened Common
  import opened Names
  import opened Platform
  import opened ZeroRule

  /** `MAX_UPDATES_IN_WINDOW`. */
  const MaxUpdatesInWindow: nat := 2

  /** Seconds to wait after a 429 that carries no `retry_after`: the
      window length. */
  const DefaultRetryAfter: nat := 300

  /** One entry of `vc_rate_limit_windows`. */
  datatype Window = Window(start: Time, count: nat)

  /** Everything the bot keeps about one source channel. */
  datatype Entry = Entry(track: Option<TrackInfo>, zero: Option<ZeroStat>, cooldown: Option<Time>,
                         window: Option<Window>)

  /** What `unregister_vc_tracking_internal` leaves behind. */
  const Untracked: Entry := Entry(None, None, None, None)

  predicate Cooling(e: Entry, now: Time)
  {
    e.cooldown.Some? && now < e.cooldown.value
  }

  /** The window has run its five minutes. */
  predicate Expired(w: Window, now: Time)
  {
    now >= w.start + FiveMinutes
  }

  /** The bot's own rule: a rename is allowed with no window, with an
      expired one, or with one that has room left. */
  predicate WindowAllows(w: Option<Window>, now: Time)
  {
    w.None? || Expired(w.value, now) || w.value.count < MaxUpdatesInWindow
  }

  /** The window after a successful rename: a new one opens at `now` when
      there was none or it had expired; otherwise the rename is counted in
      the current one. */
  function Consume(w: Option<Window>, now: Time): (r: Window)
    ensures w.None? || Expired(w.value, now) ==> r == Window(now, 1)
    ensures w.Some? && !Expired(w.value, now) ==> r.start == w.value.start && r.count == w.value.count + 1
  {
    if w.None? || Expired(w.value, now) then Window(now, 1)
    else Window(w.value.start, w.value.count + 1)
  }

  function RetryDelay(retryAfter: Option<nat>): nat
  {
    if retryAfter.Some? then retryAfter.value else DefaultRetryAfter
  }

  datatype Pass = Pass(entry: Entry, attempted: Option<string>)

  /** `update_dynamic_status_channel_name` once the lock is held. */
  function UpdatePass(e: Entry, now: Time, live: bool, members: nat,
                      fetched: FetchResult, edit: EditResult): Pass
  {
    if !live || Cooling(e, now) || e.track.None? then Pass(e, None)
    else
      var count := Cap(members);
      var z := Observe(e.zero, count, now);
      Settle(e.(zero := z), MirrorName(e.track.value.name, count), Due(z, now), now, fetched, edit)
  }

  /** The part after the zero bookkeeping: a mirror found gone untracks
      the channel; a mirror that already shows `target` is left alone
      before the window is consulted; otherwise the window decides whether
      to rename, and the outcome updates window, zero entry and cooldown. */
  function Settle(e: Entry, target: string, due: bool, now: Time,
                  fetched: FetchResult, edit: EditResult): Pass
  {
    if fetched.FetchNotFound? then Pass(Untracked, None)
    else if !fetched.Fetched? then Pass(e, None)
    else if target == fetched.name then
      Pass(if due then e.(zero := MarkNotified(e.zero)) else e, None)
    else if !WindowAllows(e.window, now) then Pass(e, None)
    else match edit
      case Edited =>
        Pass(e.(window := Some(Consume(e.window, now)),
                zero := if due then MarkNotified(e.zero) else e.zero,
                cooldown := None), Some(target))
      case RateLimited(ra) =>
        Pass(e.(cooldown := Some(now + RetryDelay(ra))), Some(target))
      case EditFailed =>
        Pass(e, Some(target))
  }

  // ---------------------------------------------------------------------
  // One update

  /** A rename is attempted exactly when the guards pass, the mirror shows
      another name and the window allows it; the name is always the label
      for the current count under the stored, uncut source name. */
  lemma UpdateTarget(e: Entry, now: Time, live: bool, members: nat, fetched: FetchResult, edit: EditResult)
    ensures var p := UpdatePass(e, now, live, members, fetched, edit);
      p.attempted.Some? <==>
        && live && !Cooling(e, now) && e.track.Some? && fetched.Fetched?
        && fetched.name != MirrorName(e.track.value.name, Cap(members))
        && WindowAllows(e.window, now)
    ensures var p := UpdatePass(e, now, live, members, fetched, edit);
      p.attempted.Some? ==> p.attempted.value == MirrorName(e.track.value.name, Cap(members))
  {
  }

  /** The window only moves on a successful rename, and then as `Consume`
      says; a mirror found gone drops it with the rest of the entry. */
  lemma UpdateWindow(e: Entry, now: Time, live: bool, members: nat, fetched: FetchResult, edit: EditResult)
    ensures var p := UpdatePass(e, now, live, members, fetched, edit);
      && (p.attempted.Some? && edit.Edited? ==> p.entry.window == Some(Consume(e.window, now)))
      && (!(p.attempted.Some? && edit.Edited?) ==> p.entry.window == e.window || p.entry == Untracked)
  {
  }

  /** A mirror that already shows the label uses up nothing: no rename,
      same window, same cooldown. */
  lemma EqualNameConsumesNothing(e: Entry, now: Time, members: nat, edit: EditResult)
    requires e.track.Some?
    ensures var p := UpdatePass(e, now, true, members, Fetched(MirrorName(e.track.value.name, Cap(members))), edit);
      p.attempted.None? && p.entry.window == e.window && p.entry.cooldown == e.cooldown && p.entry.track == e.track
  {
  }

  /** Success clears the cooldown; a 429 sets it `retry_after` (or 300)
      seconds ahead; other failures, and renames the window refuses, leave
      it alone. While it is in force the update does nothing at all. */
  lemma UpdateCooldown(e: Entry, now: Time, live: bool, members: nat, fetched: FetchResult, edit: EditResult)
    ensures var p := UpdatePass(e, now, live, members, fetched, edit);
      && (p.attempted.Some? && edit.Edited? ==> p.entry.cooldown.None?)
      && (p.attempted.Some? && edit.RateLimited? ==> p.entry.cooldown == Some(now + RetryDelay(edit.retryAfter)))
      && (p.attempted.Some? && edit.EditFailed? ==> p.entry.cooldown == e.cooldown)
      && (Cooling(e, now) ==> p == Pass(e, None))
  {
  }

  /** A mirror found gone while updating a tracked channel unregisters it:
      tracking, window, zero entry and cooldown all go. */
  lemma NotFoundUnregisters(e: Entry, now: Time, members: nat, edit: EditResult)
    requires e.track.Some? && !Cooling(e, now)
    ensures UpdatePass(e, now, true, members, FetchNotFound, edit) == Pass(Untracked, None)
  {
  }

  /** The zero bookkeeping is the same as in the flag revision, and the
      forced label is again the ordinary one: an empty channel is shown as
      "0 users" at the first update that may rename it. */
  lemma ZeroShownAtOnce(e: Entry, now: Time, current: string, edit: EditResult)
    requires !Cooling(e, now) && e.track.Some? && e.zero.None? && WindowAllows(e.window, now)
    requires current != MirrorName(e.track.value.name, 0)
    ensures var p := UpdatePass(e, now, true, 0, Fetched(current), edit);
      p.attempted == Some(MirrorName(e.track.value.name, 0)) && p.entry.zero == Some(ZeroStat(now, false))
  {
  }

  // ---------------------------------------------------------------------
  // Series of updates: the window keeps its promise

  datatype Tick = Tick(now: Time, live: bool, members: nat, fetched: FetchResult, edit: EditResult)

  /** The final entry, the renames attempted, and how many succeeded. */
  datatype History = History(entry: Entry, attempts: seq<string>, renamed: nat)

  function Replay(e: Entry, ticks: seq<Tick>): History
    decreases |ticks|
  {
    if |ticks| == 0 then History(e, [], 0)
    else
      var t := ticks[0];
      var p := UpdatePass(e, t.now, t.live, t.members, t.fetched, t.edit);
      var rest := Replay(p.entry, ticks[1..]);
      var done := if p.attempted.Some? && t.edit.Edited? then 1 else 0;
      History(rest.entry, (if p.attempted.Some? then [p.attempted.value] else []) + rest.attempts,
              rest.renamed + done)
  }

  /** Renames already counted in the entry's window. */
  function WindowCount(e: Entry): nat
  {
    if e.window.Some? then e.window.value.count else 0
  }

  /** An untracked channel is never renamed. */
  lemma {:induction false} UntrackedSilent(e: Entry, ticks: seq<Tick>)
    requires e.track.None?
    ensures Replay(e, ticks) == History(e, [], 0)
    decreases |ticks|
  {
    if |ticks| > 0 {
      UntrackedSilent(e, ticks[1..]);
    }
  }

  /** At most two renames in five minutes: over any series of updates
      whose clock readings lie in `[t0, t0 + 5 min)`, starting with no
      window or one opened at or after `t0`, the successful renames plus
      those the window already counts never exceed two. */
  lemma {:induction false} WindowBudget(e: Entry, ticks: seq<Tick>, t0: Time)
    requires forall i :: 0 <= i < |ticks| ==> t0 <= ticks[i].now < t0 + FiveMinutes
    requires e.window.Some? ==> e.window.value.start >= t0
    requires WindowCount(e) <= MaxUpdatesInWindow
    ensures Replay(e, ticks).renamed + WindowCount(e) <= MaxUpdatesInWindow
    decreases |ticks|
  {
    if |ticks| > 0 {
      var t := ticks[0];
      var p := UpdatePass(e, t.now, t.live, t.members, t.fetched, t.edit);
      UpdateWindow(e, t.now, t.live, t.members, t.fetched, t.edit);
      UpdateTarget(e, t.now, t.live, t.members, t.fetched, t.edit);
      if p.entry == Untracked {
        UntrackedSilent(p.entry, ticks[1..]);
      } else {
        if p.attempted.Some? && t.edit.Edited? {
          assert e.window.Some? ==> !Expired(e.window.value, t.now);
          assert WindowCount(p.entry) == WindowCount(e) + 1;
        }
        WindowBudget(p.entry, ticks[1..], t0);
      }
    }
  }

  // ---------------------------------------------------------------------
  // Registration and unregistration

  datatype Registration = Registration(entry: Entry, ok: bool, creates: bool)

  /** `register_new_vc_for_tracking` once the lock is held. `current` is
      what a lookup of the recorded mirror finds (`Missing` when the
      recorded guild id is unset or the guild is gone). */
  function RegisterPass(e: Entry, current: MirrorView, guild: GuildId, name: string,
                        create: CreateResult): Registration
  {
    if e.track.Some? && ValidMirror(current, true) then Registration(e, false, false)
    else
      var cleared := if e.track.Some? then Untracked else e;
      match create
      case Created(m) => Registration(Entry(Some(TrackInfo(guild, m, name)), None, None, None), true, true)
      case CreateFailed => Registration(cleared.(track := None), false, true)
  }

  /** Registration succeeds exactly when there is no usable mirror and one
      is created, and then starts the channel afresh: no zero entry, no
      cooldown, no window. */
  lemma RegisterOutcome(e: Entry, current: MirrorView, guild: GuildId, name: string, create: CreateResult)
    ensures var r := RegisterPass(e, current, guild, name, create);
      && (r.ok <==> !(e.track.Some? && ValidMirror(current, true)) && create.Created?)
      && (r.ok ==> r.entry == Entry(Some(TrackInfo(guild, create.mirror, name)), None, None, None))
      && (!r.ok ==> r.entry == e || r.entry.track.None?)
      && (r.creates <==> !(e.track.Some? && ValidMirror(current, true)))
  {
  }

  /** A freshly registered channel may be renamed at once: nothing stands
      in the way of its first update. */
  lemma RegisteredMayRename(e: Entry, current: MirrorView, guild: GuildId, name: string,
                            create: CreateResult, now: Time)
    requires RegisterPass(e, current, guild, name, create).ok
    ensures var r := RegisterPass(e, current, guild, name, create).entry;
      !Cooling(r, now) && WindowAllows(r.window, now)
  {
  }

  /** The first update after a successful registration may rename at
      once: it renames exactly when the new mirror shows another label. */
  lemma RegisteredUpdate(e: Entry, current: MirrorView, guild: GuildId, name: string, create: CreateResult,
                         now: Time, members: nat, fetched: FetchResult, edit: EditResult)
    ensures var r := RegisterPass(e, current, guild, name, create);
      r.ok ==>
        (UpdatePass(r.entry, now, true, members, fetched, edit).attempted.Some? <==>
           fetched.Fetched? && fetched.name != MirrorName(name, Cap(members)))
  {
    var r := RegisterPass(e, current, guild, name, create);
    if r.ok {
      UpdateTarget(r.entry, now, true, members, fetched, edit);
    }
  }

  /** How a routine that takes the channel's lock ends: it returns, or it
      waits for ever on a lock that is never released. */
  datatype Outcome = Returned(ok: bool) | Hung

  /** The dictionaries of this revision, and the per-channel
      `asyncio.Lock`s that are held for ever. Every routine here is
      otherwise one uninterrupted step that takes and releases its
      channel's lock; `asyncio.Lock` is not re-entrant, so a routine that
      awaits a routine taking the lock it already holds never resumes, and
      neither does anything that later asks for that lock. */
  class Tracker {
    var tracking: map<ChannelId, TrackInfo>
    var zeroStats: map<ChannelId, ZeroStat>
    var cooldownUntil: map<ChannelId, Time>
    var windows: map<ChannelId, Window>
    var stuck: set<ChannelId>

    constructor ()
      ensures tracking == map[] && zeroStats == map[] && cooldownUntil == map[] && windows == map[]
      ensures stuck == {}
    {
      tracking := map[];
      zeroStats := map[];
      cooldownUntil := map[];
      windows := map[];
      stuck := {};
    }

    function EntryOf(id: ChannelId): Entry
      reads this
    {
      Entry(Get(tracking, id), Get(zeroStats, id), Get(cooldownUntil, id), Get(windows, id))
    }

    /** The four dictionaries are the old ones with `id`'s entries
        replaced by `e` and every other channel's entries kept. */
    ghost predicate StoredAt(id: ChannelId, e: Entry, t0: map<ChannelId, TrackInfo>,
                             z0: map<ChannelId, ZeroStat>, c0: map<ChannelId, Time>, w0: map<ChannelId, Window>)
      reads this
    {
      && tracking == Put(t0, id, e.track) && zeroStats == Put(z0, id, e.zero)
      && cooldownUntil == Put(c0, id, e.cooldown) && windows == Put(w0, id, e.window)
    }

    /** Nothing in the four dictionaries changed. */
    ghost predicate Unchanged(t0: map<ChannelId, TrackInfo>, z0: map<ChannelId, ZeroStat>,
                              c0: map<ChannelId, Time>, w0: map<ChannelId, Window>)
      reads this
    {
      tracking == t0 && zeroStats == z0 && cooldownUntil == c0 && windows == w0
    }

    method Store(id: ChannelId, e: Entry)
      modifies this
      ensures StoredAt(id, e, old(tracking), old(zeroStats), old(cooldownUntil), old(windows))
      ensures stuck == old(stuck)
    {
      tracking := Put(tracking, id, e.track);
      zeroStats := Put(zeroStats, id, e.zero);
      cooldownUntil := Put(cooldownUntil, id, e.cooldown);
      windows := Put(windows, id, e.window);
    }

    /** `update_dynamic_status_channel_name`: it waits for ever on a stuck
        lock; otherwise the entry becomes what `UpdatePass` gives. */
    method Update(id: ChannelId, now: Time, live: bool, members: nat,
                  fetched: FetchResult, edit: EditResult) returns (attempted: Option<string>)
      modifies this
      ensures stuck == old(stuck)
      ensures id in old(stuck) ==>
        Unchanged(old(tracking), old(zeroStats), old(cooldownUntil), old(windows)) && attempted.None?
      ensures id !in old(stuck) ==>
        var p := UpdatePass(old(EntryOf(id)), now, live, members, fetched, edit);
        StoredAt(id, p.entry, old(tracking), old(zeroStats), old(cooldownUntil), old(windows))
        && attempted == p.attempted
    {
      if id in stuck {
        return None;
      }
      var e := EntryOf(id);
      var p := UpdatePass(e, now, live, members, fetched, edit);
      Store(id, p.entry);
      attempted := p.attempted;
    }

    /** `unregister_vc_tracking` (`unregister_vc_tracking_internal` under
        the lock): the channel's four entries go, and the recorded mirror
        is named for deletion. */
    method Unregister(id: ChannelId) returns (deleting: Option<ChannelId>)
      modifies this
      ensures stuck == old(stuck)
      ensures id in old(stuck) ==>
        Unchanged(old(tracking), old(zeroStats), old(cooldownUntil), old(windows)) && deleting.None?
      ensures id !in old(stuck) ==>
        && StoredAt(id, Untracked, old(tracking), old(zeroStats), old(cooldownUntil), old(windows))
        && (deleting.Some? <==> id in old(tracking))
        && (deleting.Some? ==> deleting.value == old(tracking)[id].mirror)
    {
      if id in stuck {
        return None;
      }
      deleting := if id in tracking then Some(tracking[id].mirror) else None;
      Store(id, Untracked);
    }

    /** `register_new_vc_for_tracking` as written: after a successful
        creation it awaits the first update while still holding the lock
        that update asks for, so it never returns `True`, and the channel's
        lock stays held: the new mirror is recorded but never renamed. */
    method RegisterAsWritten(id: ChannelId, guild: GuildId, name: string,
                             current: MirrorView, create: CreateResult) returns (out: Outcome)
      modifies this
      ensures id in old(stuck) ==>
        Unchanged(old(tracking), old(zeroStats), old(cooldownUntil), old(windows)) && stuck == old(stuck) && out == Hung
      ensures id !in old(stuck) ==>
        var r := RegisterPass(old(EntryOf(id)), current, guild, name, create);
        && StoredAt(id, r.entry, old(tracking), old(zeroStats), old(cooldownUntil), old(windows))
        && (out == Hung <==> r.ok)
        && (out.Returned? ==> !out.ok && stuck == old(stuck))
        && (r.ok ==> stuck == old(stuck) + {id})
    {
      if id in stuck {
        return Hung;
      }
      var e := EntryOf(id);
      var r := RegisterPass(e, current, guild, name, create);
      Store(id, r.entry);
      if r.ok {
        stuck := stuck + {id};
        out := Hung;
      } else {
        out := Returned(false);
      }
    }

    /** The registration intended: the lock is released before the first
        update, which may rename at once, and the routine reports success.
        The new mirror is requested under the source's full name. */
    method Register(id: ChannelId, guild: GuildId, name: string, members: nat, now: Time,
                    current: MirrorView, create: CreateResult, fetched: FetchResult, edit: EditResult)
      returns (ok: bool, request: Option<string>, attempted: Option<string>)
      modifies this
      ensures stuck == old(stuck)
      ensures id in old(stuck) ==> Unchanged(old(tracking), old(zeroStats), old(cooldownUntil), old(windows)) && !ok
      ensures id !in old(stuck) ==>
        var r := RegisterPass(old(EntryOf(id)), current, guild, name, create);
        var e := if r.ok then UpdatePass(r.entry, now, true, members, fetched, edit).entry else r.entry;
        && StoredAt(id, e, old(tracking), old(zeroStats), old(cooldownUntil), old(windows))
        && ok == r.ok
        && (request.Some? <==> r.creates)
        && (request.Some? ==> request.value == MirrorName(name, Cap(members)))
        && (ok ==> (attempted.Some? <==> fetched.Fetched? && fetched.name != MirrorName(name, Cap(members))))
    {
      if id in stuck {
        return false, None, None;
      }
      var e0 := EntryOf(id);
      var r := RegisterPass(e0, current, guild, name, create);
      RegisteredUpdate(e0, current, guild, name, create, now, members, fetched, edit);
      var e := r.entry;
      attempted := None;
      if r.ok {
        var p := UpdatePass(r.entry, now, true, members, fetched, edit);
        e := p.entry;
        attempted := p.attempted;
      }
      Store(id, e);
      ok := r.ok;
      request := if r.creates then Some(MirrorName(name, Cap(members))) else None;
    }
  }
}
