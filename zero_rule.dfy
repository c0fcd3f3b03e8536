/** The "zero users" bookkeeping shared by `nekochanbot2.py` and
    `app/nekochanbot2.py`: when a source channel is first seen empty the
    time is recorded; once it has been empty for five minutes the next
    update counts as an explicit "0 users" notice, which is recorded so it
    happens once per empty spell. */
module ZeroRule {
  import opened Common
  import opened Platform

  /** One entry of `vc_zero_stats`. */
  datatype ZeroStat = ZeroStat(since: Time, notified: bool)

  /** The bookkeeping step of an update that saw `count` users at `now`:
      a first empty observation opens an entry, further empty observations
      keep it, any user closes it. */
  function Observe(z: Option<ZeroStat>, count: nat, now: Time): (r: Option<ZeroStat>)
    ensures r.None? <==> count > 0
    ensures r.Some? && z.Some? ==> r == z
    ensures r.Some? && z.None? ==> r.value.since == now && !r.value.notified
  {
    if count > 0 then None else if z.None? then Some(ZeroStat(now, false)) else z
  }

  /** The five-minute condition: empty for at least five minutes and not
      yet announced. */
  predicate Due(z: Option<ZeroStat>, now: Time)
  {
    z.Some? && now >= z.value.since + FiveMinutes && !z.value.notified
  }

  /** Record that the "0 users" notice has been given. */
  function MarkNotified(z: Option<ZeroStat>): (r: Option<ZeroStat>)
    ensures r.Some? <==> z.Some?
    ensures r.Some? ==> r.value.since == z.value.since && r.value.notified
  {
    match z
    case None => None
    case Some(s) => Some(s.(notified := true))
  }

  /** One observation: the capped user count and the time it was taken. */
  datatype Observation = Observation(count: nat, at: Time)

  /** The entry after a series of observations (and no notices). */
  function Replay(z: Option<ZeroStat>, obs: seq<Observation>): Option<ZeroStat>
    decreases |obs|
  {
    if |obs| == 0 then z else Replay(Observe(z, obs[0].count, obs[0].at), obs[1..])
  }

  /** Throughout an empty spell the entry keeps the time the spell began. */
  lemma {:induction false} ReplayEmptySpell(z: Option<ZeroStat>, obs: seq<Observation>)
    requires |obs| > 0
    requires forall i :: 0 <= i < |obs| ==> obs[i].count == 0
    ensures Replay(z, obs) == if z.Some? then z else Some(ZeroStat(obs[0].at, false))
    decreases |obs|
  {
    if |obs| > 1 {
      ReplayEmptySpell(Observe(z, obs[0].count, obs[0].at), obs[1..]);
    }
  }

  /** A non-empty observation forgets everything before it. */
  lemma {:induction false} ReplayForgets(z: Option<ZeroStat>, obs: seq<Observation>, k: nat)
    requires k < |obs| && obs[k].count > 0
    ensures Replay(z, obs) == Replay(None, obs[k + 1..])
    decreases k
  {
    if k > 0 {
      ReplayForgets(Observe(z, obs[0].count, obs[0].at), obs[1..], k - 1);
      assert obs[1..][k..] == obs[k + 1..];
    }
  }

  /** So the recorded start is the first observation after the last
      non-empty one, and the notice falls due five minutes after it. */
  lemma SpellStart(z: Option<ZeroStat>, obs: seq<Observation>, k: nat, now: Time)
    requires k + 1 < |obs| && obs[k].count > 0
    requires forall i :: k < i < |obs| ==> obs[i].count == 0
    ensures Replay(z, obs) == Some(ZeroStat(obs[k + 1].at, false))
    ensures Due(Replay(z, obs), now) <==> now >= obs[k + 1].at + FiveMinutes
  {
    ReplayForgets(z, obs, k);
    var rest := obs[k + 1..];
    forall i | 0 <= i < |rest| ensures rest[i].count == 0 {
      assert rest[i] == obs[k + 1 + i];
    }
    ReplayEmptySpell(None, rest);
  }

  /** Once announced, an entry is never due again while the spell lasts. */
  lemma NoticeOnce(z: Option<ZeroStat>, now: Time, later: Time)
    requires z.Some?
    ensures !Due(Observe(MarkNotified(z), 0, later), now)
  {
  }
}
