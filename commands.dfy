/** The argument handling of the two text commands of `nekochanbot2.py`:
    `!!nah <num>` (bulk delete) and `!!nah_vc <id or name>` (start or stop
    tracking a voice channel). Message deletion and the tracking routines
    themselves are platform calls or live in `FlagReconciler`. */
module Commands {
  import opened Common
  import opened Text
  import opened Names

  // ---------------------------------------------------------------------
  // !!nah
  // ---------------------------------------------------------------------

  /** The largest count `nah` accepts in `nekochanbot2.py`. */
  const MaxPurge: int := 100

  datatype NahOutcome = TooSmall | TooMany | Purge(limit: nat)

  /** The checks of `nah_command`. `capped` selects the upper bound of
      `nekochanbot2.py`; the other revisions only reject non-positive
      counts. The purge limit counts the command message itself. */
  function NahCheck(num: int, capped: bool): (r: NahOutcome)
    ensures r.Purge? <==> 0 < num && (!capped || num <= MaxPurge)
    ensures r.Purge? ==> r.limit == num + 1 && r.limit >= 2 && (capped ==> r.limit <= MaxPurge + 1)
    ensures r == TooSmall <==> num <= 0
    ensures r == TooMany ==> capped
  {
    if num <= 0 then TooSmall
    else if capped && num > MaxPurge then TooMany
    else Purge(num + 1)
  }

  // ---------------------------------------------------------------------
  // !!nah_vc
  // ---------------------------------------------------------------------

  /** A channel of the guild as the command sees it. */
  datatype Chan = Chan(id: int, name: string, isVoice: bool, category: Option<string>)

  /** Equal names, ignoring case. */
  predicate ExactName(c: Chan, arg: string)
  {
    Lower(c.name) == Lower(arg)
  }

  /** The argument occurs in the name, ignoring case. */
  predicate PartialName(c: Chan, arg: string)
  {
    Contains(Lower(c.name), Lower(arg))
  }

  lemma ExactIsPartial(c: Chan, arg: string)
    requires ExactName(c, arg)
    ensures PartialName(c, arg)
  {
    assert Lower(arg) <= Lower(c.name);
  }

  /** The name lookup of `nah_vc_command` over the guild's voice channels
      in their order: the first channel whose name equals the argument
      ignoring case, and only when there is none, the first whose name
      contains it. */
  method FindByName(arg: string, voices: seq<Chan>) returns (r: Option<nat>)
    ensures r.Some? ==> r.value < |voices|
    ensures (exists i :: 0 <= i < |voices| && ExactName(voices[i], arg)) ==>
      && r.Some? && ExactName(voices[r.value], arg)
      && forall j :: 0 <= j < r.value ==> !ExactName(voices[j], arg)
    ensures (forall i :: 0 <= i < |voices| ==> !ExactName(voices[i], arg)) ==>
      && (r.Some? ==> PartialName(voices[r.value], arg)
                      && forall j :: 0 <= j < r.value ==> !PartialName(voices[j], arg))
      && (r.None? ==> forall j :: 0 <= j < |voices| ==> !PartialName(voices[j], arg))
    ensures r.Some? ==> PartialName(voices[r.value], arg)
    ensures r.None? <==> forall j :: 0 <= j < |voices| ==> !PartialName(voices[j], arg)
  {
    var i := 0;
    while i < |voices|
      invariant 0 <= i <= |voices|
      invariant forall j :: 0 <= j < i ==> !ExactName(voices[j], arg)
    {
      if Lower(voices[i].name) == Lower(arg) {
        ExactIsPartial(voices[i], arg);
        return Some(i);
      }
      i := i + 1;
    }
    i := 0;
    while i < |voices|
      invariant 0 <= i <= |voices|
      invariant forall j :: 0 <= j < i ==> !PartialName(voices[j], arg)
    {
      if Contains(Lower(voices[i].name), Lower(arg)) {
        return Some(i);
      }
      i := i + 1;
    }
    return None;
  }

  /** The channel `nah_vc_command` settles on: an argument that reads as
      a number is only ever looked up as an id (any kind of channel);
      otherwise the name lookup above picks a voice channel. */
  method FindTarget(arg: string, byId: map<int, Chan>, voices: seq<Chan>) returns (r: Option<Chan>)
    ensures ParseInt(arg).Some? ==> r == Get(byId, ParseInt(arg).value)
    ensures ParseInt(arg).None? && r.Some? ==>
      exists i :: 0 <= i < |voices| && r.value == voices[i] && PartialName(voices[i], arg)
    ensures ParseInt(arg).None? && r.None? ==> forall j :: 0 <= j < |voices| ==> !PartialName(voices[j], arg)
  {
    var id := ParseInt(arg);
    if id.Some? {
      return Get(byId, id.value);
    }
    var k := FindByName(arg, voices);
    if k.Some? {
      return Some(voices[k.value]);
    }
    return None;
  }

  /** What the command does with the channel it found. */
  datatype NahVcOutcome = NotFound | IsStatusChannel | Untrack(id: int) | Track(id: int)

  function NahVc(target: Option<Chan>, tracked: set<int>): (d: NahVcOutcome)
    ensures d.Track? || d.Untrack? ==>
      && target.Some? && target.value.isVoice && d.id == target.value.id
      && !(target.value.category.Some? && IsStatusCategory(target.value.category.value))
    ensures d.Untrack? <==> d != NotFound && d != IsStatusChannel && d.id in tracked
    ensures d == NotFound <==> target.None? || !target.value.isVoice
  {
    match target
    case None => NotFound
    case Some(c) =>
      if !c.isVoice then NotFound
      else if c.category.Some? && IsStatusCategory(c.category.value) then IsStatusChannel
      else if c.id in tracked then Untrack(c.id)
      else Track(c.id)
  }

  /** The command toggles: issued twice on the same channel, with the
      first call's effect on the tracked set in between, it ends where it
      started. */
  lemma NahVcToggles(c: Chan, tracked: set<int>)
    requires NahVc(Some(c), tracked).Track? || NahVc(Some(c), tracked).Untrack?
    ensures var d := NahVc(Some(c), tracked);
      var after := if d.Track? then tracked + {c.id} else tracked - {c.id};
      var d2 := NahVc(Some(c), after);
      (d.Track? ==> d2 == Untrack(c.id)) && (d.Untrack? ==> d2 == Track(c.id))
  {
  }

  /** A mirror channel is never taken for a source channel. */
  lemma NahVcNeverTracksMirror(c: Chan, tracked: set<int>)
    requires c.category.Some? && IsStatusCategory(c.category.value)
    ensures !NahVc(Some(c), tracked).Track?
  {
  }
}
