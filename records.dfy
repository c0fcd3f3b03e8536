/** The stored form of the tracking table in `nekochanbot2.py`: one
    document per source channel, keyed by the channel id written in
    decimal, holding the guild id, the mirror id and the source name.
    `load_tracked_channels_from_db` rebuilds `vc_tracking` from them,
    skipping any document it cannot use. The database itself is not
    modelled: documents are an input, in the order the stream yields
    them. */
module Records {
  import opened Common
  import opened Text
  import opened Platform

  /** A stored field as the client returns it: a number, or text. */
  datatype Raw = Num(n: int) | Str(s: string)

  /** The result of `int(v) if v is not None else None`. */
  datatype Conv = Absent | Invalid | Value(n: int)

  function Convert(v: Option<Raw>): (c: Conv)
    ensures c.Absent? <==> v.None?
    ensures v.Some? && v.value.Num? ==> c == Value(v.value.n)
  {
    match v
    case None => Absent
    case Some(Num(n)) => Value(n)
    case Some(Str(s)) => if ParseInt(s).Some? then Value(ParseInt(s).value) else Invalid
  }

  /** One stored document. */
  datatype Doc = Doc(key: string, guild: Option<Raw>, mirror: Option<Raw>, name: Option<string>)

  /** A field that passes the truth test: present, numeric and non-zero. */
  predicate Usable(c: Conv)
  {
    c.Value? && c.n != 0
  }

  /** The entry a document yields, if any. A key or field that does not
      read as a number, a missing or zero guild or mirror id and a missing
      name all skip the document; an empty name does not. */
  function Accept(d: Doc): (r: Option<(ChannelId, TrackInfo)>)
    ensures r.Some? ==>
      && ParseInt(d.key) == Some(r.value.0)
      && Convert(d.guild) == Value(r.value.1.guild) && r.value.1.guild != 0
      && Convert(d.mirror) == Value(r.value.1.mirror) && r.value.1.mirror != 0
      && d.name == Some(r.value.1.name)
    ensures d.name.None? || !Usable(Convert(d.guild)) || !Usable(Convert(d.mirror)) ==> r.None?
    ensures ParseInt(d.key).Some? && Usable(Convert(d.guild)) && Usable(Convert(d.mirror)) && d.name.Some? ==>
      r == Some((ParseInt(d.key).value, TrackInfo(Convert(d.guild).n, Convert(d.mirror).n, d.name.value)))
  {
    var id := ParseInt(d.key);
    var g := Convert(d.guild);
    var m := Convert(d.mirror);
    if id.None? || g.Invalid? || m.Invalid? then None
    else if !Usable(g) || !Usable(m) || d.name.None? then None
    else Some((id.value as ChannelId, TrackInfo(g.n, m.n, d.name.value)))
  }

  /** The document `save_tracked_original_to_db` writes for an entry. */
  function Saved(id: nat, info: TrackInfo): Doc
  {
    Doc(Digits(id), Some(Num(info.guild)), Some(Num(info.mirror)), Some(info.name))
  }

  /** Saving and loading give back the entry, for every entry the
      registration can produce (non-zero guild and mirror ids). */
  lemma SaveLoad(id: nat, info: TrackInfo)
    requires info.guild != 0 && info.mirror != 0
    ensures Accept(Saved(id, info)) == Some((id as ChannelId, info))
  {
    ParseDigits(id);
  }

  /** The table after reading `docs` in order: a later document with the
      same id replaces an earlier one. */
  function Loaded(docs: seq<Doc>): map<ChannelId, TrackInfo>
    decreases |docs|
  {
    if |docs| == 0 then map[]
    else
      var prev := Loaded(docs[..|docs| - 1]);
      match Accept(docs[|docs| - 1])
      case None => prev
      case Some(e) => prev[e.0 := e.1]
  }

  /** How many documents were accepted (the number the load reports). */
  function AcceptedCount(docs: seq<Doc>): nat
    decreases |docs|
  {
    if |docs| == 0 then 0
    else AcceptedCount(docs[..|docs| - 1]) + (if Accept(docs[|docs| - 1]).Some? then 1 else 0)
  }

  /** Every loaded entry comes from an accepted document, and later
      documents never override it. */
  lemma {:induction false} LoadedSound(docs: seq<Doc>, k: ChannelId)
    requires k in Loaded(docs)
    ensures exists i ::
      && 0 <= i < |docs| && Accept(docs[i]) == Some((k, Loaded(docs)[k]))
      && forall j :: i < j < |docs| ==> Accept(docs[j]).None? || Accept(docs[j]).value.0 != k
    ensures Loaded(docs)[k].guild != 0 && Loaded(docs)[k].mirror != 0
    decreases |docs|
  {
    var n := |docs|;
    var prev := docs[..n - 1];
    var a := Accept(docs[n - 1]);
    if a.Some? && a.value.0 == k {
      assert Accept(docs[n - 1]) == Some((k, Loaded(docs)[k]));
    } else {
      assert Loaded(docs) == if a.Some? then Loaded(prev)[a.value.0 := a.value.1] else Loaded(prev);
      assert k in Loaded(prev);
      LoadedSound(prev, k);
      var i :|
        && 0 <= i < |prev| && Accept(prev[i]) == Some((k, Loaded(prev)[k]))
        && forall j :: i < j < |prev| ==> Accept(prev[j]).None? || Accept(prev[j]).value.0 != k;
      assert docs[i] == prev[i];
      forall j | i < j < |docs| ensures Accept(docs[j]).None? || Accept(docs[j]).value.0 != k {
        if j < n - 1 { assert docs[j] == prev[j]; }
      }
    }
  }

  /** Every accepted document's id is in the table. */
  lemma {:induction false} LoadedComplete(docs: seq<Doc>, i: nat)
    requires i < |docs| && Accept(docs[i]).Some?
    ensures Accept(docs[i]).value.0 in Loaded(docs)
    decreases |docs|
  {
    var n := |docs|;
    if i < n - 1 {
      var prev := docs[..n - 1];
      assert prev[i] == docs[i];
      LoadedComplete(prev, i);
    }
  }

  /** The reported count is at least the size of the table; they differ
      only when two documents name the same id. */
  lemma {:induction false} LoadedSize(docs: seq<Doc>)
    ensures |Loaded(docs).Keys| <= AcceptedCount(docs)
    decreases |docs|
  {
    if |docs| > 0 {
      var prev := docs[..|docs| - 1];
      LoadedSize(prev);
      match Accept(docs[|docs| - 1])
      case None =>
      case Some(e) =>
        assert Loaded(docs).Keys == Loaded(prev).Keys + {e.0};
    }
  }

  /** The loop of `load_tracked_channels_from_db`: the table is emptied,
      then filled document by document. */
  method Load(docs: seq<Doc>) returns (tracking: map<ChannelId, TrackInfo>, count: nat)
    ensures tracking == Loaded(docs) && count == AcceptedCount(docs)
  {
    tracking := map[];
    count := 0;
    var i := 0;
    while i < |docs|
      invariant 0 <= i <= |docs|
      invariant tracking == Loaded(docs[..i]) && count == AcceptedCount(docs[..i])
    {
      assert docs[..i + 1][..i] == docs[..i];
      var d := docs[i];
      var id := ParseInt(d.key);
      var g := Convert(d.guild);
      var m := Convert(d.mirror);
      if id.Some? && !g.Invalid? && !m.Invalid? && Usable(g) && Usable(m) && d.name.Some? {
        tracking := tracking[id.value as ChannelId := TrackInfo(g.n, m.n, d.name.value)];
        count := count + 1;
      }
      i := i + 1;
    }
    assert docs[..i] == docs;
  }
}
