/** The names the bot writes and the names it recognises: the mirror
    label `<base>：<n> users`, the summary label, the user count shown in
    them, and the test that tells a status category apart. */
module Names {
  import opened Common
  import opened Text

  /** Largest count a label ever shows. */
  const MaxShownCount: nat := 999

  /** The category that holds mirror channels. */
  const StatusCategoryName: string := "STATUS"

  /** The fixed base of the guild-wide summary label. */
  const SummaryBase: string := "Study/Work"

  /** How many characters of the source name the first mirror name keeps
      in `nekochanbot2.py`. */
  const InitialBaseLength: nat := 65

  /** A member of a voice channel; only whether it is a bot matters. */
  datatype Member = Member(id: int, bot: bool)

  /** `len([m for m in members if not m.bot])`. */
  function NonBotCount(members: seq<Member>): (n: nat)
    ensures n <= |members|
    ensures n == |members| <==> forall i :: 0 <= i < |members| ==> !members[i].bot
    ensures n == 0 <==> forall i :: 0 <= i < |members| ==> members[i].bot
  {
    if |members| == 0 then 0
    else (if members[0].bot then 0 else 1) + NonBotCount(members[1..])
  }

  /** `min(n, 999)`. */
  function Cap(n: nat): (r: nat)
    ensures r <= MaxShownCount
    ensures r == n || (n > MaxShownCount && r == MaxShownCount)
  {
    if n < MaxShownCount then n else MaxShownCount
  }

  /** The label before normalisation: `f"{base}：{n} users"`. */
  function RawLabel(base: string, n: nat): string
  {
    base + "\U{FF1A}" + Digits(n) + " users"
  }

  /** The name a mirror (or the summary channel) should carry. */
  function MirrorName(base: string, n: nat): string
  {
    Normalise(RawLabel(base, n))
  }

  /** The first name of a mirror in `nekochanbot2.py`: the source name is
      cut to 65 characters before the label is built. */
  function InitialMirrorName(sourceName: string, n: nat): string
  {
    MirrorName(sourceName[..if |sourceName| <= InitialBaseLength then |sourceName| else InitialBaseLength], n)
  }

  /** The summary channel's name for a total of `n` users. */
  function SummaryName(n: nat): string
  {
    MirrorName(SummaryBase, n)
  }

  /** `"STATUS".lower() in name.lower()` (`nekochanbot2.py`). */
  predicate IsStatusCategory(name: string)
  {
    Contains(Lower(name), Lower(StatusCategoryName))
  }

  /** `"STATUS" in name` (the other two revisions). */
  predicate IsStatusCategoryStrict(name: string)
  {
    Contains(name, StatusCategoryName)
  }

  // ---------------------------------------------------------------------

  lemma UsersSuffixClean()
    ensures NoDoubleSpace(" users")
  {
    var u := " users";
    forall i | 0 <= i && i + 1 < |u|
      ensures !IsSpace(u[i]) || !IsSpace(u[i + 1])
    {
      assert !IsSpace(u[i + 1]);
    }
  }

  lemma DigitsClean(n: nat)
    ensures NoDoubleSpace(Digits(n))
    ensures forall i :: 0 <= i < |Digits(n)| ==> !IsSpace(Digits(n)[i])
  {
  }

  /** Text without any whitespace is clean. */
  lemma NoSpaceClean(s: string)
    requires forall i :: 0 <= i < |s| ==> !IsSpace(s[i])
    ensures Clean(s)
  {
  }

  /** With a clean base of at most 90 characters, normalisation leaves the
      label exactly as built: nothing is collapsed, stripped or cut. */
  lemma MirrorNameExact(base: string, n: nat)
    requires Clean(base) && |base| <= 90 && n <= MaxShownCount
    ensures MirrorName(base, n) == RawLabel(base, n)
  {
    var d := Digits(n);
    var colon := "\U{FF1A}";
    DigitsClean(n);
    UsersSuffixClean();
    NoDoubleSpaceConcat(base, colon);
    NoDoubleSpaceConcat(base + colon, d);
    NoDoubleSpaceConcat(base + colon + d, " users");
    var raw := RawLabel(base, n);
    assert raw == base + colon + d + " users";
    assert raw[|raw| - 1] == 's';
    assert raw[0] == if base == [] then colon[0] else base[0];
    NormaliseFixesClean(raw);
  }

  /** The label for three users in a channel called "General". */
  lemma GeneralExample()
    ensures MirrorName("General", 3) == "General\U{FF1A}3 users"
  {
    GeneralClean();
    MirrorNameExact("General", 3);
    GeneralLabel();
  }

  lemma GeneralClean()
    ensures Clean("General")
  {
    var g := "General";
    forall i | 0 <= i < |g| ensures !IsSpace(g[i]) { }
    NoSpaceClean(g);
  }

  lemma GeneralLabel()
    ensures RawLabel("General", 3) == "General\U{FF1A}3 users"
  {
    assert Digits(3) == ['3'];
  }

  /** For a clean base of at most 90 characters, two shown counts give the
      same name exactly when they are equal, so comparing names is the same
      as comparing counts. */
  lemma MirrorNameInjective(base: string, m: nat, n: nat)
    requires Clean(base) && |base| <= 90 && m <= MaxShownCount && n <= MaxShownCount
    ensures MirrorName(base, m) == MirrorName(base, n) <==> m == n
  {
    if MirrorName(base, m) == MirrorName(base, n) {
      MirrorNameExact(base, m);
      MirrorNameExact(base, n);
      var a := RawLabel(base, m);
      var b := RawLabel(base, n);
      assert |Digits(m)| == |Digits(n)|;
      assert Digits(m) == a[|base| + 1..|a| - 6];
      assert Digits(n) == b[|base| + 1..|b| - 6];
      DigitsInjective(m, n);
    }
  }

  /** Every written label fits Discord's limit and never starts with
      whitespace. */
  lemma MirrorNameShape(base: string, n: nat)
    ensures |MirrorName(base, n)| <= MaxNameLength
    ensures NoDoubleSpace(MirrorName(base, n))
    ensures MirrorName(base, n) == [] || !IsSpace(MirrorName(base, n)[0])
  {
    NormaliseShape(RawLabel(base, n));
  }

  /** In `nekochanbot2.py` the first name agrees with what updates will
      aim for whenever the source name has at most 65 characters. */
  lemma InitialNameAgrees(sourceName: string, n: nat)
    requires |sourceName| <= InitialBaseLength
    ensures InitialMirrorName(sourceName, n) == MirrorName(sourceName, n)
  {
    assert sourceName[..|sourceName|] == sourceName;
  }

  /** With a longer source name they disagree: a mirror created for a
      66-character name is renamed by its first update even though the count
      did not change. */
  lemma InitialNameMayDisagree()
    ensures var s := seq(66, i => 'a');
      InitialMirrorName(s, 0) != MirrorName(s, 0)
  {
    var s := seq(66, i => 'a');
    var t := s[..InitialBaseLength];
    NoSpaceClean(s);
    NoSpaceClean(t);
    MirrorNameExact(s, 0);
    MirrorNameExact(t, 0);
    assert |RawLabel(s, 0)| != |RawLabel(t, 0)|;
  }

  /** A category the strict test accepts is also accepted case-blind. */
  lemma StrictImpliesStatus(name: string)
    requires IsStatusCategoryStrict(name)
    ensures IsStatusCategory(name)
  {
    ContainsLower(name, StatusCategoryName);
  }

  /** The converse fails: "Status" holds mirrors for `nekochanbot2.py` but
      not for the other revisions. */
  lemma StatusNotStrict()
    ensures IsStatusCategory("Status") && !IsStatusCategoryStrict("Status")
  {
    assert Lower("Status") == "status";
    assert Lower(StatusCategoryName) == "status";
    assert "status" <= "status";
    assert "Status"[0] != StatusCategoryName[1];
    ContainsTooShort("Status"[1..], StatusCategoryName);
  }

  /** `get_or_create_status_category`: the first category of the guild that
      passes the status test, in the guild's order; `None` means a new
      category would have to be created. */
  method FindStatusCategory(categories: seq<string>, strict: bool) returns (r: Option<nat>)
    ensures r.Some? ==> r.value < |categories| && CategoryMatches(categories[r.value], strict)
    ensures r.Some? ==> forall j :: 0 <= j < r.value ==> !CategoryMatches(categories[j], strict)
    ensures r.None? ==> forall j :: 0 <= j < |categories| ==> !CategoryMatches(categories[j], strict)
  {
    var i := 0;
    while i < |categories|
      invariant 0 <= i <= |categories|
      invariant forall j :: 0 <= j < i ==> !CategoryMatches(categories[j], strict)
    {
      if CategoryMatches(categories[i], strict) {
        return Some(i);
      }
      i := i + 1;
    }
    return None;
  }

  /** The status test of the revision at hand. */
  predicate CategoryMatches(name: string, strict: bool)
  {
    if strict then IsStatusCategoryStrict(name) else IsStatusCategory(name)
  }
}
