/** The string handling the bot applies to every channel name it writes:
    `re.sub(r'\s{2,}', ' ', s).strip()[:100]`, plus the ASCII part of
    `str.lower`, the `in` test on strings, decimal rendering of counts and
    `int(...)` on the command argument. */
module Text {
  import opened Common

  /** Discord's ceiling on channel-name length, applied by `[:100]`. */
  const MaxNameLength: nat := 100

  /** The characters Python treats as whitespace (`str.isspace`, which is
      also what `\s` matches in a `str` pattern). */
  predicate IsSpace(c: char)
  {
    || c == ' ' || c == '\t' || c == '\n' || c == '\r'
    || c == '\U{B}' || c == '\U{C}'
    || ('\U{1C}' <= c <= '\U{1F}')
    || c == '\U{85}' || c == '\U{A0}' || c == '\U{1680}'
    || ('\U{2000}' <= c <= '\U{200A}')
    || c == '\U{2028}' || c == '\U{2029}' || c == '\U{202F}'
    || c == '\U{205F}' || c == '\U{3000}'
  }

  /** No two whitespace characters stand next to each other. */
  predicate NoDoubleSpace(s: string)
  {
    forall i :: 0 <= i && i + 1 < |s| ==> !IsSpace(s[i]) || !IsSpace(s[i + 1])
  }

  /** A name that normalisation leaves alone (apart from the length cut). */
  predicate Clean(s: string)
  {
    NoDoubleSpace(s) && (s == [] || (!IsSpace(s[0]) && !IsSpace(s[|s| - 1])))
  }

  /** The text of `s` with all whitespace removed: what a reader sees
      apart from spacing. */
  function Visible(s: string): string
  {
    if |s| == 0 then [] else (if IsSpace(s[0]) then [] else [s[0]]) + Visible(s[1..])
  }

  /** Length of the whitespace run at the start of `s`. */
  function LeadingRun(s: string): (n: nat)
    ensures n <= |s|
  {
    if |s| == 0 || !IsSpace(s[0]) then 0 else 1 + LeadingRun(s[1..])
  }

  /** `re.sub(r'\s{2,}', ' ', s)`: every maximal run of two or more
      whitespace characters becomes one space; a lone whitespace character
      stays as it is. */
  function CollapseRuns(s: string): string
    decreases |s|
  {
    if |s| == 0 then []
    else if IsSpace(s[0]) && LeadingRun(s) >= 2 then [' '] + CollapseRuns(s[LeadingRun(s)..])
    else [s[0]] + CollapseRuns(s[1..])
  }

  /** `lstrip()`: drops the leading whitespace and nothing else. */
  function StripLeft(s: string): string
  {
    if |s| > 0 && IsSpace(s[0]) then StripLeft(s[1..]) else s
  }

  /** `rstrip()`: drops the trailing whitespace and nothing else. */
  function StripRight(s: string): string
  {
    if |s| > 0 && IsSpace(s[|s| - 1]) then StripRight(s[..|s| - 1]) else s
  }

  /** `strip()`. */
  function Strip(s: string): string
  {
    StripRight(StripLeft(s))
  }

  /** `s[:n]`. */
  function Cut(s: string, n: nat): string
  {
    if |s| <= n then s else s[..n]
  }

  /** The normalisation every written channel name goes through:
      collapse whitespace runs, strip, cut to 100 characters. */
  function Normalise(s: string): string
  {
    Cut(Strip(CollapseRuns(s)), MaxNameLength)
  }

  // ---------------------------------------------------------------------
  // Lemmas about whitespace handling

  /** The leading run is all whitespace and stops at the first other
      character. */
  lemma {:induction false} LeadingRunSpaces(s: string)
    ensures forall i :: 0 <= i < LeadingRun(s) ==> IsSpace(s[i])
    ensures LeadingRun(s) < |s| ==> !IsSpace(s[LeadingRun(s)])
    decreases |s|
  {
    if |s| > 0 && IsSpace(s[0]) {
      LeadingRunSpaces(s[1..]);
    }
  }

  /** `lstrip()` removes exactly the leading whitespace. */
  lemma {:induction false} StripLeftSpec(s: string)
    ensures var r := StripLeft(s);
      && |r| <= |s| && r == s[|s| - |r|..]
      && (r == [] || !IsSpace(r[0]))
      && (forall i :: 0 <= i < |s| - |r| ==> IsSpace(s[i]))
    decreases |s|
  {
    if |s| > 0 && IsSpace(s[0]) {
      StripLeftSpec(s[1..]);
    }
  }

  /** `rstrip()` removes exactly the trailing whitespace. */
  lemma {:induction false} StripRightSpec(s: string)
    ensures var r := StripRight(s);
      && |r| <= |s| && r == s[..|r|]
      && (r == [] || !IsSpace(r[|r| - 1]))
      && (forall i :: |r| <= i < |s| ==> IsSpace(s[i]))
    decreases |s|
  {
    if |s| > 0 && IsSpace(s[|s| - 1]) {
      StripRightSpec(s[..|s| - 1]);
    }
  }

  lemma NoDoubleSpaceCons(c: char, t: string)
    requires NoDoubleSpace(t)
    requires t == [] || !IsSpace(c) || !IsSpace(t[0])
    ensures NoDoubleSpace([c] + t)
  {
    var s := [c] + t;
    forall i | 0 <= i && i + 1 < |s|
      ensures !IsSpace(s[i]) || !IsSpace(s[i + 1])
    {
      if i > 0 {
        assert s[i] == t[i - 1] && s[i + 1] == t[i];
      }
    }
  }

  lemma NoDoubleSpaceSlice(s: string, i: nat, j: nat)
    requires NoDoubleSpace(s) && i <= j <= |s|
    ensures NoDoubleSpace(s[i..j])
  {
    var t := s[i..j];
    forall k | 0 <= k && k + 1 < |t|
      ensures !IsSpace(t[k]) || !IsSpace(t[k + 1])
    {
      assert t[k] == s[i + k] && t[k + 1] == s[i + k + 1];
    }
  }

  lemma NoDoubleSpaceConcat(a: string, b: string)
    requires NoDoubleSpace(a) && NoDoubleSpace(b)
    requires a == [] || b == [] || !IsSpace(a[|a| - 1]) || !IsSpace(b[0])
    ensures NoDoubleSpace(a + b)
  {
    var s := a + b;
    forall i | 0 <= i && i + 1 < |s|
      ensures !IsSpace(s[i]) || !IsSpace(s[i + 1])
    {
      if i + 1 < |a| {
        assert s[i] == a[i] && s[i + 1] == a[i + 1];
      } else if i >= |a| {
        assert s[i] == b[i - |a|] && s[i + 1] == b[i + 1 - |a|];
      }
    }
  }

  /** The first character survives collapsing, up to turning a run into a
      single space. */
  lemma CollapseHead(s: string)
    requires |s| > 0
    ensures |CollapseRuns(s)| > 0
    ensures IsSpace(CollapseRuns(s)[0]) <==> IsSpace(s[0])
  {
  }

  /** After collapsing, no two whitespace characters are adjacent. */
  lemma {:induction false} CollapseNoDoubleSpace(s: string)
    ensures NoDoubleSpace(CollapseRuns(s))
    decreases |s|
  {
    if |s| == 0 {
    } else if IsSpace(s[0]) && LeadingRun(s) >= 2 {
      var t := s[LeadingRun(s)..];
      LeadingRunSpaces(s);
      CollapseNoDoubleSpace(t);
      if |t| > 0 { CollapseHead(t); }
      NoDoubleSpaceCons(' ', CollapseRuns(t));
    } else {
      var t := s[1..];
      CollapseNoDoubleSpace(t);
      if |t| > 0 {
        CollapseHead(t);
        if IsSpace(s[0]) {
          assert LeadingRun(s) == 1 + LeadingRun(t);
          assert !IsSpace(t[0]);
        }
      }
      NoDoubleSpaceCons(s[0], CollapseRuns(t));
    }
  }

  /** Collapsing is the identity on text without adjacent whitespace. */
  lemma {:induction false} CollapseFixes(s: string)
    requires NoDoubleSpace(s)
    ensures CollapseRuns(s) == s
    decreases |s|
  {
    if |s| > 0 {
      NoDoubleSpaceSlice(s, 1, |s|);
      if IsSpace(s[0]) && |s| > 1 {
        assert !IsSpace(s[1]);
        assert LeadingRun(s) == 1 + LeadingRun(s[1..]);
      }
      CollapseFixes(s[1..]);
      assert s == [s[0]] + s[1..];
    }
  }

  lemma {:induction false} VisibleConcat(a: string, b: string)
    ensures Visible(a + b) == Visible(a) + Visible(b)
    decreases |a|
  {
    if |a| > 0 {
      assert (a + b)[0] == a[0];
      assert (a + b)[1..] == a[1..] + b;
      VisibleConcat(a[1..], b);
    } else {
      assert a + b == b;
    }
  }

  lemma {:induction false} VisibleSkipsRun(s: string)
    ensures Visible(s) == Visible(s[LeadingRun(s)..])
    decreases |s|
  {
    if |s| > 0 && IsSpace(s[0]) {
      VisibleSkipsRun(s[1..]);
      assert s[1..][LeadingRun(s[1..])..] == s[LeadingRun(s)..];
    }
  }

  /** Collapsing only touches whitespace: the visible text is unchanged. */
  lemma {:induction false} CollapseKeepsVisible(s: string)
    ensures Visible(CollapseRuns(s)) == Visible(s)
    decreases |s|
  {
    if |s| == 0 {
    } else if IsSpace(s[0]) && LeadingRun(s) >= 2 {
      var t := s[LeadingRun(s)..];
      CollapseKeepsVisible(t);
      VisibleConcat([' '], CollapseRuns(t));
      VisibleSkipsRun(s);
    } else {
      CollapseKeepsVisible(s[1..]);
      VisibleConcat([s[0]], CollapseRuns(s[1..]));
    }
  }

  lemma {:induction false} VisibleOfSpaces(s: string)
    requires forall i :: 0 <= i < |s| ==> IsSpace(s[i])
    ensures Visible(s) == []
    decreases |s|
  {
    if |s| > 0 { VisibleOfSpaces(s[1..]); }
  }

  /** Removing a whitespace-only prefix or suffix keeps the visible text. */
  lemma VisibleDropSpaces(a: string, b: string)
    requires forall i :: 0 <= i < |a| ==> IsSpace(a[i])
    ensures Visible(a + b) == Visible(b)
    ensures Visible(b + a) == Visible(b)
  {
    VisibleConcat(a, b);
    VisibleConcat(b, a);
    VisibleOfSpaces(a);
    assert Visible(b) + [] == Visible(b);
  }

  lemma StripLeftKeepsVisible(s: string)
    ensures Visible(StripLeft(s)) == Visible(s)
  {
    var l := StripLeft(s);
    StripLeftSpec(s);
    var a := s[..|s| - |l|];
    assert s == a + l;
    VisibleDropSpaces(a, l);
  }

  lemma StripRightKeepsVisible(s: string)
    ensures Visible(StripRight(s)) == Visible(s)
  {
    var r := StripRight(s);
    StripRightSpec(s);
    var a := s[|r|..];
    assert s == r + a;
    VisibleDropSpaces(a, r);
  }

  /** Stripping only removes whitespace. */
  lemma StripKeepsVisible(s: string)
    ensures Visible(Strip(s)) == Visible(s)
  {
    StripLeftKeepsVisible(s);
    StripRightKeepsVisible(StripLeft(s));
  }

  lemma StripKeepsNoDoubleSpace(s: string)
    requires NoDoubleSpace(s)
    ensures NoDoubleSpace(Strip(s))
  {
    var l := StripLeft(s);
    StripLeftSpec(s);
    StripRightSpec(l);
    NoDoubleSpaceSlice(s, |s| - |l|, |s|);
    NoDoubleSpaceSlice(l, 0, |StripRight(l)|);
  }

  /** What every written name looks like: at most 100 characters, no
      adjacent whitespace, no leading whitespace, and no trailing
      whitespace unless the 100-character cut produced it. */
  lemma NormaliseShape(s: string)
    ensures var r := Normalise(s);
      && |r| <= MaxNameLength
      && NoDoubleSpace(r)
      && (r == [] || !IsSpace(r[0]))
      && (|r| < MaxNameLength ==> r == [] || !IsSpace(r[|r| - 1]))
  {
    var c := CollapseRuns(s);
    var l := StripLeft(c);
    var t := StripRight(l);
    var r := Normalise(s);
    assert r == Cut(t, MaxNameLength);
    StripLeftSpec(c);
    StripRightSpec(l);
    CollapseNoDoubleSpace(s);
    StripKeepsNoDoubleSpace(c);
    NoDoubleSpaceSlice(t, 0, |r|);
    assert r == t[..|r|];
    if r != [] {
      assert r[0] == t[0] == l[0];
    }
    if |r| < MaxNameLength && r != [] {
      assert r == t;
    }
  }

  /** Normalisation never alters the visible text of a name: what is left
      is a prefix of it (all of it when nothing was cut). */
  lemma NormaliseKeepsVisible(s: string)
    ensures Visible(Normalise(s)) <= Visible(s)
    ensures |Strip(CollapseRuns(s))| <= MaxNameLength ==> Visible(Normalise(s)) == Visible(s)
  {
    var c := CollapseRuns(s);
    var t := Strip(c);
    var r := Normalise(s);
    CollapseKeepsVisible(s);
    StripKeepsVisible(c);
    assert t == r + t[|r|..];
    VisibleConcat(r, t[|r|..]);
  }

  /** Names that are already clean and short pass through unchanged. */
  lemma NormaliseFixesClean(s: string)
    requires Clean(s) && |s| <= MaxNameLength
    ensures Normalise(s) == s
  {
    CollapseFixes(s);
  }

  /** Normalising a second time changes nothing, unless the first pass
      cut the name at exactly 100 characters (the cut can leave a trailing
      space that a second `strip()` would remove). */
  lemma NormaliseStable(s: string)
    requires |Normalise(s)| < MaxNameLength
    ensures Normalise(Normalise(s)) == Normalise(s)
  {
    NormaliseShape(s);
    NormaliseFixesClean(Normalise(s));
  }

  // ---------------------------------------------------------------------
  // Case folding and substring search

  /** `str.lower` on one character, ASCII letters only. */
  function LowerChar(c: char): char
  {
    if 'A' <= c <= 'Z' then (c as int + 32) as char else c
  }

  function Lower(s: string): (r: string)
    ensures |r| == |s|
    ensures forall i :: 0 <= i < |s| ==> r[i] == LowerChar(s[i])
  {
    seq(|s|, i requires 0 <= i < |s| => LowerChar(s[i]))
  }

  /** `needle` occurs in `hay` starting at offset `i`. */
  predicate OccursAt(hay: string, needle: string, i: int)
  {
    0 <= i && i + |needle| <= |hay| && hay[i..i + |needle|] == needle
  }

  /** Python's `needle in hay` on strings. */
  predicate Contains(hay: string, needle: string)
    decreases |hay|
  {
    needle <= hay || (|hay| > 0 && Contains(hay[1..], needle))
  }

  /** A needle longer than the haystack never occurs in it. */
  lemma {:induction false} ContainsTooShort(hay: string, needle: string)
    requires |hay| < |needle|
    ensures !Contains(hay, needle)
    decreases |hay|
  {
    if |hay| > 0 { ContainsTooShort(hay[1..], needle); }
  }

  /** `Contains` is the usual "occurs at some offset". */
  lemma {:induction false} ContainsAt(hay: string, needle: string)
    ensures Contains(hay, needle) <==> exists i :: OccursAt(hay, needle, i)
    decreases |hay|
  {
    if |hay| > 0 {
      ContainsAt(hay[1..], needle);
      if needle <= hay {
        assert OccursAt(hay, needle, 0);
      } else if Contains(hay[1..], needle) {
        var i :| OccursAt(hay[1..], needle, i);
        assert hay[1..][i..i + |needle|] == hay[i + 1..i + 1 + |needle|];
        assert OccursAt(hay, needle, i + 1);
      }
      if exists i :: OccursAt(hay, needle, i) {
        var i :| OccursAt(hay, needle, i);
        if i > 0 {
          assert hay[1..][i - 1..i - 1 + |needle|] == hay[i..i + |needle|];
          assert OccursAt(hay[1..], needle, i - 1);
        } else {
          assert needle <= hay;
        }
      }
    } else {
      if needle <= hay {
        assert OccursAt(hay, needle, 0);
      }
      if exists i :: OccursAt(hay, needle, i) {
        var i :| OccursAt(hay, needle, i);
        assert needle == [];
      }
    }
  }

  /** Lower-casing both sides keeps an occurrence. */
  lemma ContainsLower(hay: string, needle: string)
    requires Contains(hay, needle)
    ensures Contains(Lower(hay), Lower(needle))
  {
    ContainsAt(hay, needle);
    var i :| OccursAt(hay, needle, i);
    assert Lower(hay)[i..i + |needle|] == Lower(needle);
    assert OccursAt(Lower(hay), Lower(needle), i);
    ContainsAt(Lower(hay), Lower(needle));
  }

  // ---------------------------------------------------------------------
  // Decimal numbers

  predicate IsDigit(c: char)
  {
    '0' <= c <= '9'
  }

  predicate AllDigits(s: string)
  {
    forall i :: 0 <= i < |s| ==> IsDigit(s[i])
  }

  function DigitChar(d: nat): (c: char)
    requires d < 10
    ensures IsDigit(c) && c as int - '0' as int == d
  {
    ('0' as int + d) as char
  }

  /** `str(n)` for a natural number. */
  function Digits(n: nat): (s: string)
    ensures 1 <= |s| && AllDigits(s)
    ensures n < 10 ==> |s| == 1
    ensures n < 100 ==> |s| <= 2
    ensures n < 1000 ==> |s| <= 3
    decreases n
  {
    if n < 10 then [DigitChar(n)] else Digits(n / 10) + [DigitChar(n % 10)]
  }

  /** The value of a string of decimal digits. */
  function DigitsValue(s: string): nat
    requires AllDigits(s)
    decreases |s|
  {
    if |s| == 0 then 0 else DigitsValue(s[..|s| - 1]) * 10 + (s[|s| - 1] as int - '0' as int)
  }

  /** `int(s)` for a string of ASCII digits; anything else is refused. */
  function ParseInt(s: string): (r: Option<nat>)
    ensures r.Some? <==> |s| > 0 && AllDigits(s)
  {
    if |s| > 0 && AllDigits(s) then Some(DigitsValue(s)) else None
  }

  /** Reading back a rendered count gives the count. */
  lemma {:induction false} ParseDigits(n: nat)
    ensures ParseInt(Digits(n)) == Some(n)
    decreases n
  {
    if n >= 10 {
      ParseDigits(n / 10);
      var s := Digits(n);
      assert s[..|s| - 1] == Digits(n / 10);
      assert s[|s| - 1] == DigitChar(n % 10);
      assert DigitsValue(s) == DigitsValue(Digits(n / 10)) * 10 + n % 10;
    }
  }

  /** Rendering is one-to-one: different counts give different names. */
  lemma DigitsInjective(m: nat, n: nat)
    requires Digits(m) == Digits(n)
    ensures m == n
  {
    ParseDigits(m);
    ParseDigits(n);
  }
}
