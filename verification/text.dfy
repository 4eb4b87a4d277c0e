/** Python string operations used by the scorer, the policy query and the dispatcher. */
module Text {

  /** What `str.strip()` removes: the characters with `str.isspace()`. */
  predicate IsSpace(c: char) {
    || '\t' <= c <= '\r'
    || '\U{1c}' <= c <= ' '
    || c == '\U{85}'
    || c == '\U{a0}'
    || c == '\U{1680}'
    || '\U{2000}' <= c <= '\U{200a}'
    || c == '\U{2028}'
    || c == '\U{2029}'
    || c == '\U{202f}'
    || c == '\U{205f}'
    || c == '\U{3000}'
  }

  function LowerChar(c: char): char {
    if 'A' <= c <= 'Z' then (c as int + 32) as char else c
  }

  function Lower(s: string): (r: string)
    ensures |r| == |s|
  {
    seq(|s|, i requires 0 <= i < |s| => LowerChar(s[i]))
  }

  function LStrip(s: string): string {
    if s != "" && IsSpace(s[0]) then LStrip(s[1..]) else s
  }

  function RStrip(s: string): string {
    if s != "" && IsSpace(s[|s| - 1]) then RStrip(s[..|s| - 1]) else s
  }

  function Strip(s: string): string {
    RStrip(LStrip(s))
  }

  /** The string has no surrounding whitespace. */
  predicate Unpadded(s: string) {
    s == "" || (!IsSpace(s[0]) && !IsSpace(s[|s| - 1]))
  }

  /** The normalisation `s.lower().strip()` of the scorer and the dispatcher. */
  function Normal(s: string): string {
    Strip(Lower(s))
  }

  lemma {:induction false} LStripStops(s: string)
    ensures var t := LStrip(s); |t| <= |s| && t == s[|s| - |t|..]
    ensures var t := LStrip(s); t != "" ==> !IsSpace(t[0])
  {
    if s == "" || !IsSpace(s[0]) {
    } else {
      LStripStops(s[1..]);
    }
  }

  lemma {:induction false} RStripStops(s: string)
    ensures RStrip(s) <= s
    ensures var t := RStrip(s); t != "" ==> !IsSpace(t[|t| - 1])
  {
    if s == "" || !IsSpace(s[|s| - 1]) {
    } else {
      RStripStops(s[..|s| - 1]);
    }
  }

  /** Stripping removes all surrounding whitespace. */
  lemma StripUnpads(s: string)
    ensures Unpadded(Strip(s))
  {
    LStripStops(s);
    RStripStops(LStrip(s));
  }

  /** A string is a fixed point of stripping exactly when it has no surrounding whitespace. */
  lemma StripFixes(s: string)
    ensures Strip(s) == s <==> Unpadded(s)
  {
    StripUnpads(s);
  }

  lemma {:induction false} LStripLower(s: string)
    ensures LStrip(Lower(s)) == Lower(LStrip(s))
  {
    if s == "" || !IsSpace(s[0]) {
    } else {
      assert Lower(s)[1..] == Lower(s[1..]);
      LStripLower(s[1..]);
    }
  }

  lemma {:induction false} RStripLower(s: string)
    ensures RStrip(Lower(s)) == Lower(RStrip(s))
  {
    if s == "" || !IsSpace(s[|s| - 1]) {
    } else {
      assert Lower(s)[..|s| - 1] == Lower(s[..|s| - 1]);
      RStripLower(s[..|s| - 1]);
    }
  }

  /** Lower-casing and stripping commute. */
  lemma StripLower(s: string)
    ensures Strip(Lower(s)) == Lower(Strip(s))
  {
    LStripLower(s);
    RStripLower(LStrip(s));
  }

  lemma LowerIdempotent(s: string)
    ensures Lower(Lower(s)) == Lower(s)
  {
    assert forall i :: 0 <= i < |s| ==> Lower(Lower(s))[i] == Lower(s)[i];
  }

  /** Lower-casing neither adds nor removes surrounding whitespace. */
  lemma LowerKeepsPadding(s: string)
    ensures Unpadded(Lower(s)) <==> Unpadded(s)
  {
  }

  lemma {:induction false} PrefixSurvivesRStrip(p: string, s: string)
    requires p <= s && p != "" && !IsSpace(p[|p| - 1])
    ensures p <= RStrip(s)
  {
    if s == "" || !IsSpace(s[|s| - 1]) {
    } else {
      assert p[|p| - 1] == s[|p| - 1];
      PrefixSurvivesRStrip(p, s[..|s| - 1]);
    }
  }

  /** A prefix without surrounding whitespace is still a prefix after stripping. */
  lemma PrefixSurvivesStrip(p: string, s: string)
    requires p <= s && p != "" && Unpadded(p)
    ensures p <= Strip(s)
  {
    assert s[0] == p[0];
    PrefixSurvivesRStrip(p, s);
  }

  lemma Reassociate(a: string, b: string, c: string)
    ensures a + b + c == a + (b + c)
  {
  }

  // ----- Case and padding, without the functions -----

  /** The two characters are equal, or the two cases of one letter. */
  predicate SameLetter(c: char, d: char) {
    || c == d
    || ('A' <= c <= 'Z' && d as int == c as int - 'A' as int + 'a' as int)
    || ('A' <= d <= 'Z' && c as int == d as int - 'A' as int + 'a' as int)
  }

  predicate SameUpToCase(s: string, t: string) {
    |s| == |t| && forall i :: 0 <= i < |s| ==> SameLetter(s[i], t[i])
  }

  predicate NoUpperCase(s: string) {
    forall i :: 0 <= i < |s| ==> !('A' <= s[i] <= 'Z')
  }

  /** Lower-casing leaves no upper-case letter and changes nothing but the case of letters. */
  lemma LowerLowers(s: string)
    ensures NoUpperCase(Lower(s)) && SameUpToCase(s, Lower(s))
  {
    forall i | 0 <= i < |s|
      ensures !('A' <= Lower(s)[i] <= 'Z') && SameLetter(s[i], Lower(s)[i])
    {
      assert Lower(s)[i] == LowerChar(s[i]);
    }
  }

  /** There is only one such text. */
  lemma LowerIsUnique(s: string, t: string)
    requires SameUpToCase(s, t) && NoUpperCase(t)
    ensures Lower(s) == t
  {
    forall i | 0 <= i < |s|
      ensures Lower(s)[i] == t[i]
    {
      assert Lower(s)[i] == LowerChar(s[i]);
      assert SameLetter(s[i], t[i]);
    }
  }

  /** Two texts are lower-cased alike exactly when they agree up to case. */
  lemma LowerFolds(s: string, t: string)
    ensures Lower(s) == Lower(t) <==> SameUpToCase(s, t)
  {
    if SameUpToCase(s, t) {
      LowerLowers(t);
      forall i | 0 <= i < |s|
        ensures SameLetter(s[i], Lower(t)[i])
      {
        assert SameLetter(s[i], t[i]) && Lower(t)[i] == LowerChar(t[i]);
      }
      LowerIsUnique(s, Lower(t));
    }
    if Lower(s) == Lower(t) {
      forall i | 0 <= i < |s|
        ensures SameLetter(s[i], t[i])
      {
        assert Lower(s)[i] == LowerChar(s[i]) && Lower(t)[i] == LowerChar(t[i]);
      }
    }
  }

  /** The characters that Python counts as white space. */
  const SPACES: set<char> := {
    '\t', '\n', '\U{b}', '\U{c}', '\r', '\U{1c}', '\U{1d}', '\U{1e}', '\U{1f}', ' ', '\U{85}', '\U{a0}', '\U{1680}',
    '\U{2000}', '\U{2001}', '\U{2002}', '\U{2003}', '\U{2004}', '\U{2005}', '\U{2006}', '\U{2007}', '\U{2008}',
    '\U{2009}', '\U{200a}', '\U{2028}', '\U{2029}', '\U{202f}', '\U{205f}', '\U{3000}'
  }

  lemma SpaceTable(c: char)
    ensures IsSpace(c) <==> c in SPACES
  {
  }

  predicate AllSpace(s: string) {
    forall i :: 0 <= i < |s| ==> s[i] in SPACES
  }

  /** The text is `core` between white space. */
  predicate Pads(before: string, core: string, after: string, s: string) {
    s == before + core + after && AllSpace(before) && AllSpace(after)
  }

  ghost predicate PaddedWith(s: string, core: string) {
    exists before, after :: Pads(before, core, after, s)
  }

  lemma {:induction false} LStripTakes(s: string) returns (before: string)
    ensures s == before + LStrip(s) && AllSpace(before)
  {
    if s == "" || !IsSpace(s[0]) {
      before := "";
    } else {
      var more := LStripTakes(s[1..]);
      SpaceTable(s[0]);
      before := [s[0]] + more;
      assert s == [s[0]] + s[1..];
    }
  }

  lemma {:induction false} RStripTakes(s: string) returns (after: string)
    ensures s == RStrip(s) + after && AllSpace(after)
  {
    if s == "" || !IsSpace(s[|s| - 1]) {
      after := "";
    } else {
      var more := RStripTakes(s[..|s| - 1]);
      SpaceTable(s[|s| - 1]);
      after := more + [s[|s| - 1]];
      assert s == s[..|s| - 1] + [s[|s| - 1]];
    }
  }

  /** Stripping takes away white space and nothing else. */
  lemma StripTakes(s: string)
    ensures PaddedWith(s, Strip(s)) && Unpadded(Strip(s))
  {
    var before := LStripTakes(s);
    var after := RStripTakes(LStrip(s));
    StripUnpads(s);
    Reassociate(before, Strip(s), after);
    assert Pads(before, Strip(s), after, s);
  }

  lemma {:induction false} LStripPadding(before: string, t: string)
    requires AllSpace(before)
    ensures LStrip(before + t) == LStrip(t)
  {
    if before == "" {
      assert before + t == t;
    } else {
      SpaceTable(before[0]);
      assert (before + t)[1..] == before[1..] + t;
      LStripPadding(before[1..], t);
    }
  }

  lemma {:induction false} RStripPadding(t: string, after: string)
    requires AllSpace(after)
    ensures RStrip(t + after) == RStrip(t)
  {
    if after == "" {
      assert t + after == t;
    } else {
      SpaceTable(after[|after| - 1]);
      assert (t + after)[..|t + after| - 1] == t + after[..|after| - 1];
      RStripPadding(t, after[..|after| - 1]);
    }
  }

  lemma StripPads(before: string, core: string, after: string)
    requires AllSpace(before) && AllSpace(after) && Unpadded(core)
    ensures Strip(before + core + after) == core
  {
    Reassociate(before, core, after);
    LStripPadding(before, core + after);
    StripFixes(core);
    if core == "" {
      assert core + after == after;
      LStripPadding(after, "");
      assert after + "" == after;
    } else {
      assert (core + after)[0] == core[0];
      RStripPadding(core, after);
      assert LStrip(core) == core;
    }
  }

  /** `core` is what stripping leaves exactly when it is unpadded and the text is `core` between white space. */
  lemma StripExactly(s: string, core: string)
    ensures Strip(s) == core <==> PaddedWith(s, core) && Unpadded(core)
  {
    StripTakes(s);
    if PaddedWith(s, core) && Unpadded(core) {
      var before, after :| Pads(before, core, after, s);
      StripPads(before, core, after);
    }
  }

  /** The same word in another case and with other padding. */
  ghost predicate Respelled(s: string, t: string) {
    exists u, v :: PaddedWith(s, u) && PaddedWith(t, v) && Unpadded(u) && Unpadded(v) && SameUpToCase(u, v)
  }

  /** The normalisation identifies exactly the respellings of one word. */
  lemma NormalFolds(s: string, t: string)
    ensures Normal(s) == Normal(t) <==> Respelled(s, t)
  {
    StripLower(s);
    StripLower(t);
    LowerFolds(Strip(s), Strip(t));
    StripTakes(s);
    StripTakes(t);
    if Respelled(s, t) {
      var u, v :| PaddedWith(s, u) && PaddedWith(t, v) && Unpadded(u) && Unpadded(v) && SameUpToCase(u, v);
      StripExactly(s, u);
      StripExactly(t, v);
    }
  }

  lemma RespelledNormally(s: string)
    ensures Unpadded(Normal(s)) && NoUpperCase(Normal(s)) && Respelled(s, Normal(s))
  {
    var u, t := Strip(s), Normal(s);
    StripLower(s);
    StripTakes(s);
    LowerLowers(u);
    StripUnpads(Lower(s));
    assert Pads("", t, "", t);
  }

  /** The normal form of a word is its one respelling in lower case without padding; so the normalisation is idempotent,
      and blind to case and surrounding whitespace. */
  lemma NormalIdempotent(s: string, t: string)
    ensures t == Normal(s) <==> Unpadded(t) && NoUpperCase(t) && Respelled(s, t)
    ensures Normal(Normal(s)) == Normal(s)
  {
    RespelledNormally(s);
    NormalFolds(s, Normal(s));
    NormalFolds(s, t);
    if Unpadded(t) && NoUpperCase(t) {
      LowerIsUnique(t, t);
      StripFixes(t);
    }
  }
}
