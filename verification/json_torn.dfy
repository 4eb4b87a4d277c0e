/** What a reader makes of a JSON text that was cut off and is followed by the next one. */
module JsonTorn {
  import opened Numerals
  import opened JsonValues
  import opened JsonText
  import Text

  /** What follows a value here lets nobody go on: no separator, no closing bracket, no white space. */
  predicate Stuck(rest: string) {
    rest == "" || rest[0] !in {',', ']', '}', ':', ' ', '\t', '\n', '\r'}
  }

  predicate StuckAt<T>(r: Option<(T, string)>) {
    r.None? || Stuck(r.value.1)
  }

  /** Nothing, or a text that opens an object and that leaves a reader stuck both as a value and inside a string. */
  predicate Interrupts(t: string) {
    (t == "" || t[0] == '{') && StuckAt(ReadValue(t)) && StuckAt(ReadStr(t))
  }

  // ----- Cut inside a string -----

  lemma UEscapeCut(n: nat, k: nat, t: string)
    requires n < 0x1_0000 && k < 6 && (t == "" || t[0] == '{')
    ensures ReadUEscape(UEscape(n)[..k] + t) == None
  {
    var s := UEscape(n)[..k] + t;
    if |s| >= 6 {
      assert s[k] == '{';
      assert k < 2 ==> s[..2][k] == '{';
    }
  }

  lemma ShortCharCut(c: char, t: string)
    requires |DumpsChar(c)| == 2 && (t == "" || t[0] == '{')
    ensures ReadChar(DumpsChar(c)[..1] + t) == None
  {
    var s := DumpsChar(c)[..1] + t;
    if t != "" {
      assert s[1] == '{' && s[..2][1] == '{';
    }
  }

  lemma CodeCut(n: nat, k: nat, t: string)
    requires n < 0x1_0000 && 0 < k < 6 && (t == "" || t[0] == '{')
    ensures ReadChar(UEscape(n)[..k] + t) == None
  {
    var s := UEscape(n)[..k] + t;
    UEscapeCut(n, k, t);
    assert k == 1 ==> |s| == 1 || s[1] == '{';
    assert k > 1 ==> s[1] == 'u';
  }

  /** The second half of a surrogate pair is missing. */
  lemma PairCut(hi: nat, lo: nat, k: nat, t: string)
    requires 0xD800 <= hi < 0xDC00 && lo < 0x1_0000 && k < 6 && (t == "" || t[0] == '{')
    ensures ReadChar(UEscape(hi) + (UEscape(lo)[..k] + t)) == None
  {
    var s, rest := UEscape(hi) + (UEscape(lo)[..k] + t), UEscape(lo)[..k] + t;
    UEscapeReadsBack(hi, rest);
    UEscapeCut(lo, k, t);
    assert s[1] == 'u';
  }

  lemma LongEscapeCut(hi: nat, lo: nat, k: nat, t: string)
    requires 0xD800 <= hi < 0xDC00 && lo < 0x1_0000 && 0 < k < 12 && (t == "" || t[0] == '{')
    ensures ReadChar((UEscape(hi) + UEscape(lo))[..k] + t) == None
  {
    if k < 6 {
      assert (UEscape(hi) + UEscape(lo))[..k] == UEscape(hi)[..k];
      CodeCut(hi, k, t);
    } else {
      assert (UEscape(hi) + UEscape(lo))[..k] == UEscape(hi) + UEscape(lo)[..k - 6];
      Text.Reassociate(UEscape(hi), UEscape(lo)[..k - 6], t);
      PairCut(hi, lo, k - 6, t);
    }
  }

  lemma LongCharCut(n: nat, k: nat, t: string)
    requires n < 0xD800 || 0xE000 <= n < 0x11_0000
    requires 0 < k < |LongEscape(n)| && (t == "" || t[0] == '{')
    ensures ReadChar(LongEscape(n)[..k] + t) == None
  {
    if n < 0x1_0000 {
      CodeCut(n, k, t);
    } else {
      LongEscapeCut(0xD800 + (n - 0x1_0000) / 1024, 0xDC00 + (n - 0x1_0000) % 1024, k, t);
    }
  }

  lemma CharCut(c: char, k: nat, t: string)
    requires 0 < k < |DumpsChar(c)| && (t == "" || t[0] == '{')
    ensures ReadStr(DumpsChar(c)[..k] + t) == None
  {
    if DumpsChar(c) == LongEscape(c as int) {
      LongCharCut(c as int, k, t);
    } else {
      ShortCharCut(c, t);
    }
    assert (DumpsChar(c)[..k] + t)[0] != '"';
  }

  lemma CharThenStuck(c: char, tail: string)
    requires StuckAt(ReadStr(tail))
    ensures StuckAt(ReadStr(DumpsChar(c) + tail))
  {
    CharReadsBack(c, tail);
    assert (DumpsChar(c) + tail)[0] == DumpsChar(c)[0];
  }

  lemma CutInTwo(first: string, more: string, k: nat, t: string)
    requires k <= |first + more|
    ensures k <= |first| ==> (first + more)[..k] == first[..k]
    ensures k >= |first| ==> (first + more)[..k] + t == first + (more[..k - |first|] + t)
  {
  }

  /** The reader runs on through what follows and stops just after its first quote. */
  lemma {:induction false} CharsCut(s: string, k: nat, t: string)
    requires k <= |DumpsChars(s)| && Interrupts(t)
    ensures StuckAt(ReadStr(DumpsChars(s)[..k] + t))
  {
    if k == 0 {
      assert DumpsChars(s)[..k] + t == t;
    } else {
      var first, more := DumpsChar(s[0]), DumpsChars(s[1..]);
      CutInTwo(first, more, k, t);
      if k < |first| {
        CharCut(s[0], k, t);
      } else {
        CharsCut(s[1..], k - |first|, t);
        CharThenStuck(s[0], more[..k - |first|] + t);
      }
    }
  }

  // ----- Cut inside a number or a literal -----

  predicate NumberChar(c: char) {
    IsDigit(c) || c in {'-', '+', '.', 'e', 'E'}
  }

  predicate NumberChars(s: string) {
    forall i :: 0 <= i < |s| ==> NumberChar(s[i])
  }

  /** `rest` is what is left of `s` after taking characters of a number. */
  predicate TookNumber(s: string, rest: string) {
    |rest| <= |s| && rest == s[|s| - |rest|..] && NumberChars(s[..|s| - |rest|])
  }

  lemma TookMore(s: string, mid: string, rest: string)
    requires TookNumber(s, mid) && TookNumber(mid, rest)
    ensures TookNumber(s, rest)
  {
    var a, b := |s| - |mid|, |mid| - |rest|;
    assert s[a..][b..] == s[a + b..];
    assert s[..a + b] == s[..a] + mid[..b];
  }

  lemma TookDigits(s: string, k: nat)
    requires k <= DigitRun(s)
    ensures TookNumber(s, s[k..])
  {
    assert forall i :: 0 <= i < k ==> IsDigit(s[..DigitRun(s)][i]);
  }

  lemma TookOne(s: string)
    requires s != "" && NumberChar(s[0])
    ensures TookNumber(s, s[1..])
  {
  }

  lemma FractionTakes(u: string)
    ensures TookNumber(u, ReadFraction(u).1)
  {
    if |u| >= 2 && u[0] == '.' && IsDigit(u[1]) {
      TookOne(u);
      TookDigits(u[1..], DigitRun(u[1..]));
      TookMore(u, u[1..], u[1..][DigitRun(u[1..])..]);
    }
  }

  lemma ExponentTakes(w: string)
    ensures TookNumber(w, ReadExponent(w).1)
  {
    if |w| >= 2 && w[0] in {'e', 'E'} {
      TookOne(w);
      var y := if w[1] in {'+', '-'} then w[2..] else w[1..];
      if w[1] in {'+', '-'} {
        TookOne(w[1..]);
        assert w[1..][1..] == w[2..];
        TookMore(w, w[1..], y);
      }
      TookDigits(y, DigitRun(y));
      TookMore(w, y, y[DigitRun(y)..]);
    }
  }

  /** The optional minus and the int part. */
  lemma IntPartTakes(s: string, t: string, k: nat)
    requires t == (if s != "" && s[0] == '-' then s[1..] else s)
    requires k <= DigitRun(t)
    ensures TookNumber(s, t[k..])
  {
    if s != "" && s[0] == '-' {
      TookOne(s);
    } else {
      assert s[..0] == "";
    }
    TookDigits(t, k);
    TookMore(s, t, t[k..]);
  }

  lemma TailTakes(s: string, u: string)
    requires TookNumber(s, u)
    ensures TookNumber(s, ReadExponent(ReadFraction(u).1).1)
  {
    var w := ReadFraction(u).1;
    FractionTakes(u);
    TookMore(s, u, w);
    ExponentTakes(w);
    TookMore(s, w, ReadExponent(w).1);
  }

  lemma NumberTakes(s: string)
    ensures var r := ReadNumber(s); r.Some? ==> TookNumber(s, r.value.1)
  {
    var t := if s != "" && s[0] == '-' then s[1..] else s;
    var run := DigitRun(t);
    if run > 0 {
      var k := if t[0] == '0' then 1 else run;
      IntPartTakes(s, t, k);
      TailTakes(s, t[k..]);
    }
  }

  lemma TooFar(p: string, t: string, taken: nat)
    requires |p| < taken <= |p + t| && t[0] == '{'
    ensures !NumberChars((p + t)[..taken])
  {
    assert (p + t)[..taken][|p|] == '{';
  }

  /** A number cut off stops at the latest where the next text opens. */
  lemma NumberCut(p: string, t: string)
    requires NumberChars(p) && (t == "" || t[0] == '{')
    ensures StuckAt(ReadNumber(p + t))
  {
    NumberTakes(p + t);
    var r := ReadNumber(p + t);
    if r.Some? {
      StopsWithin(p, t, r.value.1);
    }
  }

  lemma StopsWithin(p: string, t: string, rest: string)
    requires NumberChars(p) && (t == "" || t[0] == '{') && TookNumber(p + t, rest)
    ensures Stuck(rest)
  {
    var taken := |p + t| - |rest|;
    if taken < |p| {
      assert rest[0] == p[taken];
    } else if taken == |p| {
      assert rest == t;
    } else {
      TooFar(p, t, taken);
    }
  }

  lemma IntTextNumber(i: int)
    ensures NumberChars(IntText(i))
  {
    assert AllDigits(NatText(if i < 0 then -i else i));
  }

  lemma NumberText(j: Json)
    requires j.Int? || j.Dec?
    ensures NumberChars(Dumps(j)) && Dumps(j) != "" && (IsDigit(Dumps(j)[0]) || Dumps(j)[0] == '-')
  {
    DumpsOpens(j);
    if j.Int? {
      IntTextNumber(j.n);
    } else {
      IntTextNumber(j.m);
      IntTextNumber(j.e);
    }
  }

  lemma NumberTextCut(j: Json, k: nat, t: string)
    requires (j.Int? || j.Dec?) && 0 < k <= |Dumps(j)| && (t == "" || t[0] == '{')
    ensures StuckAt(ReadValue(Dumps(j)[..k] + t))
  {
    NumberText(j);
    var p := Dumps(j)[..k];
    assert (p + t)[0] == Dumps(j)[0];
    NumberIsRead(p + t);
    NumberCut(p, t);
  }

  lemma Differs(w: string, s: string, k: nat)
    requires k < |w| && (k < |s| ==> s[k] != w[k])
    ensures !(w <= s)
  {
  }

  lemma LiteralCut(j: Json, k: nat, t: string)
    requires (j.Null? || j.Bool?) && 0 < k <= |Dumps(j)| && (t == "" || t[0] == '{')
    ensures StuckAt(ReadValue(Dumps(j)[..k] + t))
  {
    var w, s := Dumps(j), Dumps(j)[..k] + t;
    if k == |w| {
      assert s == w + t;
      LiteralReadsBack(j, t);
    } else {
      assert s[0] == w[0];
      Differs(w, s, k);
      assert DigitRun(s) == 0;
    }
  }

  // ----- Cut inside a list or an object: no reading at all -----

  lemma NoSpace(s: string)
    requires s == "" || s[0] !in {' ', '\t', '\n', '\r'}
    ensures SkipSpace(s) == s && SkipSpace(" " + s) == s
  {
    assert (" " + s)[1..] == s;
  }

  lemma StuckItem(s: string)
    requires StuckAt(ReadValue(s))
    ensures ReadItems(s) == None
  {
  }

  lemma StuckMember(s: string)
    requires StuckAt(ReadMember(s))
    ensures ReadMembers(s) == None
  {
  }

  /** After a separator the reader is as stuck as it is on what comes next. */
  lemma ItemsStop(s: string, v: Json, u: string)
    requires ReadValue(s) == Some((v, "," + u)) && ReadItems(SkipSpace(u)) == None
    ensures ReadItems(s) == None
  {
    assert ("," + u)[1..] == u;
  }

  lemma MembersStop(s: string, m: (string, Json), u: string)
    requires ReadMember(s) == Some((m, "," + u)) && ReadMembers(SkipSpace(u)) == None
    ensures ReadMembers(s) == None
  {
    assert ("," + u)[1..] == u;
  }

  /** A text of three parts, cut: in the first, or after one or two characters of the separator, or in the third. */
  lemma CutOfThree(first: string, sep: string, next: string, k: nat, t: string)
    requires |sep| == 2 && |first| < k <= |first + sep + next|
    ensures k == |first| + 1 ==> (first + sep + next)[..k] + t == first + ([sep[0]] + t)
    ensures k >= |first| + 2 ==>
              (first + sep + next)[..k] + t == first + ([sep[0]] + ([sep[1]] + (next[..k - |first| - 2] + t)))
  {
  }

  lemma {:induction false} ItemsCut(items: seq<Json>, k: nat, t: string)
    requires (forall i :: 0 <= i < |items| ==> WellFormed(items[i])) && k <= |DumpsItems(items)| && Interrupts(t)
    ensures ReadItems(DumpsItems(items)[..k] + t) == None
    decreases items, 0
  {
    var s := DumpsItems(items)[..k] + t;
    if items == [] {
      assert s == t;
      StuckItem(t);
    } else if k <= |Dumps(items[0])| {
      assert DumpsItems(items)[..k] == Dumps(items[0])[..k];
      ValueCut(items[0], k, t);
      StuckItem(s);
    } else {
      var first, next := Dumps(items[0]), DumpsItems(items[1..]);
      CutOfThree(first, ", ", next, k, t);
      if k == |first| + 1 {
        ValueReadsBack(items[0], "," + t);
        NoSpace(t);
        StuckItem(t);
        ItemsStop(s, items[0], t);
      } else {
        var tail := next[..k - |first| - 2] + t;
        ValueReadsBack(items[0], "," + (" " + tail));
        ItemsCut(items[1..], k - |first| - 2, t);
        ItemsOpen(items[1..], "");
        NoSpace(tail);
        ItemsStop(s, items[0], " " + tail);
      }
    }
  }

  /** A quoted text, cut: the opening quote and what the string reader sees after it. */
  lemma Quoted(s: string, k: nat, t: string)
    requires 0 < k <= |DumpsStr(s)|
    ensures var text := DumpsStr(s)[..k] + t;
            && text[0] == '"'
            && text[1..] == if k < |DumpsStr(s)| then DumpsChars(s)[..k - 1] + t else DumpsChars(s) + "\"" + t
  {
    CutAfterFirst(DumpsStr(s), DumpsChars(s) + "\"", k, t);
    if k < |DumpsStr(s)| {
      assert (DumpsChars(s) + "\"")[..k - 1] == DumpsChars(s)[..k - 1];
    }
  }

  lemma CutAfterFirst(w: string, rest: string, k: nat, t: string)
    requires w != "" && w[1..] == rest && 0 < k <= |w|
    ensures (w[..k] + t)[0] == w[0] && (w[..k] + t)[1..] == rest[..k - 1] + t
    ensures k == |w| ==> rest[..k - 1] == rest
  {
  }

  lemma KeyCut(key: string, k: nat, t: string)
    requires 0 < k <= |DumpsStr(key)| && Interrupts(t)
    ensures ReadMember(DumpsStr(key)[..k] + t) == None
  {
    Quoted(key, k, t);
    if k < |DumpsStr(key)| {
      CharsCut(key, k - 1, t);
    } else {
      StrReadsBack(key, t);
    }
  }

  /** After the key and its colon the reader is where it would be on the value alone. */
  lemma AfterKey(key: string, value: string)
    requires value == "" || value[0] !in {' ', '\t', '\n', '\r'}
    requires StuckAt(ReadValue(value))
    ensures StuckAt(ReadMember(DumpsStr(key) + (":" + value)))
    ensures StuckAt(ReadMember(DumpsStr(key) + (":" + (" " + value))))
  {
    AfterColon(key, value, value);
    AfterColon(key, " " + value, value);
  }

  lemma AfterColon(key: string, spaced: string, value: string)
    requires value == "" || value[0] !in {' ', '\t', '\n', '\r'}
    requires spaced == value || spaced == " " + value
    requires StuckAt(ReadValue(value))
    ensures StuckAt(ReadMember(DumpsStr(key) + (":" + spaced)))
  {
    var s, rest := DumpsStr(key) + (":" + spaced), ":" + spaced;
    assert s[1..] == DumpsChars(key) + "\"" + rest;
    StrReadsBack(key, rest);
    NoSpace(value);
    assert SkipSpace(rest) == rest && rest[1..] == spaced;
    assert SkipSpace(spaced) == value;
  }

  lemma {:induction false} MemberCut(m: (string, Json), k: nat, t: string)
    requires WellFormed(m.1) && k <= |DumpsMember(m)| && Interrupts(t)
    ensures StuckAt(ReadMember(DumpsMember(m)[..k] + t))
    decreases m, 2
  {
    var s, key, value := DumpsMember(m)[..k] + t, DumpsStr(m.0), Dumps(m.1);
    if k == 0 {
      assert s == t;
    } else if k <= |key| {
      assert DumpsMember(m)[..k] == key[..k];
      KeyCut(m.0, k, t);
    } else {
      CutOfThree(key, ": ", value, k, t);
      if k == |key| + 1 {
        AfterKey(m.0, t);
      } else {
        var v := value[..k - |key| - 2] + t;
        DumpsOpens(m.1);
        ValueCut(m.1, k - |key| - 2, t);
        AfterKey(m.0, v);
      }
    }
  }

  lemma {:induction false} MembersCut(ms: Members, k: nat, t: string)
    requires (forall i :: 0 <= i < |ms| ==> WellFormed(ms[i].1)) && k <= |DumpsMembers(ms)| && Interrupts(t)
    ensures ReadMembers(DumpsMembers(ms)[..k] + t) == None
    decreases ms, 0
  {
    var s := DumpsMembers(ms)[..k] + t;
    if ms == [] {
      assert s == t;
      StuckMember(t);
    } else if k <= |DumpsMember(ms[0])| {
      assert DumpsMembers(ms)[..k] == DumpsMember(ms[0])[..k];
      MemberCut(ms[0], k, t);
      StuckMember(s);
    } else {
      var first, next := DumpsMember(ms[0]), DumpsMembers(ms[1..]);
      CutOfThree(first, ", ", next, k, t);
      if k == |first| + 1 {
        MemberReadsBack(ms[0], "," + t);
        NoSpace(t);
        StuckMember(t);
        MembersStop(s, ms[0], t);
      } else {
        var tail := next[..k - |first| - 2] + t;
        MemberReadsBack(ms[0], "," + (" " + tail));
        MembersCut(ms[1..], k - |first| - 2, t);
        MembersOpen(ms[1..], "");
        NoSpace(tail);
        MembersStop(s, ms[0], " " + tail);
      }
    }
  }

  // ----- Values -----

  lemma StringCut(s: string, k: nat, t: string)
    requires 0 < k <= |DumpsStr(s)| && Interrupts(t)
    ensures StuckAt(ReadValue(DumpsStr(s)[..k] + t))
  {
    Quoted(s, k, t);
    if k < |DumpsStr(s)| {
      CharsCut(s, k - 1, t);
    } else {
      StrReadsBack(s, t);
    }
  }

  lemma {:induction false} ListCut(items: seq<Json>, k: nat, t: string)
    requires (forall i :: 0 <= i < |items| ==> WellFormed(items[i])) && Interrupts(t)
    requires 0 < k < |Dumps(Arr(items))|
    ensures ReadValue(Dumps(Arr(items))[..k] + t) == None
    decreases items, 1
  {
    var s, u := Dumps(Arr(items))[..k] + t, DumpsItems(items)[..k - 1] + t;
    assert s == "[" + u && s[1..] == u;
    ItemsCut(items, k - 1, t);
    if k > 1 {
      ItemsOpen(items, "");
    }
    NoSpace(u);
  }

  lemma {:induction false} ObjectCut(ms: Members, k: nat, t: string)
    requires (forall i :: 0 <= i < |ms| ==> WellFormed(ms[i].1)) && Interrupts(t)
    requires 0 < k < |Dumps(Obj(ms))|
    ensures ReadValue(Dumps(Obj(ms))[..k] + t) == None
    decreases ms, 1
  {
    var s, u := Dumps(Obj(ms))[..k] + t, DumpsMembers(ms)[..k - 1] + t;
    assert s == "{" + u && s[1..] == u;
    MembersCut(ms, k - 1, t);
    if k > 1 {
      MembersOpen(ms, "");
    }
    NoSpace(u);
  }

  /** A value cut anywhere, even just before its end or at its start, leaves the reader stuck. */
  lemma {:induction false} ValueCut(j: Json, k: nat, t: string)
    requires WellFormed(j) && k <= |Dumps(j)| && Interrupts(t)
    ensures StuckAt(ReadValue(Dumps(j)[..k] + t))
    decreases j, 1
  {
    if k == 0 {
      assert Dumps(j)[..k] + t == t;
    } else {
      match j
      case Str(s) => StringCut(s, k, t);
      case Arr(items) =>
        if k < |Dumps(j)| {
          ListCut(items, k, t);
        } else {
          assert Dumps(j)[..k] == Dumps(j);
          ArrReadsBack(items, t);
        }
      case Obj(ms) =>
        if k < |Dumps(j)| {
          ObjectCut(ms, k, t);
        } else {
          assert Dumps(j)[..k] == Dumps(j);
          ObjReadsBack(ms, t);
        }
      case Null => LiteralCut(j, k, t);
      case Bool(_) => LiteralCut(j, k, t);
      case _ => NumberTextCut(j, k, t);
    }
  }

  // ----- A torn object and what follows it -----

  /** An object's text, cut off after at least one character and followed by the next text, or whole and followed by
      one, is never read as a document. */
  lemma TornIsUnreadable(ms: Members, k: nat, t: string)
    requires WellFormed(Obj(ms)) && Interrupts(t)
    requires 0 < k <= |Dumps(Obj(ms))| && (k < |Dumps(Obj(ms))| || t != "")
    ensures Loads(Dumps(Obj(ms))[..k] + t) == None
  {
    var s := Dumps(Obj(ms))[..k] + t;
    assert s[0] == '{' && SkipSpace(s) == s;
    if k < |Dumps(Obj(ms))| {
      ObjectCut(ms, k, t);
    } else {
      ObjReadsBack(ms, t);
      assert Dumps(Obj(ms))[..k] == Dumps(Obj(ms));
      NoSpace(t);
    }
  }

  /** Such a text interrupts whatever comes before it in turn. */
  lemma TornInterrupts(ms: Members, k: nat, t: string)
    requires WellFormed(Obj(ms)) && ms != [] && Interrupts(t) && k <= |Dumps(Obj(ms))|
    requires ms[0].0 != "" && 'a' <= ms[0].0[0] <= 'z'
    ensures Interrupts(Dumps(Obj(ms))[..k] + t)
  {
    var w, s := Dumps(Obj(ms)), Dumps(Obj(ms))[..k] + t;
    ValueCut(Obj(ms), k, t);
    if k == 0 {
      assert s == t;
    } else {
      FirstKey(ms);
      assert s[0] == '{';
      assert ReadChar(s) == Some(('{', s[1..]));
      if k == 1 {
        assert s[1..] == t;
      } else {
        assert s[1] == '"' && ReadStr(s[1..]) == Some(("", s[1..][1..]));
        assert s[1..][1..] == s[2..];
        assert k == 2 ==> s[2..] == t;
        assert k > 2 ==> s[2..][0] == w[2];
      }
    }
  }

  lemma FirstKey(ms: Members)
    requires ms != [] && ms[0].0 != "" && 'a' <= ms[0].0[0] <= 'z'
    ensures var w := Dumps(Obj(ms)); |w| > 3 && w[0] == '{' && w[1] == '"' && w[2] == ms[0].0[0]
  {
    var key := ms[0].0;
    assert DumpsChars(key) == [key[0]] + DumpsChars(key[1..]);
    var m := DumpsMember(ms[0]);
    assert m[0] == '"' && m[1] == key[0];
    assert m <= DumpsMembers(ms);
  }

  lemma NothingInterrupts()
    ensures Interrupts("")
  {
  }
}
