/** The JSON text that `json.dumps` writes and `json.loads` reads (RFC 8259). */
module JsonText {
  import opened Numerals
  import opened JsonValues
  import Text

  // ----- Strings: every character outside printable ASCII is escaped -----

  function HexChar(d: nat): char
    requires d < 16
  {
    if d < 10 then ('0' as int + d) as char else ('a' as int + d - 10) as char
  }

  function HexOf(c: char): Option<nat> {
    if '0' <= c <= '9' then Some(c as int - '0' as int)
    else if 'a' <= c <= 'f' then Some(c as int - 'a' as int + 10)
    else if 'A' <= c <= 'F' then Some(c as int - 'A' as int + 10)
    else None
  }

  function UEscape(n: nat): (s: string)
    requires n < 0x1_0000
    ensures |s| == 6
  {
    "\\u" + [HexChar(n / 4096), HexChar(n / 256 % 16), HexChar(n / 16 % 16), HexChar(n % 16)]
  }

  /** A code point as one \u escape, or as a surrogate pair beyond the basic plane. */
  function LongEscape(n: nat): (s: string)
    requires n < 0x11_0000
    ensures |s| >= 6 && s[0] == '\\'
  {
    if n < 0x1_0000 then UEscape(n)
    else UEscape(0xD800 + (n - 0x1_0000) / 1024) + UEscape(0xDC00 + (n - 0x1_0000) % 1024)
  }

  function DumpsChar(c: char): (s: string)
    ensures s != "" && s[0] != '"'
  {
    if c == '"' then "\\\""
    else if c == '\\' then "\\\\"
    else if c == '\n' then "\\n"
    else if c == '\r' then "\\r"
    else if c == '\t' then "\\t"
    else if c == '\U{c}' then "\\f"
    else if c == '\U{8}' then "\\b"
    else if ' ' <= c <= '~' then [c]
    else LongEscape(c as int)
  }

  function DumpsChars(s: string): string {
    if s == "" then "" else DumpsChar(s[0]) + DumpsChars(s[1..])
  }

  function DumpsStr(s: string): string {
    "\"" + DumpsChars(s) + "\""
  }

  /** Four hexadecimal digits after a "\u". */
  function ReadUEscape(s: string): Option<nat> {
    if |s| < 6 || s[..2] != "\\u" then None else
      match (HexOf(s[2]), HexOf(s[3]), HexOf(s[4]), HexOf(s[5]))
      case (Some(a), Some(b), Some(c), Some(d)) => Some(a * 4096 + b * 256 + c * 16 + d)
      case _ => None
  }

  /** One character of a string literal: plain, a short escape, a \u escape or a surrogate pair. */
  function ReadChar(s: string): (r: Option<(char, string)>)
    requires s != "" && s[0] != '"'
    ensures r.Some? ==> |r.value.1| < |s|
  {
    if s[0] == '\\' then
      if |s| == 1 then None
      else match s[1]
        case '"' => Some(('"', s[2..]))
        case '\\' => Some(('\\', s[2..]))
        case '/' => Some(('/', s[2..]))
        case 'n' => Some(('\n', s[2..]))
        case 'r' => Some(('\r', s[2..]))
        case 't' => Some(('\t', s[2..]))
        case 'f' => Some(('\U{c}', s[2..]))
        case 'b' => Some(('\U{8}', s[2..]))
        case _ =>
          match ReadUEscape(s)
          case None => None
          case Some(u) =>
            if u < 0xD800 || 0xE000 <= u < 0x1_0000 then Some((u as char, s[6..]))
            else match ReadUEscape(s[6..])
              case Some(lo) =>
                if 0xD800 <= u < 0xDC00 <= lo < 0xE000
                then Some(((0x1_0000 + (u - 0xD800) * 1024 + (lo - 0xDC00)) as char, s[12..]))
                else None
              case None => None
    else if s[0] < ' ' then None
    else Some((s[0], s[1..]))
  }

  /** A string literal after its opening quote. */
  function ReadStr(s: string): (r: Option<(string, string)>)
    ensures r.Some? ==> |r.value.1| < |s|
    decreases |s|
  {
    if s == "" then None
    else if s[0] == '"' then Some(("", s[1..]))
    else match ReadChar(s)
      case None => None
      case Some((c, rest)) =>
        match ReadStr(rest)
        case None => None
        case Some((cs, rest')) => Some(([c] + cs, rest'))
  }

  lemma HexReadsBack(d: nat)
    requires d < 16
    ensures HexOf(HexChar(d)) == Some(d)
  {
  }

  lemma FourDigits(n: nat)
    requires n < 0x1_0000
    ensures n / 4096 < 16 && n == n / 4096 * 4096 + n / 256 % 16 * 256 + n / 16 % 16 * 16 + n % 16
  {
    assert n / 16 / 16 == n / 256 && n / 256 / 16 == n / 4096;
  }

  lemma UEscapeReadsBack(n: nat, t: string)
    requires n < 0x1_0000
    ensures ReadUEscape(UEscape(n) + t) == Some(n)
    ensures (UEscape(n) + t)[6..] == t
  {
    FourDigits(n);
    HexReadsBack(n / 4096);
    HexReadsBack(n / 256 % 16);
    HexReadsBack(n / 16 % 16);
    HexReadsBack(n % 16);
    assert (UEscape(n) + t)[..2] == "\\u";
  }

  lemma ShortCharReadsBack(c: char, t: string)
    requires |DumpsChar(c)| <= 2
    ensures ReadChar(DumpsChar(c) + t) == Some((c, t))
  {
    assert (DumpsChar(c) + t)[|DumpsChar(c)|..] == t;
  }

  lemma CodeReadsBack(n: nat, t: string)
    requires n < 0xD800 || 0xE000 <= n < 0x1_0000
    ensures ReadChar(UEscape(n) + t) == Some((n as char, t))
  {
    UEscapeReadsBack(n, t);
    assert (UEscape(n) + t)[1] == 'u';
  }

  lemma SurrogatesReadBack(u: nat, lo: nat, n: nat, t: string)
    requires 0xD800 <= u < 0xDC00 <= lo < 0xE000
    requires n == 0x1_0000 + (u - 0xD800) * 1024 + (lo - 0xDC00)
    ensures ReadChar(UEscape(u) + UEscape(lo) + t) == Some((n as char, t))
  {
    var s := UEscape(u) + UEscape(lo) + t;
    assert s == UEscape(u) + (UEscape(lo) + t);
    UEscapeReadsBack(u, UEscape(lo) + t);
    UEscapeReadsBack(lo, t);
    assert s[1] == 'u';
    assert s[12..] == s[6..][6..];
  }

  lemma LongCharReadsBack(n: nat, t: string)
    requires n < 0xD800 || 0xE000 <= n < 0x11_0000
    ensures ReadChar(LongEscape(n) + t) == Some((n as char, t))
  {
    if n < 0x1_0000 {
      CodeReadsBack(n, t);
    } else {
      var hi, lo := (n - 0x1_0000) / 1024, (n - 0x1_0000) % 1024;
      assert n - 0x1_0000 == hi * 1024 + lo;
      SurrogatesReadBack(0xD800 + hi, 0xDC00 + lo, n, t);
    }
  }

  lemma CharReadsBack(c: char, t: string)
    ensures ReadChar(DumpsChar(c) + t) == Some((c, t))
  {
    if DumpsChar(c) == LongEscape(c as int) {
      LongCharReadsBack(c as int, t);
    } else {
      ShortCharReadsBack(c, t);
    }
  }

  lemma StrStep(s: string, c: char, rest: string, cs: string, t: string)
    requires s != "" && s[0] != '"' && ReadChar(s) == Some((c, rest)) && ReadStr(rest) == Some((cs, t))
    ensures ReadStr(s) == Some(([c] + cs, t))
  {
  }

  lemma StrEnd(t: string)
    ensures ReadStr("\"" + t) == Some(("", t))
  {
    assert ("\"" + t)[1..] == t;
  }

  lemma {:induction false} StrReadsBack(s: string, t: string)
    ensures ReadStr(DumpsChars(s) + "\"" + t) == Some((s, t))
  {
    if s == "" {
      assert DumpsChars(s) + "\"" + t == "\"" + t;
      StrEnd(t);
    } else {
      var first, more := DumpsChar(s[0]), DumpsChars(s[1..]);
      var tail := more + "\"" + t;
      Bracketed(first, more, "\"", t);
      CharReadsBack(s[0], tail);
      StrReadsBack(s[1..], t);
      StrStep(first + tail, s[0], tail, s[1..], t);
      assert s == [s[0]] + s[1..];
    }
  }

  lemma Bracketed(open: string, body: string, close: string, rest: string)
    ensures open + body + close + rest == open + (body + close + rest)
  {
  }

  // ----- Numbers -----

  /** A float is written with its exponent; a reader sees the same number whatever form is chosen. */
  function DumpsDec(m: int, e: int): string {
    IntText(m) + "e" + IntText(e)
  }

  /** Optional fraction digits: the digits and what follows. */
  function ReadFraction(u: string): (r: (string, string))
    ensures AllDigits(r.0) && |r.1| <= |u|
  {
    if |u| >= 2 && u[0] == '.' && IsDigit(u[1]) then
      var k := DigitRun(u[1..]);
      (u[1..][..k], u[1..][k..])
    else ("", u)
  }

  /** Optional exponent: its value and what follows. */
  function ReadExponent(w: string): (r: (Option<int>, string))
    ensures |r.1| <= |w|
  {
    if |w| >= 2 && w[0] in {'e', 'E'} then
      var signed := w[1] in {'+', '-'};
      var y := if signed then w[2..] else w[1..];
      var k := DigitRun(y);
      if k == 0 then (None, w) else
        var n: int := NatValue(y[..k]);
        (Some(if w[1] == '-' then -n else n), y[k..])
    else (None, w)
  }

  /** Number = [minus] int [frac] [exp]; an int part that starts with 0 is just "0". */
  function ReadNumber(s: string): (r: Option<(Json, string)>)
    ensures r.Some? ==> |r.value.1| < |s|
  {
    var neg := s != "" && s[0] == '-';
    var t := if neg then s[1..] else s;
    var run := DigitRun(t);
    if run == 0 then None else
      var k := if t[0] == '0' then 1 else run;
      assert t[..k] == t[..run][..k];
      var (frac, w) := ReadFraction(t[k..]);
      var (exp, rest) := ReadExponent(w);
      var n: int := NatValue(t[..k] + frac);
      var m := if neg then -n else n;
      if frac == "" && exp.None? then Some((Int(m), rest)) else Some((Dec(m, exp.Or(0) - |frac|), rest))
  }

  /** What may follow a value inside a document. */
  predicate Terminated(rest: string) {
    rest == "" || rest[0] in {',', ']', '}'}
  }

  lemma NatReadsBack(n: nat, rest: string)
    requires rest == "" || !IsDigit(rest[0])
    ensures var t := NatText(n) + rest; var k := |NatText(n)|;
            DigitRun(t) == k && t[..k] == NatText(n) && t[k..] == rest && NatValue(t[..k]) == n
  {
    DigitRunExact(NatText(n), rest);
    assert (NatText(n) + rest)[..|NatText(n)|] == NatText(n);
    NatRoundTrip(n);
  }

  /** The number made of a sign, int digits and what follows them. */
  function Signed(neg: bool, n: nat): int {
    var i: int := n;
    if neg then -i else i
  }

  /** A numeral followed by at most an exponent. */
  lemma MagnitudeReadsBack(n: nat, rest: string, neg: bool, s: string)
    requires rest == "" || (!IsDigit(rest[0]) && rest[0] != '.')
    requires s == (if neg then "-" + (NatText(n) + rest) else NatText(n) + rest)
    ensures var (exp, after) := ReadExponent(rest);
            ReadNumber(s) ==
              Some((if exp.None? then Int(Signed(neg, n)) else Dec(Signed(neg, n), exp.value), after))
  {
    var t := NatText(n) + rest;
    NatReadsBack(n, rest);
    NoLeadingZero(n);
    assert t[0] == NatText(n)[0];
    if neg {
      assert s[1..] == t;
    } else {
      assert s[0] != '-';
    }
    assert ReadFraction(rest) == ("", rest);
    assert NatText(n) + "" == NatText(n);
  }

  lemma IntReadsBack(i: int, rest: string)
    requires rest == "" || (!IsDigit(rest[0]) && rest[0] != '.')
    ensures var (exp, after) := ReadExponent(rest);
            ReadNumber(IntText(i) + rest) == Some((if exp.None? then Int(i) else Dec(i, exp.value), after))
  {
    if i < 0 {
      Text.Reassociate("-", NatText(-i), rest);
      MagnitudeReadsBack(-i, rest, true, IntText(i) + rest);
    } else {
      MagnitudeReadsBack(i, rest, false, IntText(i) + rest);
    }
  }

  lemma SignedExponent(w: string, n: nat, neg: bool, rest: string)
    requires rest == "" || !IsDigit(rest[0])
    requires w == (if neg then "e-" + (NatText(n) + rest) else "e" + (NatText(n) + rest))
    ensures ReadExponent(w) == (Some(Signed(neg, n)), rest)
  {
    NatReadsBack(n, rest);
    var t := NatText(n) + rest;
    assert t[0] == NatText(n)[0];
    if neg {
      assert w[1] == '-' && w[2..] == t;
    } else {
      assert w[1] == t[0] && w[1..] == t;
    }
  }

  lemma ExponentReadsBack(e: int, rest: string)
    requires Terminated(rest)
    ensures ReadExponent("e" + (IntText(e) + rest)) == (Some(e), rest)
  {
    if e < 0 {
      Text.Reassociate("-", NatText(-e), rest);
      Text.Reassociate("e", "-", NatText(-e) + rest);
      SignedExponent("e" + (IntText(e) + rest), -e, true, rest);
    } else {
      SignedExponent("e" + (IntText(e) + rest), e, false, rest);
    }
  }

  // ----- Values -----

  function Dumps(j: Json): string
    decreases j, 1
  {
    match j
    case Null => "null"
    case Bool(b) => if b then "true" else "false"
    case Int(n) => IntText(n)
    case Dec(m, e) => DumpsDec(m, e)
    case Str(s) => DumpsStr(s)
    case Arr(items) => "[" + DumpsItems(items) + "]"
    case Obj(ms) => "{" + DumpsMembers(ms) + "}"
  }

  function DumpsItems(items: seq<Json>): string
    decreases items, 0
  {
    if items == [] then ""
    else if |items| == 1 then Dumps(items[0])
    else Dumps(items[0]) + ", " + DumpsItems(items[1..])
  }

  function DumpsMember(m: (string, Json)): string
    decreases m, 2
  {
    DumpsStr(m.0) + ": " + Dumps(m.1)
  }

  function DumpsMembers(ms: Members): string
    decreases ms, 0
  {
    if ms == [] then ""
    else if |ms| == 1 then DumpsMember(ms[0])
    else DumpsMember(ms[0]) + ", " + DumpsMembers(ms[1..])
  }

  function SkipSpace(s: string): (r: string)
    ensures |r| <= |s|
  {
    if s != "" && s[0] in {' ', '\t', '\n', '\r'} then SkipSpace(s[1..]) else s
  }

  /** Setting a key of a dict: in place if present, else at the end. */
  function SetKey(ms: Members, key: string, v: Json): Members {
    if ms == [] then [(key, v)]
    else if ms[0].0 == key then [(key, v)] + ms[1..]
    else [ms[0]] + SetKey(ms[1..], key, v)
  }

  function AsDict(pairs: Members): Members {
    if pairs == [] then [] else
      var last := pairs[|pairs| - 1];
      SetKey(AsDict(pairs[..|pairs| - 1]), last.0, last.1)
  }

  function ReadValue(s: string): (r: Option<(Json, string)>)
    ensures r.Some? ==> |r.value.1| < |s|
    decreases |s|, 0
  {
    if s == "" then None
    else if s[0] == '"' then
      match ReadStr(s[1..]) case None => None case Some((cs, rest)) => Some((Str(cs), rest))
    else if s[0] == '[' then
      var t := SkipSpace(s[1..]);
      if t != "" && t[0] == ']' then Some((Arr([]), t[1..]))
      else match ReadItems(t) case None => None case Some((items, rest)) => Some((Arr(items), rest))
    else if s[0] == '{' then
      var t := SkipSpace(s[1..]);
      if t != "" && t[0] == '}' then Some((Obj([]), t[1..]))
      else match ReadMembers(t) case None => None case Some((ms, rest)) => Some((Obj(AsDict(ms)), rest))
    else if "null" <= s then Some((Null, s[4..]))
    else if "true" <= s then Some((Bool(true), s[4..]))
    else if "false" <= s then Some((Bool(false), s[5..]))
    else ReadNumber(s)
  }

  function ReadItems(s: string): (r: Option<(seq<Json>, string)>)
    ensures r.Some? ==> |r.value.1| < |s|
    decreases |s|, 1
  {
    match ReadValue(s)
    case None => None
    case Some((v, rest)) =>
      var t := SkipSpace(rest);
      if t == "" then None
      else if t[0] == ']' then Some(([v], t[1..]))
      else if t[0] != ',' then None
      else match ReadItems(SkipSpace(t[1..])) case None => None case Some((vs, rest')) => Some(([v] + vs, rest'))
  }

  function ReadMember(s: string): (r: Option<((string, Json), string)>)
    ensures r.Some? ==> |r.value.1| < |s|
    decreases |s|, 1
  {
    if s == "" || s[0] != '"' then None
    else match ReadStr(s[1..])
      case None => None
      case Some((key, rest)) =>
        var t := SkipSpace(rest);
        if t == "" || t[0] != ':' then None
        else match ReadValue(SkipSpace(t[1..])) case None => None case Some((v, rest')) => Some(((key, v), rest'))
  }

  function ReadMembers(s: string): (r: Option<(Members, string)>)
    ensures r.Some? ==> |r.value.1| < |s|
    decreases |s|, 2
  {
    match ReadMember(s)
    case None => None
    case Some((m, rest)) =>
      var t := SkipSpace(rest);
      if t == "" then None
      else if t[0] == '}' then Some(([m], t[1..]))
      else if t[0] != ',' then None
      else match ReadMembers(SkipSpace(t[1..])) case None => None case Some((ms, rest')) => Some(([m] + ms, rest'))
  }

  /** `json.loads`: one value, surrounded by white space at most. */
  function Loads(s: string): Option<Json> {
    match ReadValue(SkipSpace(s))
    case None => None
    case Some((v, rest)) => if SkipSpace(rest) == "" then Some(v) else None
  }

  // ----- The round trip -----

  /** How a written value starts: never with white space or a closing bracket. */
  predicate Opening(c: char) {
    c in {'"', '[', '{', 'n', 't', 'f', '-'} || IsDigit(c)
  }

  lemma DumpsOpens(j: Json)
    ensures Dumps(j) != "" && Opening(Dumps(j)[0])
  {
  }

  lemma {:induction false} SetNewKey(ms: Members, key: string, v: Json)
    requires !HasKey(ms, key)
    ensures SetKey(ms, key, v) == ms + [(key, v)]
  {
    if ms == [] {
    } else {
      assert ms[0].0 != key;
      assert forall i :: 0 <= i < |ms[1..]| ==> ms[1..][i] == ms[i + 1];
      SetNewKey(ms[1..], key, v);
    }
  }

  lemma {:induction false} DistinctIsDict(ms: Members)
    requires DistinctKeys(ms)
    ensures AsDict(ms) == ms
  {
    if ms == [] {
    } else {
      var front, last := ms[..|ms| - 1], ms[|ms| - 1];
      DistinctIsDict(front);
      SetNewKey(front, last.0, last.1);
    }
  }

  lemma SkipOneSpace(s: string)
    requires s != "" && s[0] !in {' ', '\t', '\n', '\r'}
    ensures SkipSpace(s) == s && SkipSpace(" " + s) == s
  {
    assert (" " + s)[1..] == s;
  }

  lemma LiteralReadsBack(j: Json, rest: string)
    requires j.Null? || j.Bool?
    ensures ReadValue(Dumps(j) + rest) == Some((j, rest))
  {
    assert (Dumps(j) + rest)[|Dumps(j)|..] == rest;
  }

  lemma NumberIsRead(s: string)
    requires s != "" && (IsDigit(s[0]) || s[0] == '-')
    ensures ReadValue(s) == ReadNumber(s)
  {
  }

  lemma NumberReadsBack(j: Json, rest: string)
    requires (j.Int? || j.Dec?) && Terminated(rest)
    ensures ReadValue(Dumps(j) + rest) == Some((j, rest))
  {
    DumpsOpens(j);
    NumberIsRead(Dumps(j) + rest);
    if j.Int? {
      IntReadsBack(j.n, rest);
    } else {
      DecReadsBack(j.m, j.e, rest);
    }
  }

  lemma DecReadsBack(m: int, e: int, rest: string)
    requires Terminated(rest)
    ensures ReadNumber(DumpsDec(m, e) + rest) == Some((Dec(m, e), rest))
  {
    Spread(IntText(m), "e", IntText(e), rest);
    ExponentReadsBack(e, rest);
    IntReadsBack(m, "e" + (IntText(e) + rest));
  }

  lemma TextReadsBack(cs: string, rest: string)
    ensures ReadValue(DumpsStr(cs) + rest) == Some((Str(cs), rest))
  {
    assert (DumpsStr(cs) + rest)[1..] == DumpsChars(cs) + "\"" + rest;
    StrReadsBack(cs, rest);
  }

  lemma {:induction false} ValueReadsBack(j: Json, rest: string)
    requires WellFormed(j) && Terminated(rest)
    ensures ReadValue(Dumps(j) + rest) == Some((j, rest))
    decreases j, 1
  {
    match j
    case Str(cs) => TextReadsBack(cs, rest);
    case Arr(items) => ArrReadsBack(items, rest);
    case Obj(ms) => ObjReadsBack(ms, rest);
    case Null => LiteralReadsBack(j, rest);
    case Bool(_) => LiteralReadsBack(j, rest);
    case _ => NumberReadsBack(j, rest);
  }

  lemma EmptyListed(rest: string)
    ensures ReadValue("[]" + rest) == Some((Arr([]), rest))
    ensures ReadValue("{}" + rest) == Some((Obj([]), rest))
  {
    assert ("[]" + rest)[1..] == "]" + rest && ("]" + rest)[1..] == rest;
    assert ("{}" + rest)[1..] == "}" + rest && ("}" + rest)[1..] == rest;
  }

  lemma ArrListed(t: string, items: seq<Json>, rest: string)
    requires ReadItems(t) == Some((items, rest))
    requires t != "" && t[0] !in {' ', '\t', '\n', '\r', ']'}
    ensures ReadValue("[" + t) == Some((Arr(items), rest))
  {
    assert ("[" + t)[1..] == t;
    SkipOneSpace(t);
  }

  lemma ObjListed(t: string, ms: Members, rest: string)
    requires ReadMembers(t) == Some((ms, rest)) && DistinctKeys(ms)
    requires t != "" && t[0] == '"'
    ensures ReadValue("{" + t) == Some((Obj(ms), rest))
  {
    assert ("{" + t)[1..] == t;
    SkipOneSpace(t);
    DistinctIsDict(ms);
  }

  lemma {:induction false} ArrReadsBack(items: seq<Json>, rest: string)
    requires forall i :: 0 <= i < |items| ==> WellFormed(items[i])
    ensures ReadValue("[" + DumpsItems(items) + "]" + rest) == Some((Arr(items), rest))
    decreases items, 3
  {
    if items == [] {
      assert "[" + DumpsItems(items) + "]" == "[]";
      EmptyListed(rest);
    } else {
      var t := DumpsItems(items) + "]" + rest;
      DumpsOpens(items[0]);
      assert t[0] == Dumps(items[0])[0];
      ItemsReadBack(items, rest);
      ArrListed(t, items, rest);
      Bracketed("[", DumpsItems(items), "]", rest);
    }
  }

  lemma {:induction false} ObjReadsBack(ms: Members, rest: string)
    requires DistinctKeys(ms) && forall i :: 0 <= i < |ms| ==> WellFormed(ms[i].1)
    ensures ReadValue("{" + DumpsMembers(ms) + "}" + rest) == Some((Obj(ms), rest))
    decreases ms, 3
  {
    if ms == [] {
      assert "{" + DumpsMembers(ms) + "}" == "{}";
      EmptyListed(rest);
    } else {
      var t := DumpsMembers(ms) + "}" + rest;
      Text.Reassociate(DumpsMembers(ms), "}", rest);
      MembersOpen(ms, "}" + rest);
      MembersReadBack(ms, rest);
      ObjListed(t, ms, rest);
      Bracketed("{", DumpsMembers(ms), "}", rest);
    }
  }

  lemma LastItem(first: string, v: Json, rest: string)
    requires ReadValue(first + ("]" + rest)) == Some((v, "]" + rest))
    ensures ReadItems(first + "]" + rest) == Some(([v], rest))
  {
    Text.Reassociate(first, "]", rest);
    assert ("]" + rest)[1..] == rest;
  }

  lemma MoreItems(first: string, v: Json, next: string, vs: seq<Json>, rest: string)
    requires ReadValue(first + (", " + next)) == Some((v, ", " + next)) && ReadItems(next) == Some((vs, rest))
    requires next != "" && next[0] !in {' ', '\t', '\n', '\r'}
    ensures ReadItems(first + (", " + next)) == Some(([v] + vs, rest))
  {
    assert (", " + next)[1..] == " " + next;
    SkipOneSpace(next);
  }

  lemma Spread(a: string, b: string, c: string, d: string)
    ensures a + b + c + d == a + (b + (c + d))
  {
  }

  lemma ListLayout(first: string, more: string, close: string, rest: string)
    ensures first + ", " + more + close + rest == first + (", " + (more + close + rest))
  {
  }

  lemma ItemsOpen(items: seq<Json>, tail: string)
    requires items != []
    ensures var s := DumpsItems(items) + tail; s != "" && Opening(s[0])
  {
    DumpsOpens(items[0]);
  }

  lemma {:induction false} ItemsReadBack(items: seq<Json>, rest: string)
    requires items != [] && forall i :: 0 <= i < |items| ==> WellFormed(items[i])
    ensures ReadItems(DumpsItems(items) + "]" + rest) == Some((items, rest))
    decreases items, 2
  {
    var v, vs := items[0], items[1..];
    assert items == [v] + vs;
    if vs == [] {
      ValueReadsBack(v, "]" + rest);
      LastItem(Dumps(v), v, rest);
      assert items == [v];
    } else {
      var next := DumpsItems(vs) + "]" + rest;
      ListLayout(Dumps(v), DumpsItems(vs), "]", rest);
      ValueReadsBack(v, ", " + next);
      ItemsReadBack(vs, rest);
      ItemsOpen(vs, "]" + rest);
      Text.Reassociate(DumpsItems(vs), "]", rest);
      MoreItems(Dumps(v), v, next, vs, rest);
    }
  }

  lemma LastMember(first: string, m: (string, Json), rest: string)
    requires ReadMember(first + ("}" + rest)) == Some((m, "}" + rest))
    ensures ReadMembers(first + "}" + rest) == Some(([m], rest))
  {
    Text.Reassociate(first, "}", rest);
    assert ("}" + rest)[1..] == rest;
  }

  lemma MoreMembers(first: string, m: (string, Json), next: string, ms: Members, rest: string)
    requires ReadMember(first + (", " + next)) == Some((m, ", " + next)) && ReadMembers(next) == Some((ms, rest))
    requires next != "" && next[0] !in {' ', '\t', '\n', '\r'}
    ensures ReadMembers(first + (", " + next)) == Some(([m] + ms, rest))
  {
    assert (", " + next)[1..] == " " + next;
    SkipOneSpace(next);
  }

  lemma KeyThenValue(s: string, key: string, value: string, v: Json, rest: string)
    requires s != "" && s[0] == '"' && ReadStr(s[1..]) == Some((key, ": " + value))
    requires ReadValue(value) == Some((v, rest))
    requires value != "" && value[0] !in {' ', '\t', '\n', '\r'}
    ensures ReadMember(s) == Some(((key, v), rest))
  {
    var t := ": " + value;
    assert t[1..] == " " + value;
    SkipOneSpace(t);
    SkipOneSpace(value);
  }

  lemma {:induction false} MemberReadsBack(m: (string, Json), rest: string)
    requires WellFormed(m.1) && Terminated(rest)
    ensures ReadMember(DumpsMember(m) + rest) == Some((m, rest))
    decreases m, 2
  {
    var chars, text := DumpsChars(m.0), Dumps(m.1);
    var s := "\"" + chars + "\"" + ": " + text + rest;
    assert s[1..] == chars + "\"" + (": " + (text + rest));
    StrReadsBack(m.0, ": " + (text + rest));
    DumpsOpens(m.1);
    ValueReadsBack(m.1, rest);
    KeyThenValue(s, m.0, text + rest, m.1, rest);
  }

  lemma MembersOpen(ms: Members, tail: string)
    requires ms != []
    ensures var s := DumpsMembers(ms) + tail; s != "" && s[0] == '"'
  {
    assert DumpsMember(ms[0])[0] == '"';
  }

  lemma {:induction false} MembersReadBack(ms: Members, rest: string)
    requires ms != [] && forall i :: 0 <= i < |ms| ==> WellFormed(ms[i].1)
    ensures ReadMembers(DumpsMembers(ms) + "}" + rest) == Some((ms, rest))
    decreases ms, 2
  {
    var m, more := ms[0], ms[1..];
    assert ms == [m] + more;
    if more == [] {
      MemberReadsBack(m, "}" + rest);
      LastMember(DumpsMember(m), m, rest);
      assert ms == [m];
    } else {
      var next := DumpsMembers(more) + "}" + rest;
      ListLayout(DumpsMember(m), DumpsMembers(more), "}", rest);
      MemberReadsBack(m, ", " + next);
      MembersReadBack(more, rest);
      MembersOpen(more, "}" + rest);
      Text.Reassociate(DumpsMembers(more), "}", rest);
      MoreMembers(DumpsMember(m), m, next, more, rest);
    }
  }

  lemma LoadsWhole(s: string, j: Json)
    requires ReadValue(s) == Some((j, "")) && s != "" && s[0] !in {' ', '\t', '\n', '\r'}
    ensures Loads(s) == Some(j)
  {
    SkipOneSpace(s);
  }

  /** Every value a Python dict can hold is read back unchanged. */
  lemma LoadsDumps(j: Json)
    requires WellFormed(j)
    ensures Loads(Dumps(j)) == Some(j)
  {
    ValueReadsBack(j, "");
    DumpsOpens(j);
    assert Dumps(j) + "" == Dumps(j);
    LoadsWhole(Dumps(j), j);
  }

  /** A later member of the same key replaces the earlier one, in its place. */
  lemma {:induction false} SetKeySets(ms: Members, key: string, v: Json)
    ensures Get(SetKey(ms, key, v), key) == Some(v)
    ensures forall k :: k != key ==> Get(SetKey(ms, key, v), k) == Get(ms, k)
    ensures DistinctKeys(ms) ==> DistinctKeys(SetKey(ms, key, v))
  {
    if ms == [] {
    } else {
      SetKeySets(ms[1..], key, v);
      SetKeyKeeps(ms, key, v);
      assert ms == [ms[0]] + ms[1..];
    }
  }

  lemma {:induction false} SetKeyKeeps(ms: Members, key: string, v: Json)
    ensures DistinctKeys(ms) ==> DistinctKeys(SetKey(ms, key, v))
    ensures forall i :: 0 <= i < |SetKey(ms, key, v)| ==>
              SetKey(ms, key, v)[i].0 == key || HasKey(ms, SetKey(ms, key, v)[i].0)
  {
    if ms == [] {
    } else {
      SetKeyKeeps(ms[1..], key, v);
      assert ms[0].0 == ms[0].0 && HasKey(ms, ms[0].0);
      forall k | HasKey(ms[1..], k)
        ensures HasKey(ms, k)
      {
        var i :| 0 <= i < |ms[1..]| && ms[1..][i].0 == k;
        assert ms[i + 1].0 == k;
      }
    }
  }

  lemma PlainMember(value: Json, text: string)
    requires Dumps(value) == text
    ensures DumpsMember(("a", value)) == "\"a\": " + text
  {
    assert "a"[1..] == "" && DumpsChars("a") == "a";
  }

  lemma ListLayoutIs()
    ensures Dumps(Arr([Int(1), Null])) == "[1, null]"
  {
    assert [Int(1), Null][1..] == [Null];
    assert DumpsItems([Int(1), Null]) == "1, null";
  }

  /** The layout of the text: a blank after every comma and colon and none elsewhere. */
  lemma Layout()
    ensures Dumps(Obj([("a", Arr([Int(1), Null])), ("a", Bool(true))])) == "{\"a\": [1, null], \"a\": true}"
  {
    var ms := [("a", Arr([Int(1), Null])), ("a", Bool(true))];
    ListLayoutIs();
    PlainMember(Arr([Int(1), Null]), "[1, null]");
    PlainMember(Bool(true), "true");
    assert ms[1..] == [("a", Bool(true))];
    assert DumpsMembers(ms) == "\"a\": [1, null]" + ", " + "\"a\": true";
  }

  /** Escapes are short where JSON has a short one, and in lower-case hexadecimal elsewhere. */
  lemma EscapeLayout()
    ensures DumpsChars("\"\\\n\r\t") == "\\\"\\\\\\n\\r\\t"
    ensures DumpsChars("\U{e9}") == "\\u00e9"
  {
    var s := "\"\\\n\r\t";
    assert s[1..] == "\\\n\r\t" && s[1..][1..] == "\n\r\t" && "\n\r\t"[1..] == "\r\t" && "\r\t"[1..] == "\t";
    assert DumpsChars("\t") == "\\t" && DumpsChars("\r\t") == "\\r\\t" && DumpsChars("\n\r\t") == "\\n\\r\\t";
    assert DumpsChars("\\\n\r\t") == "\\\\\\n\\r\\t";
    assert DumpsChars("\U{e9}") == DumpsChar('\U{e9}') + "";
  }

  // ----- One line per record -----

  predicate Printable(s: string) {
    forall i :: 0 <= i < |s| ==> ' ' <= s[i] <= '~'
  }

  lemma IntTextPrintable(i: int)
    ensures Printable(IntText(i))
  {
    assert AllDigits(NatText(if i < 0 then -i else i));
  }

  lemma UEscapePrintable(n: nat)
    requires n < 0x1_0000
    ensures Printable(UEscape(n))
  {
  }

  lemma CharPrintable(c: char)
    ensures Printable(DumpsChar(c))
  {
    var n := c as int;
    if n < 0x1_0000 {
      UEscapePrintable(n);
    } else {
      UEscapePrintable(0xD800 + (n - 0x1_0000) / 1024);
      UEscapePrintable(0xDC00 + (n - 0x1_0000) % 1024);
    }
  }

  lemma {:induction false} CharsPrintable(s: string)
    ensures Printable(DumpsChars(s))
  {
    if s == "" {
    } else {
      CharPrintable(s[0]);
      CharsPrintable(s[1..]);
    }
  }

  /** Escaping leaves only printable ASCII: no raw line break survives. */
  lemma {:induction false} DumpsPrintable(j: Json)
    ensures Printable(Dumps(j))
    decreases j, 1
  {
    match j
    case Null =>
    case Bool(_) =>
    case Int(n) => IntTextPrintable(n);
    case Dec(m, e) =>
      IntTextPrintable(m);
      IntTextPrintable(e);
    case Str(s) => CharsPrintable(s);
    case Arr(items) => ItemsPrintable(items);
    case Obj(ms) => MembersPrintable(ms);
  }

  lemma {:induction false} ItemsPrintable(items: seq<Json>)
    ensures Printable(DumpsItems(items))
    decreases items, 0
  {
    if items == [] {
    } else {
      DumpsPrintable(items[0]);
      ItemsPrintable(items[1..]);
    }
  }

  lemma {:induction false} MembersPrintable(ms: Members)
    ensures Printable(DumpsMembers(ms))
    decreases ms, 0
  {
    if ms == [] {
    } else {
      MemberPrintable(ms[0]);
      MembersPrintable(ms[1..]);
    }
  }

  lemma {:induction false} MemberPrintable(m: (string, Json))
    ensures Printable(DumpsMember(m))
    decreases m, 2
  {
    CharsPrintable(m.0);
    DumpsPrintable(m.1);
  }
}
