/** JSON values as the gateway holds them, and the Python and Rego readings of one value. */
module JsonValues {
  import opened Numerals
  import Text

  datatype Option<+T> = None | Some(value: T) {
    function Or(default: T): T {
      match this
      case Some(v) => v
      case None => default
    }
  }

  /** `Int` is a literal without fraction or exponent; `Dec(m, e)` is the float m * 10^e.
      An object lists its members in insertion order. */
  datatype Json =
    | Null
    | Bool(b: bool)
    | Int(n: int)
    | Dec(m: int, e: int)
    | Str(s: string)
    | Arr(items: seq<Json>)
    | Obj(members: Members)

  type Members = seq<(string, Json)>

  /** What is fixed outside the program: the settings, how `str()` renders a value that is not a string, and how
      `repr()` renders a string. */
  datatype Settings = Settings(
    trustedImagePrefixes: seq<string>,
    prefixesText: string,
    maxReplicasThreshold: int,
    strOf: Json -> string,
    reprOf: string -> string)

  predicate HasKey(ms: Members, key: string) {
    exists i :: 0 <= i < |ms| && ms[i].0 == key
  }

  /** The invariant of a Python dict: no key twice. */
  predicate DistinctKeys(ms: Members) {
    forall i, j :: 0 <= i < j < |ms| ==> ms[i].0 != ms[j].0
  }

  /** Every dict inside the value has distinct keys. */
  predicate WellFormed(j: Json) {
    match j
    case Arr(items) => forall i :: 0 <= i < |items| ==> WellFormed(items[i])
    case Obj(ms) => DistinctKeys(ms) && forall i :: 0 <= i < |ms| ==> WellFormed(ms[i].1)
    case _ => true
  }

  /** `params.get(key)`; Rego's `input.params.key` is undefined exactly when this is `None`. */
  function Get(ms: Members, key: string): Option<Json> {
    if ms == [] then None
    else if ms[0].0 == key then Some(ms[0].1)
    else Get(ms[1..], key)
  }

  function GetOr(ms: Members, key: string, default: Json): Json {
    Get(ms, key).Or(default)
  }

  /** Python's `bool(x)`. */
  predicate Truthy(j: Json) {
    match j
    case Null => false
    case Bool(b) => b
    case Int(n) => n != 0
    case Dec(m, _) => m != 0
    case Str(s) => s != ""
    case Arr(items) => items != []
    case Obj(ms) => ms != []
  }

  /** Python's `str(x)`. */
  function PyStr(cfg: Settings, j: Json): string {
    if j.Str? then j.s else cfg.strOf(j)
  }

  /** The values Python counts as false: null, false, zero, and the empty string, list and dict. */
  lemma Falsy(j: Json)
    ensures !Truthy(j) <==>
            j in {Null, Bool(false), Int(0), Str(""), Arr([]), Obj([])} || (j.Dec? && j.m == 0)
  {
  }

  // ----- Python's int(x) -----

  datatype IntResult = Value(n: int) | ValueError | TypeError

  const MAX_STR_DIGITS: nat := 4300

  function Truncate(m: int, e: int): int {
    if e >= 0 then m * Pow10(e) else TruncDiv(m, Pow10(-e))
  }

  function PyInt(j: Json): IntResult {
    match j
    case Bool(b) => Value(if b then 1 else 0)
    case Int(n) => Value(n)
    case Dec(m, e) => Value(Truncate(m, e))
    case Str(s) => IntOfText(Text.Strip(s))
    case _ => TypeError
  }

  /** A numeral: optional sign, digits, single underscores between digits. */
  function IntOfText(t: string): IntResult {
    if t == "" then ValueError
    else if t[0] == '-' then
      match IntOfDigits(t[1..]) case Value(n) => Value(-n) case err => err
    else if t[0] == '+' then IntOfDigits(t[1..])
    else IntOfDigits(t)
  }

  function IntOfDigits(t: string): IntResult {
    if t == "" || !IsDigit(t[0]) then ValueError else
      match WithoutUnderscores(t)
      case Some(ds) => if |ds| <= MAX_STR_DIGITS then Value(NatValue(ds)) else ValueError
      case None => ValueError
  }

  function WithoutUnderscores(t: string): (r: Option<string>)
    ensures r.Some? ==> AllDigits(r.value)
  {
    if t == "" then Some("")
    else if IsDigit(t[0]) then
      match WithoutUnderscores(t[1..]) case Some(ds) => Some([t[0]] + ds) case None => None
    else if t[0] == '_' && |t| > 1 && IsDigit(t[1]) then WithoutUnderscores(t[1..])
    else None
  }

  /** The values `int()` has no reading of. */
  predicate NotScalar(j: Json) {
    j.Null? || j.Arr? || j.Obj?
  }

  /** Digits with single underscores between them, at most 4300 digits. */
  predicate NumeralBody(body: string) {
    && body != "" && IsDigit(body[0]) && IsDigit(body[|body| - 1])
    && (forall i :: 0 <= i < |body| ==> IsDigit(body[i]) || body[i] == '_')
    && (forall i :: 0 < i < |body| ==> body[i - 1] != '_' || body[i] != '_')
    && DigitCount(body) <= MAX_STR_DIGITS
  }

  /** An integer literal with an optional sign. */
  predicate Numeral(t: string) {
    NumeralBody(if t != "" && t[0] in {'-', '+'} then t[1..] else t)
  }

  function DigitCount(s: string): nat {
    if s == "" then 0 else (if IsDigit(s[0]) then 1 else 0) + DigitCount(s[1..])
  }

  predicate NotNumeral(j: Json) {
    j.Str? && !Numeral(Text.Strip(j.s))
  }

  /** Digits and single underscores, and no underscore at the end or before another. */
  predicate Grouped(t: string) {
    && (forall i :: 0 <= i < |t| ==> IsDigit(t[i]) || t[i] == '_')
    && (forall i :: 0 <= i < |t| && t[i] == '_' ==> i + 1 < |t| && IsDigit(t[i + 1]))
  }

  lemma {:induction false} GroupedReads(t: string)
    ensures WithoutUnderscores(t).Some? <==> Grouped(t)
    ensures WithoutUnderscores(t).Some? ==> |WithoutUnderscores(t).value| == DigitCount(t)
  {
    if t == "" {
    } else {
      GroupedReads(t[1..]);
      GroupedTail(t);
    }
  }

  lemma GroupedTail(t: string)
    requires t != ""
    ensures Grouped(t) <==>
            (IsDigit(t[0]) || (t[0] == '_' && |t| > 1 && IsDigit(t[1]))) && Grouped(t[1..])
  {
    if Grouped(t) {
      assert forall i :: 0 <= i < |t[1..]| ==> t[1..][i] == t[i + 1];
    }
    if Grouped(t[1..]) {
      assert forall i :: 0 < i < |t| ==> t[i] == t[1..][i - 1];
      assert forall i :: 0 < i < |t| && t[i] == '_' ==> i < |t[1..]| && IsDigit(t[1..][i]);
    }
  }

  lemma DigitsRaise(body: string)
    ensures IntOfDigits(body).Value? <==> NumeralBody(body)
    ensures !IntOfDigits(body).TypeError?
  {
    GroupedReads(body);
    if body != "" && IsDigit(body[0]) {
      GroupedAlternates(body);
    }
  }

  lemma GroupedAlternates(body: string)
    requires body != "" && IsDigit(body[0])
    ensures Grouped(body) && DigitCount(body) <= MAX_STR_DIGITS <==> NumeralBody(body)
  {
    if Grouped(body) {
      assert IsDigit(body[|body| - 1]);
      forall i | 0 < i < |body| && body[i - 1] == '_'
        ensures IsDigit(body[i])
      {
        var k := i - 1;
        assert body[k] == '_' && k + 1 == i;
      }
    }
    if NumeralBody(body) {
      forall i | 0 <= i < |body| && body[i] == '_'
        ensures i + 1 < |body| && IsDigit(body[i + 1])
      {
        assert i < |body| - 1;
        assert body[i + 1 - 1] != '_' || body[i + 1] != '_';
      }
    }
  }

  /** `int()` raises TypeError exactly on null, arrays and objects, and ValueError exactly on strings that are not an
      integer literal between white space. */
  lemma IntRaises(j: Json)
    ensures PyInt(j).TypeError? <==> NotScalar(j)
    ensures PyInt(j).ValueError? <==> NotNumeral(j)
  {
    if j.Str? {
      var t := Text.Strip(j.s);
      DigitsRaise(t);
      if t != "" && t[0] in {'-', '+'} {
        DigitsRaise(t[1..]);
      }
    }
  }

  /** The digits of a text, without what stands between them. */
  function DigitsOf(t: string): (ds: string)
    ensures AllDigits(ds)
  {
    if t == "" then "" else (if IsDigit(t[0]) then [t[0]] else "") + DigitsOf(t[1..])
  }

  lemma {:induction false} GroupedDigits(t: string)
    ensures WithoutUnderscores(t).Some? ==> WithoutUnderscores(t).value == DigitsOf(t)
  {
    if t == "" {
    } else {
      GroupedDigits(t[1..]);
    }
  }

  /** What `int()` makes of each value it can read: a truth value counts 0 or 1, a float is cut off toward zero, a
      string between white space is the number its digits write, with its sign. */
  lemma IntReads(j: Json)
    ensures j == Bool(false) ==> PyInt(j) == Value(0)
    ensures j == Bool(true) ==> PyInt(j) == Value(1)
    ensures j.Int? ==> PyInt(j) == Value(j.n)
    ensures j.Dec? && j.e >= 0 ==> PyInt(j) == Value(j.m * Pow10(j.e))
    ensures j.Dec? && j.e < 0 ==> PyInt(j) == Value(TruncDiv(j.m, Pow10(-j.e)))
    ensures j.Str? && PyInt(j).Value? ==>
              var t := Text.Strip(j.s); var n: int := NatValue(DigitsOf(t));
              t != "" && PyInt(j).n == if t[0] == '-' then -n else n
  {
    if j.Str? {
      var t := Text.Strip(j.s);
      GroupedDigits(t);
      if t != "" {
        GroupedDigits(t[1..]);
        assert "" + DigitsOf(t[1..]) == DigitsOf(t[1..]);
      }
    }
  }

  // ----- Rego's ordering -----

  /** Rego orders values of different types by type: null, boolean, number, string, array, object. */
  function TypeRank(j: Json): nat {
    match j
    case Null => 0
    case Bool(_) => 1
    case Int(_) => 2
    case Dec(_, _) => 2
    case Str(_) => 3
    case Arr(_) => 4
    case Obj(_) => 5
  }

  predicate DecGreater(m: int, e: int, k: int) {
    if e >= 0 then m * Pow10(e) > k else m > k * Pow10(-e)
  }

  /** Rego's `j > k` for a number k. */
  predicate RegoGreater(j: Json, k: int) {
    || TypeRank(j) > TypeRank(Int(k))
    || (j.Int? && j.n > k)
    || (j.Dec? && DecGreater(j.m, j.e, k))
  }

  /** A float as a real number. */
  ghost function RealOf(m: int, e: int): real {
    if e >= 0 then (m * Pow10(e)) as real else m as real / Pow10(-e) as real
  }

  /** Rego finds greater than a number k every string, array and object, no null and no boolean, and of the numbers
      those that are. */
  lemma RegoOrder(j: Json, k: int)
    ensures j.Str? || j.Arr? || j.Obj? ==> RegoGreater(j, k)
    ensures j.Null? || j.Bool? ==> !RegoGreater(j, k)
    ensures j.Int? ==> (RegoGreater(j, k) <==> j.n > k)
    ensures j.Dec? ==> (RegoGreater(j, k) <==> RealOf(j.m, j.e) > k as real)
  {
    if j.Dec? && j.e < 0 {
      Quotient(j.m, Pow10(-j.e), k);
    }
  }

  lemma Quotient(m: int, d: nat, k: int)
    requires d >= 1
    ensures m as real / d as real > k as real <==> m > k * d
  {
    var q := m as real / d as real;
    assert q * d as real == m as real;
    assert (k * d) as real == k as real * d as real;
    if q > k as real {
      assert (q - k as real) * d as real > 0.0;
    } else {
      assert (k as real - q) * d as real >= 0.0;
    }
  }

  /** Where Rego does not find a value greater than k, `int()` yields at most k, or raises TypeError on null. */
  lemma IntWithinRegoBound(j: Json, k: nat)
    requires k >= 1 && !RegoGreater(j, k)
    ensures match PyInt(j) case Value(n) => n <= k case err => err == TypeError && j == Null
  {
    if j.Dec? && j.e < 0 {
      var d := Pow10(-j.e);
      TruncDivBound(j.m, d, k);
      assert (k + 1) * d == k * d + d;
    }
  }

  /** Conversely `int()` of a number exceeds k only where Rego finds it greater. */
  lemma IntExceedsRegoBound(j: Json, k: nat)
    requires j.Int? || j.Dec?
    requires k >= 1 && PyInt(j).n > k
    ensures RegoGreater(j, k)
  {
    if !RegoGreater(j, k) {
      IntWithinRegoBound(j, k);
    }
  }

  /** A key is found exactly when some member has it. */
  lemma {:induction false} GetFindsKeys(ms: Members, key: string)
    ensures Get(ms, key).Some? <==> HasKey(ms, key)
  {
    if ms == [] {
    } else {
      GetFindsKeys(ms[1..], key);
      assert forall i :: 0 <= i < |ms[1..]| ==> ms[1..][i] == ms[i + 1];
      if HasKey(ms[1..], key) {
        var i :| 0 <= i < |ms[1..]| && ms[1..][i].0 == key;
        assert ms[i + 1].0 == key;
      }
      if HasKey(ms, key) && ms[0].0 != key {
        var i :| 0 <= i < |ms| && ms[i].0 == key;
        assert ms[1..][i - 1].0 == key;
      }
    }
  }

  lemma {:induction false} GetFindsMember(ms: Members, i: nat)
    requires i < |ms| && DistinctKeys(ms)
    ensures Get(ms, ms[i].0) == Some(ms[i].1)
  {
    if i == 0 {
    } else {
      assert ms[0].0 != ms[i].0 && ms[1..][i - 1] == ms[i];
      GetFindsMember(ms[1..], i - 1);
    }
  }
}
