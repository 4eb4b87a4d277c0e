/** The append-only audit log: one JSON line per record (app/audit/logger.py). */
module AuditLogs {
  import opened JsonValues
  import opened JsonText
  import JsonTorn
  import Text

  datatype Record = Record(
    timestamp: string,
    requestId: string,
    identity: string,
    role: string,
    action: string,
    resource: string,
    namespace: string,
    params: Members,
    riskLevel: string,
    riskScore: int,
    riskReasons: seq<string>,
    decision: string,
    opaReason: Option<string>,
    error: Option<string>)

  function TextOrNull(t: Option<string>): Json {
    match t case Some(s) => Str(s) case None => Null
  }

  function Texts(ss: seq<string>): seq<Json> {
    seq(|ss|, i requires 0 <= i < |ss| => Str(ss[i]))
  }

  function Fields(r: Record): Members {
    [ ("timestamp", Str(r.timestamp)),
      ("request_id", Str(r.requestId)),
      ("identity", Str(r.identity)),
      ("role", Str(r.role)),
      ("action", Str(r.action)),
      ("resource", Str(r.resource)),
      ("namespace", Str(r.namespace)),
      ("params", Obj(r.params)),
      ("risk_level", Str(r.riskLevel)),
      ("risk_score", Int(r.riskScore)),
      ("risk_reasons", Arr(Texts(r.riskReasons))),
      ("decision", Str(r.decision)),
      ("opa_reason", TextOrNull(r.opaReason)),
      ("error", TextOrNull(r.error)) ]
  }

  function ToJson(r: Record): Json {
    Obj(Fields(r))
  }

  function Line(r: Record): string {
    Dumps(ToJson(r))
  }

  function Joined(lines: seq<string>): string {
    if lines == [] then "" else Joined(lines[..|lines| - 1]) + (lines[|lines| - 1] + "\n")
  }

  function EachLine(rs: seq<Record>): seq<string> {
    seq(|rs|, i requires 0 <= i < |rs| => Line(rs[i]))
  }

  /** What the file holds after these records were appended. */
  function Lines(rs: seq<Record>): string {
    Joined(EachLine(rs))
  }

  // ----- The reader: `readlines`, then `json.loads` on each line -----

  function LineLength(s: string): (k: nat)
    ensures k <= |s| && '\n' !in s[..k]
    ensures k < |s| ==> s[k] == '\n'
  {
    if s == "" || s[0] == '\n' then 0 else
      var k := 1 + LineLength(s[1..]);
      assert s[..k] == [s[0]] + s[1..][..k - 1];
      k
  }

  function ReadLines(s: string): seq<string> {
    if s == "" then [] else
      var k := LineLength(s);
      [s[..k]] + (if k < |s| then ReadLines(s[k + 1..]) else [])
  }

  function LoadAll(lines: seq<string>): Option<seq<Json>> {
    if lines == [] then Some([]) else
      match (Loads(lines[0]), LoadAll(lines[1..]))
      case (Some(v), Some(vs)) => Some([v] + vs)
      case _ => None
  }

  function ReadLog(content: string): Option<seq<Json>> {
    LoadAll(ReadLines(content))
  }

  /** The values of the lines that can be read; the others are skipped. */
  function Readable(lines: seq<string>): seq<Json> {
    if lines == [] then []
    else (match Loads(lines[0]) case Some(v) => [v] case None => []) + Readable(lines[1..])
  }

  /** The log as its summary reads it: a line that is not JSON is skipped. */
  function ReadSkipping(content: string): seq<Json> {
    Readable(ReadLines(content))
  }

  // ----- The round trip -----

  /** The params of every record are values that Python dicts can hold. */
  predicate Storable(rs: seq<Record>) {
    forall i :: 0 <= i < |rs| ==> WellFormed(Obj(rs[i].params))
  }

  const KEYS: seq<string> := [
    "timestamp", "request_id", "identity", "role", "action", "resource", "namespace",
    "params", "risk_level", "risk_score", "risk_reasons", "decision", "opa_reason", "error"
  ]

  lemma FieldKeys(r: Record)
    ensures |Fields(r)| == |KEYS| && forall i :: 0 <= i < |KEYS| ==> Fields(r)[i].0 == KEYS[i]
  {
  }

  /** No two of the fourteen keys are equal: two keys of one length differ at a position. */
  lemma KeysDistinct()
    ensures forall i, j :: 0 <= i < j < |KEYS| ==> KEYS[i] != KEYS[j]
  {
    forall i, j | 0 <= i < j < |KEYS|
      ensures KEYS[i] != KEYS[j]
    {
      KeyDiffers(KEYS[i], KEYS[j], i, j);
    }
  }

  lemma KeyDiffers(a: string, b: string, i: nat, j: nat)
    requires i < j < |KEYS| && a == KEYS[i] && b == KEYS[j]
    ensures a != b
  {
    assert |a| != |b| || a[0] != b[0] || a[|a| - 1] != b[|b| - 1] || a[2] != b[2] || a[5] != b[5];
  }

  lemma RecordWellFormed(r: Record)
    requires WellFormed(Obj(r.params))
    ensures WellFormed(ToJson(r))
  {
    FieldKeys(r);
    KeysDistinct();
    var ms := Fields(r);
    forall i | 0 <= i < |ms|
      ensures WellFormed(ms[i].1)
    {
    }
  }

  lemma JoinedAppend(lines: seq<string>, line: string)
    ensures Joined(lines + [line]) == Joined(lines) + (line + "\n")
  {
    assert (lines + [line])[..|lines|] == lines;
  }

  lemma LinesAppend(rs: seq<Record>, r: Record)
    ensures Lines(rs + [r]) == Lines(rs) + (Line(r) + "\n")
  {
    assert EachLine(rs + [r]) == EachLine(rs) + [Line(r)];
    JoinedAppend(EachLine(rs), Line(r));
  }

  /** The file seen from its first line. */
  lemma {:induction false} JoinedFromFront(line: string, lines: seq<string>)
    ensures Joined([line] + lines) == line + "\n" + Joined(lines)
  {
    if lines == [] {
      JoinedAppend([], line);
      assert [] + [line] == [line] + lines;
    } else {
      var front, last := lines[..|lines| - 1], lines[|lines| - 1];
      JoinedFromFront(line, front);
      assert [line] + lines == ([line] + front) + [last];
      JoinedAppend([line] + front, last);
      Text.Reassociate(line + "\n", Joined(front), last + "\n");
    }
  }

  lemma {:induction false} LineLengthIs(line: string, rest: string)
    requires '\n' !in line
    ensures LineLength(line + "\n" + rest) == |line|
  {
    if line != "" {
      assert line[0] in line && (line + "\n" + rest)[1..] == line[1..] + "\n" + rest;
      assert forall c :: c in line[1..] ==> c in line;
      LineLengthIs(line[1..], rest);
    } else {
      assert line + "\n" + rest == "\n" + rest;
    }
  }

  lemma ReadFirst(line: string, rest: string)
    requires '\n' !in line
    ensures ReadLines(line + "\n" + rest) == [line] + ReadLines(rest)
  {
    var s := line + "\n" + rest;
    LineLengthIs(line, rest);
    assert s[..|line|] == line && s[|line| + 1..] == rest;
  }

  /** Lines without a break in them are read back one by one. */
  lemma {:induction false} JoinedReadsBack(lines: seq<string>)
    requires forall i :: 0 <= i < |lines| ==> '\n' !in lines[i]
    ensures ReadLines(Joined(lines)) == lines
  {
    if lines == [] {
    } else {
      var line, rest := lines[0], lines[1..];
      assert lines == [line] + rest;
      JoinedFromFront(line, rest);
      ReadFirst(line, Joined(rest));
      JoinedReadsBack(rest);
    }
  }

  lemma LineHasNoBreak(r: Record)
    ensures '\n' !in Line(r)
  {
    DumpsPrintable(ToJson(r));
  }

  lemma LineReadsBack(r: Record)
    requires WellFormed(Obj(r.params))
    ensures Loads(Line(r)) == Some(ToJson(r))
  {
    RecordWellFormed(r);
    LoadsDumps(ToJson(r));
  }

  lemma {:induction false} LoadsEach(lines: seq<string>, vs: seq<Json>)
    requires |lines| == |vs| && forall i :: 0 <= i < |vs| ==> Loads(lines[i]) == Some(vs[i])
    ensures LoadAll(lines) == Some(vs)
  {
    if vs == [] {
    } else {
      LoadsEach(lines[1..], vs[1..]);
      assert vs == [vs[0]] + vs[1..];
    }
  }

  function AsJson(rs: seq<Record>): seq<Json> {
    seq(|rs|, i requires 0 <= i < |rs| => ToJson(rs[i]))
  }

  /** Reading the log back returns exactly the appended records, in order. */
  lemma LogReadsBack(rs: seq<Record>)
    requires Storable(rs)
    ensures ReadLog(Lines(rs)) == Some(AsJson(rs))
  {
    var lines, vs := EachLine(rs), AsJson(rs);
    forall i | 0 <= i < |rs|
      ensures '\n' !in lines[i] && Loads(lines[i]) == Some(vs[i])
    {
      LineHasNoBreak(rs[i]);
      LineReadsBack(rs[i]);
    }
    JoinedReadsBack(lines);
    LoadsEach(lines, vs);
  }

  /** The two readers agree exactly when no line is skipped. */
  lemma {:induction false} ReadersAgree(lines: seq<string>)
    ensures |Readable(lines)| <= |lines|
    ensures LoadAll(lines) == if |Readable(lines)| == |lines| then Some(Readable(lines)) else None
  {
    if lines == [] {
    } else {
      ReadersAgree(lines[1..]);
    }
  }

  lemma {:induction false} ReadableAppends(a: seq<string>, b: seq<string>)
    ensures Readable(a + b) == Readable(a) + Readable(b)
  {
    if a == [] {
      assert a + b == b;
    } else {
      assert (a + b)[1..] == a[1..] + b;
      ReadableAppends(a[1..], b);
    }
  }

  /** The text ends at a line break, or is empty. */
  predicate AtLineStart(text: string) {
    text == "" || text[|text| - 1] == '\n'
  }

  lemma OneLine(line: string)
    requires '\n' !in line
    ensures ReadLines(line + "\n") == [line]
  {
    ReadFirst(line, "");
    assert line + "\n" + "" == line + "\n";
  }

  lemma {:induction false} UnbrokenLength(line: string)
    requires '\n' !in line
    ensures LineLength(line) == |line|
  {
    if line == "" {
    } else {
      assert line[0] in line;
      assert forall c :: c in line[1..] ==> c in line;
      UnbrokenLength(line[1..]);
    }
  }

  lemma Unbroken(line: string)
    requires '\n' !in line
    ensures ReadLines(line) == if line == "" then [] else [line]
  {
    UnbrokenLength(line);
    assert line[..|line|] == line;
  }

  lemma FirstLine(head: string) returns (line: string, rest: string)
    requires AtLineStart(head) && head != ""
    ensures head == line + "\n" + rest && '\n' !in line && AtLineStart(rest)
  {
    var k := LineLength(head);
    EndsInBreak(head);
    line, rest := head[..k], head[k + 1..];
    assert rest != "" ==> rest[|rest| - 1] == head[|head| - 1];
  }

  lemma LineBefore(line: string, rest: string, tail: string)
    requires '\n' !in line && ReadLines(rest + tail) == ReadLines(rest) + ReadLines(tail)
    ensures ReadLines(line + "\n" + rest + tail) == ReadLines(line + "\n" + rest) + ReadLines(tail)
  {
    ReadFirst(line, rest);
    ReadFirst(line, rest + tail);
    Text.Reassociate(line + "\n", rest, tail);
    Prepended(line, ReadLines(rest), ReadLines(tail));
  }

  lemma Prepended(line: string, a: seq<string>, b: seq<string>)
    ensures [line] + (a + b) == [line] + a + b
  {
  }

  /** Text that begins at a line start is read on its own. */
  lemma {:induction false} LinesSplit(head: string, tail: string)
    requires AtLineStart(head)
    ensures ReadLines(head + tail) == ReadLines(head) + ReadLines(tail)
    decreases |head|
  {
    if head == "" {
      assert head + tail == tail;
    } else {
      var line, rest := FirstLine(head);
      LinesSplit(rest, tail);
      LineBefore(line, rest, tail);
    }
  }

  lemma EndsInBreak(head: string)
    requires AtLineStart(head) && head != ""
    ensures LineLength(head) < |head|
  {
    assert head[|head| - 1] in head[..|head|];
  }

  /** The first characters of a line interrupt whatever they are appended to. */
  lemma LineInterrupts(r: Record, k: nat, t: string)
    requires WellFormed(Obj(r.params)) && k <= |Line(r)| && JsonTorn.Interrupts(t)
    ensures JsonTorn.Interrupts(Line(r)[..k] + t)
  {
    RecordWellFormed(r);
    FieldKeys(r);
    JsonTorn.TornInterrupts(Fields(r), k, t);
  }

  /** A line that was cut off, or whole but followed by more, is unreadable. */
  lemma TornLineUnreadable(r: Record, k: nat, t: string)
    requires WellFormed(Obj(r.params)) && JsonTorn.Interrupts(t)
    requires 0 < k <= |Line(r)| && (k < |Line(r)| || t != "")
    ensures Loads(Line(r)[..k] + t) == None
  {
    RecordWellFormed(r);
    JsonTorn.TornIsUnreadable(Fields(r), k, t);
  }

  lemma FieldAt(r: Record, i: nat)
    requires i < |KEYS|
    ensures Get(Fields(r), KEYS[i]) == Some(Fields(r)[i].1)
  {
    FieldKeys(r);
    KeysDistinct();
    GetFindsMember(Fields(r), i);
  }

  /** Which value of the record stands under which key of its JSON object. */
  lemma WhoAndWhat(r: Record)
    ensures var ms := Fields(r);
            && Get(ms, "timestamp") == Some(Str(r.timestamp))
            && Get(ms, "request_id") == Some(Str(r.requestId))
            && Get(ms, "identity") == Some(Str(r.identity))
            && Get(ms, "role") == Some(Str(r.role))
            && Get(ms, "action") == Some(Str(r.action))
            && Get(ms, "resource") == Some(Str(r.resource))
            && Get(ms, "namespace") == Some(Str(r.namespace))
            && Get(ms, "params") == Some(Obj(r.params))
  {
    FieldAt(r, 0);
    FieldAt(r, 1);
    FieldAt(r, 2);
    FieldAt(r, 3);
    FieldAt(r, 4);
    FieldAt(r, 5);
    FieldAt(r, 6);
    FieldAt(r, 7);
  }

  lemma RiskAndDecision(r: Record)
    ensures var ms := Fields(r);
            && Get(ms, "risk_level") == Some(Str(r.riskLevel))
            && Get(ms, "risk_score") == Some(Int(r.riskScore))
            && Get(ms, "decision") == Some(Str(r.decision))
            && (r.opaReason.Some? ==> Get(ms, "opa_reason") == Some(Str(r.opaReason.value)))
            && (r.opaReason.None? ==> Get(ms, "opa_reason") == Some(Null))
            && (r.error.None? ==> Get(ms, "error") == Some(Null))
            && |ms| == 14
  {
    FieldAt(r, 8);
    FieldAt(r, 9);
    FieldAt(r, 11);
    FieldAt(r, 12);
    FieldAt(r, 13);
  }

  lemma ReasonsInOrder(r: Record)
    ensures var j := Get(Fields(r), "risk_reasons");
            && j.Some? && j.value.Arr? && |j.value.items| == |r.riskReasons|
            && forall i :: 0 <= i < |r.riskReasons| ==> j.value.items[i] == Str(r.riskReasons[i])
  {
    FieldAt(r, 10);
  }

  lemma TextsInjective(a: seq<string>, b: seq<string>)
    requires Texts(a) == Texts(b)
    ensures a == b
  {
    assert |a| == |Texts(a)| == |Texts(b)| == |b|;
    forall i | 0 <= i < |a|
      ensures a[i] == b[i]
    {
      assert Texts(a)[i] == Texts(b)[i];
    }
  }

  /** The JSON form loses nothing of a record. */
  lemma ToJsonInjective(a: Record, b: Record)
    requires ToJson(a) == ToJson(b)
    ensures a == b
  {
    var fa, fb := Fields(a), Fields(b);
    assert forall i :: 0 <= i < 14 ==> fa[i].1 == fb[i].1;
    TextsInjective(a.riskReasons, b.riskReasons);
  }

  // ----- The logger -----

  class AuditLog {
    var content: string
    ghost var records: seq<Record>

    ghost predicate Valid()
      reads this
    {
      content == Lines(records)
    }

    constructor ()
      ensures Valid() && records == []
    {
      content, records := "", [];
    }

    /** Appends one line; when the file cannot be opened the record is dropped and the caller never learns. */
    method Log(record: Record, canOpen: bool)
      requires Valid()
      modifies this
      ensures Valid() && records == old(records) + (if canOpen then [record] else [])
      ensures content == old(content) + (if canOpen then Line(record) + "\n" else "")
    {
      var line := Line(record);
      if canOpen {
        LinesAppend(records, record);
        content := content + (line + "\n");
        records := records + [record];
      }
    }
  }
}
