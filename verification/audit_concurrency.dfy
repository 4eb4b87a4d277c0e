/** `log` called from many threads at once: a line reaches the file in pieces, any write may fail half-way, and only the
    module lock of app/audit/logger.py keeps the pieces of different lines apart. */
module AuditConcurrency {
  import opened JsonValues
  import opened JsonText
  import opened AuditLogs
  import JsonTorn
  import Text

  /** `sent` counts the characters of the line that are in the file. */
  datatype Writer =
    | Waiting(record: Record)
    | Writing(record: Record, sent: nat)
    | Over

  /** What one writer left in the file, in the order in which the lock was released. */
  datatype Piece = Piece(record: Record, sent: nat, failed: bool)

  datatype State = State(writers: map<nat, Writer>, lock: Option<nat>, file: string, pieces: seq<Piece>)

  const INITIAL := State(map[], None, "", [])

  datatype Move =
    | Call(t: nat, record: Record)
    | Acquire(t: nat)
    | Send(t: nat, chars: nat)
    | Release(t: nat)
    | Fail(t: nat)

  function WholeLine(r: Record): string {
    Line(r) + "\n"
  }

  predicate Enabled(s: State, m: Move) {
    if m.Call? then m.t !in s.writers && WellFormed(Obj(m.record.params))
    else
      m.t in s.writers &&
      var w := s.writers[m.t];
      match m
      case Acquire(_) => w.Waiting? && s.lock == None
      case Send(_, n) => w.Writing? && w.sent + n <= |WholeLine(w.record)|
      case Release(_) => w.Writing? && w.sent == |WholeLine(w.record)|
      case Fail(_) => w.Writing?
  }

  function Step(s: State, m: Move): State
    requires Enabled(s, m)
  {
    match m
    case Call(t, r) => s.(writers := s.writers[t := Waiting(r)])
    case Acquire(t) => s.(writers := s.writers[t := Writing(s.writers[t].record, 0)], lock := Some(t))
    case Send(t, n) =>
      var w := s.writers[t];
      s.(writers := s.writers[t := Writing(w.record, w.sent + n)],
         file := s.file + WholeLine(w.record)[w.sent..w.sent + n])
    case Release(t) => Leave(s, t, false)
    case Fail(t) => Leave(s, t, true)
  }

  function Leave(s: State, t: nat, failed: bool): State
    requires t in s.writers && s.writers[t].Writing?
  {
    var w := s.writers[t];
    s.(writers := s.writers[t := Over], lock := None, pieces := s.pieces + [Piece(w.record, w.sent, failed)])
  }

  function Run(moves: seq<Move>): State {
    if moves == [] then INITIAL else
      var s, m := Run(moves[..|moves| - 1]), moves[|moves| - 1];
      if Enabled(s, m) then Step(s, m) else s
  }

  // ----- What the pieces say -----

  /** The records whose write succeeded. */
  function WrittenOf(ps: seq<Piece>): seq<Record> {
    if ps == [] then [] else
      var last := ps[|ps| - 1];
      WrittenOf(ps[..|ps| - 1]) + (if last.failed then [] else [last.record])
  }

  /** Some write failed after part of its line had reached the file. */
  predicate Torn(ps: seq<Piece>) {
    exists i :: 0 <= i < |ps| && ps[i].failed && ps[i].sent > 0
  }

  predicate PieceOk(p: Piece) {
    && p.sent <= |WholeLine(p.record)|
    && (!p.failed ==> p.sent == |WholeLine(p.record)|)
    && WellFormed(Obj(p.record.params))
  }

  predicate PiecesOk(ps: seq<Piece>) {
    forall i :: 0 <= i < |ps| ==> PieceOk(ps[i])
  }

  function TextOf(ps: seq<Piece>): string
    requires PiecesOk(ps)
  {
    if ps == [] then "" else
      var last := ps[|ps| - 1];
      TextOf(ps[..|ps| - 1]) + WholeLine(last.record)[..last.sent]
  }

  // ----- The invariant -----

  /** The part of its line that the lock holder has sent. */
  function Partial(s: State): string {
    if s.lock.Some? && s.lock.value in s.writers then
      match s.writers[s.lock.value]
      case Writing(r, sent) => if sent <= |WholeLine(r)| then WholeLine(r)[..sent] else ""
      case _ => ""
    else ""
  }

  /** Only the lock holder is writing. */
  ghost predicate Exclusive(s: State) {
    && (forall t :: t in s.writers && s.writers[t].Writing? ==>
          s.lock == Some(t) && s.writers[t].sent <= |WholeLine(s.writers[t].record)|)
    && (s.lock.Some? ==> s.lock.value in s.writers && s.writers[s.lock.value].Writing?)
  }

  ghost predicate AllStorable(s: State) {
    && (forall t :: t in s.writers && (s.writers[t].Waiting? || s.writers[t].Writing?) ==>
          WellFormed(Obj(s.writers[t].record.params)))
    && PiecesOk(s.pieces)
  }

  ghost predicate Inv(s: State) {
    Exclusive(s) && AllStorable(s) && s.file == TextOf(s.pieces) + Partial(s)
  }

  lemma SendsOn(file: string, base: string, whole: string, sent: nat, n: nat)
    requires sent + n <= |whole| && file == base + whole[..sent]
    ensures file + whole[sent..sent + n] == base + whole[..sent + n]
  {
    assert whole[..sent + n] == whole[..sent] + whole[sent..sent + n];
  }

  lemma TextGrows(ps: seq<Piece>, p: Piece)
    requires PiecesOk(ps) && PieceOk(p)
    ensures PiecesOk(ps + [p]) && TextOf(ps + [p]) == TextOf(ps) + WholeLine(p.record)[..p.sent]
  {
    assert (ps + [p])[..|ps|] == ps;
  }

  lemma LeaveFreesLock(s: State, t: nat, failed: bool)
    requires Exclusive(s) && t in s.writers && s.writers[t].Writing?
    ensures Exclusive(Leave(s, t, failed)) && Partial(Leave(s, t, failed)) == ""
    ensures Partial(s) == WholeLine(s.writers[t].record)[..s.writers[t].sent]
  {
  }

  lemma LeaveKeepsInv(s: State, t: nat, failed: bool)
    requires Inv(s) && t in s.writers && s.writers[t].Writing?
    requires !failed ==> s.writers[t].sent == |WholeLine(s.writers[t].record)|
    ensures Inv(Leave(s, t, failed))
  {
    var w := s.writers[t];
    var p := Piece(w.record, w.sent, failed);
    LeaveFreesLock(s, t, failed);
    TextGrows(s.pieces, p);
    assert TextOf(s.pieces + [p]) + "" == TextOf(s.pieces + [p]);
  }

  lemma SendKeepsFile(s: State, t: nat, n: nat)
    requires Inv(s) && Enabled(s, Send(t, n))
    ensures var s' := Step(s, Send(t, n)); s'.file == TextOf(s'.pieces) + Partial(s')
  {
    var w := s.writers[t];
    SendsOn(s.file, TextOf(s.pieces), WholeLine(w.record), w.sent, n);
  }

  lemma SendKeepsInv(s: State, t: nat, n: nat)
    requires Inv(s) && Enabled(s, Send(t, n))
    ensures Inv(Step(s, Send(t, n)))
  {
    SendKeepsFile(s, t, n);
  }

  lemma CallKeepsInv(s: State, t: nat, r: Record)
    requires Inv(s) && Enabled(s, Call(t, r))
    ensures Inv(Step(s, Call(t, r)))
  {
    assert Partial(Step(s, Call(t, r))) == Partial(s);
  }

  lemma AcquireKeepsInv(s: State, t: nat)
    requires Inv(s) && Enabled(s, Acquire(t))
    ensures Inv(Step(s, Acquire(t)))
  {
    assert WholeLine(s.writers[t].record)[..0] == "";
    assert Partial(s) == "" && Partial(Step(s, Acquire(t))) == "";
  }

  lemma StepKeepsInv(s: State, m: Move)
    requires Inv(s) && Enabled(s, m)
    ensures Inv(Step(s, m))
  {
    match m
    case Call(t, r) => CallKeepsInv(s, t, r);
    case Acquire(t) => AcquireKeepsInv(s, t);
    case Send(t, n) => SendKeepsInv(s, t, n);
    case Release(t) => LeaveKeepsInv(s, t, false);
    case Fail(t) => LeaveKeepsInv(s, t, true);
  }

  lemma {:induction false} RunKeepsInv(moves: seq<Move>)
    ensures Inv(Run(moves))
  {
    if moves == [] {
    } else {
      var s, m := Run(moves[..|moves| - 1]), moves[|moves| - 1];
      RunKeepsInv(moves[..|moves| - 1]);
      if Enabled(s, m) {
        StepKeepsInv(s, m);
      }
    }
  }

  /** Lines never interleave: at every moment the file is what the writers before left, each in one piece, followed by
      the part the lock holder has sent. */
  lemma NoPartialWritesMix(moves: seq<Move>)
    ensures var s := Run(moves); PiecesOk(s.pieces) && s.file == TextOf(s.pieces) + Partial(s)
  {
    RunKeepsInv(moves);
  }

  // ----- The lines of the file -----

  predicate Breaks(p: Piece) {
    p.sent == |WholeLine(p.record)|
  }

  /** What follows the last line break: the torn pieces since. */
  function Tail(ps: seq<Piece>): string
    requires PiecesOk(ps)
  {
    if ps == [] then "" else
      var front, p := ps[..|ps| - 1], ps[|ps| - 1];
      if Breaks(p) then "" else if p.sent == 0 then Tail(front) else Tail(front) + Line(p.record)[..p.sent]
  }

  function Head(ps: seq<Piece>): string
    requires PiecesOk(ps)
  {
    if ps == [] then "" else
      var front, p := ps[..|ps| - 1], ps[|ps| - 1];
      if Breaks(p) then Head(front) + (Tail(front) + Line(p.record) + "\n") else Head(front)
  }

  lemma LineHasNoBreaks(r: Record, k: nat)
    requires k <= |Line(r)|
    ensures '\n' !in Line(r)[..k] && '\n' !in Line(r)
  {
    LineHasNoBreak(r);
  }

  lemma {:induction false} FileSplits(ps: seq<Piece>)
    requires PiecesOk(ps)
    ensures TextOf(ps) == Head(ps) + Tail(ps) && AtLineStart(Head(ps)) && '\n' !in Tail(ps)
    ensures AtLineStart(TextOf(ps)) <==> Tail(ps) == ""
  {
    if ps == [] {
    } else {
      var front, p := ps[..|ps| - 1], ps[|ps| - 1];
      FileSplits(front);
      if Breaks(p) {
        assert WholeLine(p.record)[..p.sent] == Line(p.record) + "\n";
        Appended(Head(front), Tail(front), Line(p.record));
        assert Head(ps) + "" == Head(ps);
      } else if p.sent == 0 {
        assert TextOf(front) + "" == TextOf(front);
      } else {
        LineHasNoBreaks(p.record, p.sent);
        assert WholeLine(p.record)[..p.sent] == Line(p.record)[..p.sent];
        Text.Reassociate(Head(front), Tail(front), Line(p.record)[..p.sent]);
      }
      TailEnds(Head(ps), Tail(ps));
    }
  }

  lemma Appended(head: string, tail: string, line: string)
    ensures head + tail + (line + "\n") == head + (tail + line + "\n")
  {
  }

  lemma TailEnds(head: string, tail: string)
    requires AtLineStart(head) && '\n' !in tail
    ensures AtLineStart(head + tail) <==> tail == ""
  {
    if tail == "" {
      assert head + tail == head;
    } else {
      assert tail[|tail| - 1] in tail;
    }
  }

  // ----- What is read back -----

  /** The records written from a line start to the line break. */
  function Complete(ps: seq<Piece>): seq<Record>
    requires PiecesOk(ps)
  {
    if ps == [] then [] else
      var front, p := ps[..|ps| - 1], ps[|ps| - 1];
      Complete(front) + (if Breaks(p) && AtLineStart(TextOf(front)) then [p.record] else [])
  }

  function DanglingPiece(front: seq<Piece>, p: Piece): seq<Record>
    requires PiecesOk(front)
  {
    if p.sent == |Line(p.record)| && AtLineStart(TextOf(front)) then [p.record] else []
  }

  /** A failed write may have left a whole record, without its break, at the very end of the file. */
  function Dangling(ps: seq<Piece>): seq<Record>
    requires PiecesOk(ps)
  {
    if ps == [] then [] else
      var front, p := ps[..|ps| - 1], ps[|ps| - 1];
      if Breaks(p) then []
      else if p.sent == 0 then Dangling(front)
      else DanglingPiece(front, p)
  }

  /** Torn pieces in a row interrupt what follows them, and with what follows they are unreadable. */
  lemma {:induction false} TailTears(ps: seq<Piece>, t: string)
    requires PiecesOk(ps) && JsonTorn.Interrupts(t)
    ensures JsonTorn.Interrupts(Tail(ps) + t)
    ensures Tail(ps) != "" && t != "" ==> Loads(Tail(ps) + t) == None
  {
    if ps == [] || Breaks(ps[|ps| - 1]) {
      assert "" + t == t;
    } else if ps[|ps| - 1].sent == 0 {
      TailTears(ps[..|ps| - 1], t);
    } else {
      var front, p := ps[..|ps| - 1], ps[|ps| - 1];
      var part := Line(p.record)[..p.sent];
      Text.Reassociate(Tail(front), part, t);
      LineInterrupts(p.record, p.sent, t);
      TailTears(front, part + t);
      if t != "" && Tail(front) == "" {
        TornLineUnreadable(p.record, p.sent, t);
        assert "" + (part + t) == part + t;
      }
    }
  }

  lemma WholeLineInterrupts(r: Record)
    requires WellFormed(Obj(r.params))
    ensures JsonTorn.Interrupts(Line(r))
  {
    JsonTorn.NothingInterrupts();
    LineInterrupts(r, |Line(r)|, "");
    assert Line(r)[..|Line(r)|] + "" == Line(r);
  }

  /** The line that a complete write ends is readable exactly when it began at a line start. */
  lemma EndedLine(ps: seq<Piece>, r: Record)
    requires PiecesOk(ps) && WellFormed(Obj(r.params))
    ensures Loads(Tail(ps) + Line(r)) == if AtLineStart(TextOf(ps)) then Some(ToJson(r)) else None
  {
    FileSplits(ps);
    if Tail(ps) == "" {
      LineReadsBack(r);
      assert "" + Line(r) == Line(r);
    } else {
      WholeLineInterrupts(r);
      TailTears(ps, Line(r));
    }
  }

  lemma OneTail(line: string)
    requires '\n' !in line && line != ""
    ensures |ReadLines(line)| == 1
    ensures Readable(ReadLines(line)) == match Loads(line) case Some(v) => [v] case None => []
  {
    Unbroken(line);
    OneReadable(line);
  }

  lemma PartSent(ps: seq<Piece>)
    requires PiecesOk(ps) && ps != [] && ps[|ps| - 1].sent > 0 && !Breaks(ps[|ps| - 1])
    ensures Readable(ReadLines(Tail(ps))) == AsJson(Dangling(ps))
    ensures |ReadLines(Tail(ps))| == 1
  {
    FileSplits(ps);
    OneTail(Tail(ps));
    TornEnd(ps[..|ps| - 1], ps[|ps| - 1]);
  }

  /** What stands after the last break is readable exactly when it is one whole line. */
  lemma {:induction false} LastLine(ps: seq<Piece>)
    requires PiecesOk(ps)
    ensures Readable(ReadLines(Tail(ps))) == AsJson(Dangling(ps))
    ensures |Dangling(ps)| <= |ReadLines(Tail(ps))|
  {
    if ps == [] || Breaks(ps[|ps| - 1]) {
    } else if ps[|ps| - 1].sent == 0 {
      LastLine(ps[..|ps| - 1]);
    } else {
      PartSent(ps);
    }
  }

  lemma TornEnd(front: seq<Piece>, p: Piece)
    requires PiecesOk(front) && PieceOk(p) && 0 < p.sent <= |Line(p.record)|
    ensures var text := Tail(front) + Line(p.record)[..p.sent];
            (match Loads(text) case Some(v) => [v] case None => []) == AsJson(DanglingPiece(front, p))
  {
    var line := Line(p.record);
    if p.sent == |line| {
      assert line[..p.sent] == line;
      EndedLine(front, p.record);
      assert AsJson([p.record]) == [ToJson(p.record)];
    } else {
      JsonTorn.NothingInterrupts();
      LineInterrupts(p.record, p.sent, "");
      assert line[..p.sent] + "" == line[..p.sent];
      TailTears(front, line[..p.sent]);
      TornLineUnreadable(p.record, p.sent, "");
      assert "" + line[..p.sent] == line[..p.sent];
    }
  }

  lemma AsJsonAppends(a: seq<Record>, b: seq<Record>)
    ensures AsJson(a + b) == AsJson(a) + AsJson(b)
  {
  }

  lemma OneReadable(line: string)
    ensures Readable([line]) == match Loads(line) case Some(v) => [v] case None => []
  {
    assert [line][1..] == [];
  }

  /** The number of line breaks written. */
  function BreakCount(ps: seq<Piece>): nat {
    if ps == [] then 0 else BreakCount(ps[..|ps| - 1]) + (if Breaks(ps[|ps| - 1]) then 1 else 0)
  }

  /** One more line break, one more line: readable exactly when its write began at a line start. */
  lemma LineAdded(front: seq<Piece>, r: Record)
    requires PiecesOk(front) && WellFormed(Obj(r.params))
    ensures var text := Head(front) + (Tail(front) + Line(r) + "\n");
            && |ReadLines(text)| == |ReadLines(Head(front))| + 1
            && Readable(ReadLines(text)) == Readable(ReadLines(Head(front)))
                                            + (if AtLineStart(TextOf(front)) then [ToJson(r)] else [])
  {
    FileSplits(front);
    LineHasNoBreak(r);
    var line := Tail(front) + Line(r);
    LinesSplit(Head(front), line + "\n");
    OneLine(line);
    ReadableAppends(ReadLines(Head(front)), [line]);
    OneReadable(line);
    EndedLine(front, r);
  }

  lemma {:induction false} HeadLines(ps: seq<Piece>)
    requires PiecesOk(ps)
    ensures Readable(ReadLines(Head(ps))) == AsJson(Complete(ps))
    ensures |ReadLines(Head(ps))| == BreakCount(ps)
  {
    if ps == [] {
    } else {
      var front, p := ps[..|ps| - 1], ps[|ps| - 1];
      HeadLines(front);
      AsJsonAppends(Complete(front), [p.record]);
      if Breaks(p) {
        LineAdded(front, p.record);
      }
    }
  }

  /** What a reader that skips unreadable lines gets back, however many writes failed half-way: exactly the records that
      were written to their line break from a line start, and a record left whole at the end of the file. So a record
      whose write succeeded is lost exactly when the file did not end in a line break when that write began. */
  lemma SurvivingRecords(ps: seq<Piece>)
    requires PiecesOk(ps)
    ensures ReadSkipping(TextOf(ps)) == AsJson(Complete(ps) + Dangling(ps))
  {
    FileSplits(ps);
    LinesSplit(Head(ps), Tail(ps));
    ReadableAppends(ReadLines(Head(ps)), ReadLines(Tail(ps)));
    HeadLines(ps);
    LastLine(ps);
    AsJsonAppends(Complete(ps), Dangling(ps));
  }

  lemma LogSurvives(moves: seq<Move>)
    ensures var s := Run(moves);
            PiecesOk(s.pieces) && (s.lock == None ==>
              ReadSkipping(s.file) == AsJson(Complete(s.pieces) + Dangling(s.pieces)))
  {
    RunKeepsInv(moves);
    var s := Run(moves);
    SurvivingRecords(s.pieces);
    assert TextOf(s.pieces) + "" == TextOf(s.pieces);
  }

  /** Nothing in the file is a line break to one reader and not to another: it holds no carriage return. */
  lemma {:induction false} NoCarriageReturn(ps: seq<Piece>)
    requires PiecesOk(ps)
    ensures '\r' !in TextOf(ps)
  {
    if ps == [] {
    } else {
      var front, p := ps[..|ps| - 1], ps[|ps| - 1];
      NoCarriageReturn(front);
      DumpsPrintable(ToJson(p.record));
      assert forall c :: c in WholeLine(p.record)[..p.sent] ==> c in WholeLine(p.record);
    }
  }

  // ----- When the whole log reads back -----

  predicate NoBreakFailed(ps: seq<Piece>) {
    forall i :: 0 <= i < |ps| && ps[i].failed ==> !Breaks(ps[i])
  }

  lemma TornGrows(front: seq<Piece>, p: Piece)
    ensures Torn(front + [p]) <==> Torn(front) || (p.failed && p.sent > 0)
    ensures NoBreakFailed(front + [p]) <==> NoBreakFailed(front) && (p.failed ==> !Breaks(p))
  {
    var ps := front + [p];
    assert ps[|front|] == p && forall i :: 0 <= i < |front| ==> ps[i] == front[i];
    if Torn(front) {
      var i :| 0 <= i < |front| && front[i].failed && front[i].sent > 0;
      assert ps[i].failed && ps[i].sent > 0;
    }
  }

  /** Line breaks count the successful writes, and the failed ones that got that far. */
  lemma {:induction false} BreaksCountWrites(ps: seq<Piece>)
    requires PiecesOk(ps)
    ensures BreakCount(ps) >= |WrittenOf(ps)|
    ensures BreakCount(ps) == |WrittenOf(ps)| <==> NoBreakFailed(ps)
  {
    if ps == [] {
    } else {
      var front, p := ps[..|ps| - 1], ps[|ps| - 1];
      assert ps == front + [p];
      BreaksCountWrites(front);
      TornGrows(front, p);
    }
  }

  /** A torn piece without its break costs a record, unless the file ends in it. */
  lemma {:induction false} TornCosts(ps: seq<Piece>)
    requires PiecesOk(ps) && NoBreakFailed(ps)
    ensures |Complete(ps)| <= |WrittenOf(ps)|
    ensures Torn(ps) ==> |Complete(ps)| < |WrittenOf(ps)| || Tail(ps) != ""
  {
    if ps == [] {
    } else {
      var front, p := ps[..|ps| - 1], ps[|ps| - 1];
      assert ps == front + [p];
      TornGrows(front, p);
      TornCosts(front);
      FileSplits(front);
    }
  }

  lemma UntornStep(text: string, rs: seq<Record>, p: Piece)
    requires text == Lines(rs) && PieceOk(p) && !(p.failed && p.sent > 0)
    ensures text + WholeLine(p.record)[..p.sent] == Lines(rs + (if p.failed then [] else [p.record]))
  {
    if p.failed {
      assert text + "" == text && rs + [] == rs;
    } else {
      LinesAppend(rs, p.record);
      assert WholeLine(p.record)[..p.sent] == WholeLine(p.record);
    }
  }

  lemma {:induction false} UntornIsLines(ps: seq<Piece>)
    requires PiecesOk(ps) && !Torn(ps)
    ensures TextOf(ps) == Lines(WrittenOf(ps)) && Storable(WrittenOf(ps))
  {
    if ps == [] {
    } else {
      var front, p := ps[..|ps| - 1], ps[|ps| - 1];
      assert ps == front + [p];
      TornGrows(front, p);
      UntornIsLines(front);
      UntornStep(TextOf(front), WrittenOf(front), p);
    }
  }

  lemma LineCount(ps: seq<Piece>)
    requires PiecesOk(ps)
    ensures |ReadLines(TextOf(ps))| == BreakCount(ps) + (if Tail(ps) == "" then 0 else 1)
    ensures Tail(ps) == "" ==> Dangling(ps) == []
  {
    FileSplits(ps);
    LinesSplit(Head(ps), Tail(ps));
    Unbroken(Tail(ps));
    HeadLines(ps);
    LastLine(ps);
  }

  lemma TornNeverReadsBack(ps: seq<Piece>)
    requires PiecesOk(ps) && Torn(ps)
    ensures ReadLog(TextOf(ps)) != Some(AsJson(WrittenOf(ps)))
  {
    var lines, rs := ReadLines(TextOf(ps)), Complete(ps) + Dangling(ps);
    SurvivingRecords(ps);
    ReadersAgree(lines);
    LineCount(ps);
    BreaksCountWrites(ps);
    assert |AsJson(rs)| == |rs| && |AsJson(WrittenOf(ps))| == |WrittenOf(ps)|;
    if NoBreakFailed(ps) {
      TornCosts(ps);
    }
  }

  /** After any interleaving, whenever nobody holds the lock, reading every line of the file returns exactly the records
      whose write succeeded, in lock order, if and only if no write failed half-way. */
  lemma LogRoundTrip(moves: seq<Move>)
    ensures var s := Run(moves);
            s.lock == None ==> (ReadLog(s.file) == Some(AsJson(WrittenOf(s.pieces))) <==> !Torn(s.pieces))
  {
    RunKeepsInv(moves);
    var s := Run(moves);
    assert TextOf(s.pieces) + "" == TextOf(s.pieces);
    if Torn(s.pieces) {
      TornNeverReadsBack(s.pieces);
    } else {
      UntornIsLines(s.pieces);
      LogReadsBack(WrittenOf(s.pieces));
    }
  }

  /** Whatever was left of one record, even all of it but the break, makes the next record unreadable. */
  lemma TornWriteLosesNextRecord(q: Record, k: nat, r: Record)
    requires WellFormed(Obj(q.params)) && WellFormed(Obj(r.params)) && 0 < k <= |Line(q)|
    ensures Loads(Line(q)[..k] + Line(r)) == None
  {
    WholeLineInterrupts(r);
    TornLineUnreadable(q, k, Line(r));
  }
}
