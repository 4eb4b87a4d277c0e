/** The gateway as its event loop runs it. The handlers are coroutines whose only suspension point is the request to
    OPA, so everything else between two suspensions happens in one go: a macro step is a run of statements of one
    handler. */
module EventLoop {
  import opened JsonValues
  import opened AuditLogs
  import opened ApprovalQueues
  import opened Lifecycle
  import opened Traces
  import opened Gateway
  import opened Safety
  import opened Guarantees
  import Conservation
  import Scorer

  predicate SubAtRest(f: Submission) {
    f.AwaitingOpa? || f.Finished?
  }

  function SubRank(f: Submission): nat {
    match f
    case Entered(_) => 5
    case Verified(_, _, _) => 4
    case Assessed(_) => 3
    case Ruled(_, _, _) => 2
    case InQueue(_, _) => 1
    case HasRun(_, _) => 1
    case _ => 0
  }

  function AppRank(f: Approval): nat {
    match f
    case Called(_, _, _) => 4
    case Identified(_, _, _, _) => 3
    case Holding(_, _, _, _) => 2
    case HasExecuted(_, _, _) => 1
    case Over(_) => 0
  }

  /** A submission runs until it awaits OPA or returns. */
  function RunSub(cfg: Settings, s: Sys, id: string, c: Choice): Sys
    requires id in s.subs
    decreases SubRank(s.subs[id])
  {
    if SubAtRest(s.subs[id]) then s else RunSub(cfg, Step(cfg, s, RunSubmission(id, c)), id, c)
  }

  /** An approval runs until it returns. */
  function RunApp(cfg: Settings, s: Sys, tid: nat, c: Choice): Sys
    requires tid in s.apps
    decreases AppRank(s.apps[tid])
  {
    if s.apps[tid].Over? then s else RunApp(cfg, Step(cfg, s, RunApproval(tid, c)), tid, c)
  }

  datatype Turn =
    | Request(id: string, action: string, resource: string, namespace: string, params: Members, choice: Choice)
    | OpaReplied(id: string, choice: Choice)
    | ApproveRequest(tid: nat, target: string, approved: bool, comment: string, choice: Choice)

  function Take(cfg: Settings, s: Sys, turn: Turn): Sys {
    match turn
    case Request(id, action, resource, namespace, params, c) =>
      var m := Submit(id, action, resource, namespace, params);
      if Enabled(s, m) then RunSub(cfg, Step(cfg, s, m), id, c) else s
    case OpaReplied(id, c) =>
      if id in s.subs && s.subs[id].AwaitingOpa? then RunSub(cfg, Step(cfg, s, RunSubmission(id, c)), id, c) else s
    case ApproveRequest(tid, target, approved, comment, c) =>
      var m := Approve(tid, target, approved, comment);
      if Enabled(s, m) then RunApp(cfg, Step(cfg, s, m), tid, c) else s
  }

  function Play(cfg: Settings, turns: seq<Turn>): Sys {
    if turns == [] then INITIAL else Take(cfg, Play(cfg, turns[..|turns| - 1]), turns[|turns| - 1])
  }

  // ----- The event loop is one way to interleave the statements -----

  lemma RunOneMore(cfg: Settings, moves: seq<Move>, m: Move)
    ensures Run(cfg, moves + [m]) == StepOrStay(cfg, Run(cfg, moves), m)
  {
    assert (moves + [m])[..|moves|] == moves;
  }

  lemma SubRankFalls(cfg: Settings, s: Sys, id: string, c: Choice)
    requires id in s.subs && !SubAtRest(s.subs[id])
    ensures Enabled(s, RunSubmission(id, c))
    ensures var s' := Step(cfg, s, RunSubmission(id, c)); id in s'.subs && SubRank(s'.subs[id]) < SubRank(s.subs[id])
  {
  }

  lemma {:induction false} SubUnfolds(cfg: Settings, moves: seq<Move>, id: string, c: Choice) returns (more: seq<Move>)
    requires id in Run(cfg, moves).subs
    ensures Run(cfg, more) == RunSub(cfg, Run(cfg, moves), id, c)
    decreases SubRank(Run(cfg, moves).subs[id])
  {
    if SubAtRest(Run(cfg, moves).subs[id]) {
      more := moves;
    } else {
      SubRankFalls(cfg, Run(cfg, moves), id, c);
      RunOneMore(cfg, moves, RunSubmission(id, c));
      more := SubUnfolds(cfg, moves + [RunSubmission(id, c)], id, c);
    }
  }

  lemma {:induction false} AppUnfolds(cfg: Settings, moves: seq<Move>, tid: nat, c: Choice) returns (more: seq<Move>)
    requires tid in Run(cfg, moves).apps
    ensures Run(cfg, more) == RunApp(cfg, Run(cfg, moves), tid, c)
    decreases AppRank(Run(cfg, moves).apps[tid])
  {
    if Run(cfg, moves).apps[tid].Over? {
      more := moves;
    } else {
      RunOneMore(cfg, moves, RunApproval(tid, c));
      more := AppUnfolds(cfg, moves + [RunApproval(tid, c)], tid, c);
    }
  }

  lemma TurnUnfolds(cfg: Settings, moves: seq<Move>, turn: Turn) returns (more: seq<Move>)
    ensures Run(cfg, more) == Take(cfg, Run(cfg, moves), turn)
  {
    var s := Run(cfg, moves);
    more := moves;
    match turn
    case Request(id, action, resource, namespace, params, c) =>
      var m := Submit(id, action, resource, namespace, params);
      if Enabled(s, m) {
        RunOneMore(cfg, moves, m);
        more := SubUnfolds(cfg, moves + [m], id, c);
      }
    case OpaReplied(id, c) =>
      if id in s.subs && s.subs[id].AwaitingOpa? {
        RunOneMore(cfg, moves, RunSubmission(id, c));
        more := SubUnfolds(cfg, moves + [RunSubmission(id, c)], id, c);
      }
    case ApproveRequest(tid, target, approved, comment, c) =>
      var m := Approve(tid, target, approved, comment);
      if Enabled(s, m) {
        RunOneMore(cfg, moves, m);
        more := AppUnfolds(cfg, moves + [m], tid, c);
      }
  }

  /** Every state of the event loop is a state of the statement machine, so whatever holds of every interleaving of
      statements holds of the event loop. */
  lemma {:induction false} PlayIsRun(cfg: Settings, turns: seq<Turn>) returns (moves: seq<Move>)
    ensures Run(cfg, moves) == Play(cfg, turns)
  {
    if turns == [] {
      moves := [];
    } else {
      var front := PlayIsRun(cfg, turns[..|turns| - 1]);
      moves := TurnUnfolds(cfg, front, turns[|turns| - 1]);
    }
  }

  // ----- Between two turns -----

  ghost predicate AtRest(s: Sys) {
    && (forall id :: id in s.subs ==> SubAtRest(s.subs[id]))
    && (forall tid :: tid in s.apps ==> s.apps[tid].Over?)
  }

  /** Every queued request has had its pending record written (or lost). */
  ghost predicate AllNoted(cfg: Settings, s: Sys) {
    forall id :: LifeAt(cfg, s.world, id).Some? ==>
      var life := LifeAt(cfg, s.world, id).value; life.Held? ==> life.noted
  }

  /** No request was taken before its pending record was written. */
  ghost predicate NeverOvertaken(cfg: Settings, s: Sys) {
    forall id :: LifeAt(cfg, s.world, id).Some? ==>
      var life := LifeAt(cfg, s.world, id).value; life.Held? ==> !life.overtaken
  }

  ghost predicate Tidy(cfg: Settings, s: Sys) {
    Inv(cfg, s) && NeverOvertaken(cfg, s)
  }

  lemma RestIsNoted(cfg: Settings, s: Sys)
    requires Inv(cfg, s) && AtRest(s)
    ensures AllNoted(cfg, s)
  {
    forall id | LifeAt(cfg, s.world, id).Some? && LifeAt(cfg, s.world, id).value.Held?
      ensures LifeAt(cfg, s.world, id).value.noted
    {
      assert SubOk(cfg, s, id);
    }
  }

  /** Only a pop can overtake, and only a request whose pending record is still to come. */
  lemma AdvanceOvertakes(cfg: Settings, id: string, life: Life, e: Event)
    requires Advance(cfg, id, life, e).Some? && Advance(cfg, id, life, e).value.Held?
    requires life.Held? ==> !life.overtaken
    ensures var next := Advance(cfg, id, life, e).value;
            && (next.overtaken ==> e.Popped? && life.Held? && !life.noted)
            && (life.Held? && life.noted ==> next.noted)
            && (!life.Held? ==> e.Enqueued?)
  {
  }

  lemma SubmissionNeverPops(cfg: Settings, w: World, id: string, f: Submission, c: Choice)
    ensures var w' := StepSubmission(cfg, w, id, f, c).0;
            |w'.trace| > |w.trace| ==> !w'.trace[|w.trace|].1.Popped?
  {
  }

  lemma ApprovalNeverEnqueues(cfg: Settings, w: World, tid: nat, f: Approval, c: Choice)
    ensures var w' := StepApproval(cfg, w, tid, f, c).0;
            |w'.trace| > |w.trace| ==> !w'.trace[|w.trace|].1.Enqueued?
  {
  }

  lemma StepByOneEvent(cfg: Settings, s: Sys, m: Move)
    requires Enabled(s, m)
    ensures var w, w' := s.world, Step(cfg, s, m).world;
            || w'.trace == w.trace
            || (&& |w'.trace| == |w.trace| + 1
                && w'.trace == w.trace + [(w'.trace[|w.trace|].0, w'.trace[|w.trace|].1)]
                && (m.RunSubmission? ==> !w'.trace[|w.trace|].1.Popped?)
                && (m.RunApproval? ==> !w'.trace[|w.trace|].1.Enqueued?))
  {
    if m.RunSubmission? {
      SubmissionByOneEvent(cfg, s.world, m.id, s.subs[m.id], m.choice);
      SubmissionNeverPops(cfg, s.world, m.id, s.subs[m.id], m.choice);
    } else if m.RunApproval? {
      ApprovalByOneEvent(cfg, s.world, m.tid, s.apps[m.tid], m.choice);
      ApprovalNeverEnqueues(cfg, s.world, m.tid, s.apps[m.tid], m.choice);
    }
  }

  /** The lives after one statement. */
  lemma LivesAfter(cfg: Settings, s: Sys, m: Move)
    requires Inv(cfg, s) && Enabled(s, m)
    ensures var w, w' := s.world, Step(cfg, s, m).world;
            || w'.trace == w.trace
            || (&& |w'.trace| == |w.trace| + 1
                && var (id, e) := w'.trace[|w.trace|];
                   && LifeAt(cfg, w, id).Some?
                   && LifeAt(cfg, w', id) == Advance(cfg, id, LifeAt(cfg, w, id).value, e)
                   && (forall x :: x != id ==> LifeAt(cfg, w', x) == LifeAt(cfg, w, x))
                   && (m.RunSubmission? ==> !e.Popped?)
                   && (m.RunApproval? ==> !e.Enqueued?))
  {
    var w, w' := s.world, Step(cfg, s, m).world;
    StepByOneEvent(cfg, s, m);
    if w'.trace != w.trace {
      var (id, e) := w'.trace[|w.trace|];
      assert SubOk(cfg, s, id);
      LifeStep(cfg, w, w', id, e);
    }
  }

  lemma StepTidy(cfg: Settings, s: Sys, m: Move)
    requires Tidy(cfg, s) && Enabled(s, m)
    requires m.RunApproval? ==> AllNoted(cfg, s)
    ensures Tidy(cfg, Step(cfg, s, m))
    ensures m.RunApproval? || m.Approve? ==> (AllNoted(cfg, s) ==> AllNoted(cfg, Step(cfg, s, m)))
  {
    var s' := Step(cfg, s, m);
    StepKeepsInv(cfg, s, m);
    LivesAfter(cfg, s, m);
    if s'.world.trace == s.world.trace {
      assert forall x :: LifeAt(cfg, s'.world, x) == LifeAt(cfg, s.world, x);
    } else {
      var (id, e) := s'.world.trace[|s.world.trace|];
      assert SubOk(cfg, s', id);
      if LifeAt(cfg, s'.world, id).value.Held? {
        AdvanceOvertakes(cfg, id, LifeAt(cfg, s.world, id).value, e);
      }
    }
  }

  lemma {:induction false} RunSubTidy(cfg: Settings, s: Sys, id: string, c: Choice)
    requires Tidy(cfg, s) && id in s.subs
    ensures var s' := RunSub(cfg, s, id, c);
            && Tidy(cfg, s') && id in s'.subs && SubAtRest(s'.subs[id]) && s'.apps == s.apps
            && s'.subs.Keys == s.subs.Keys
            && (forall x :: x in s.subs && x != id ==> s'.subs[x] == s.subs[x])
    decreases SubRank(s.subs[id])
  {
    if SubAtRest(s.subs[id]) {
    } else {
      var s1 := Step(cfg, s, RunSubmission(id, c));
      StepTidy(cfg, s, RunSubmission(id, c));
      assert s1.subs.Keys == s.subs.Keys;
      RunSubTidy(cfg, s1, id, c);
    }
  }

  lemma {:induction false} RunAppTidy(cfg: Settings, s: Sys, tid: nat, c: Choice)
    requires Tidy(cfg, s) && tid in s.apps && AllNoted(cfg, s)
    ensures var s' := RunApp(cfg, s, tid, c);
            && Tidy(cfg, s') && tid in s'.apps && s'.apps[tid].Over? && s'.subs == s.subs
            && s'.apps.Keys == s.apps.Keys
            && (forall t :: t in s.apps && t != tid ==> s'.apps[t] == s.apps[t])
    decreases AppRank(s.apps[tid])
  {
    if s.apps[tid].Over? {
    } else {
      var s1 := Step(cfg, s, RunApproval(tid, c));
      StepTidy(cfg, s, RunApproval(tid, c));
      assert s1.apps.Keys == s.apps.Keys;
      RunAppTidy(cfg, s1, tid, c);
    }
  }

  lemma TakeTidy(cfg: Settings, s: Sys, turn: Turn)
    requires Tidy(cfg, s) && AtRest(s)
    ensures Tidy(cfg, Take(cfg, s, turn)) && AtRest(Take(cfg, s, turn))
  {
    match turn
    case Request(id, action, resource, namespace, params, c) =>
      var m := Submit(id, action, resource, namespace, params);
      if Enabled(s, m) {
        StepTidy(cfg, s, m);
        RunSubTidy(cfg, Step(cfg, s, m), id, c);
      }
    case OpaReplied(id, c) =>
      if id in s.subs && s.subs[id].AwaitingOpa? {
        StepTidy(cfg, s, RunSubmission(id, c));
        RunSubTidy(cfg, Step(cfg, s, RunSubmission(id, c)), id, c);
      }
    case ApproveRequest(tid, target, approved, comment, c) =>
      var m := Approve(tid, target, approved, comment);
      if Enabled(s, m) {
        RestIsNoted(cfg, s);
        StepTidy(cfg, s, m);
        RunAppTidy(cfg, Step(cfg, s, m), tid, c);
      }
  }

  lemma {:induction false} PlayTidy(cfg: Settings, turns: seq<Turn>)
    ensures Tidy(cfg, Play(cfg, turns)) && AtRest(Play(cfg, turns))
  {
    if turns == [] {
      RunKeepsInv(cfg, []);
    } else {
      PlayTidy(cfg, turns[..|turns| - 1]);
      TakeTidy(cfg, Play(cfg, turns[..|turns| - 1]), turns[|turns| - 1]);
    }
  }

  // ----- The audit language -----

  /** The decisions a request may leave in the log, in order. */
  predicate Documented(word: seq<string>) {
    || word == []
    || word == [DENY]
    || word == [ALLOW]
    || word == [PENDING]
    || word == [PENDING, HUMAN_ALLOW]
    || word == [PENDING, HUMAN_DENY]
  }

  /** The audit writes of a request, by what became of it. */
  function WordOfStage(stage: Conservation.Stage): seq<string> {
    match stage
    case DeniedByPolicy => [DENY]
    case ExecutedDirectly => [ALLOW]
    case Pending => [PENDING]
    case BeingResolved => [PENDING]
    case HumanDenied => [PENDING, HUMAN_DENY]
    case ApprovedAndExecuted => [PENDING, HUMAN_ALLOW]
    case ApprovedButRaised => [PENDING]
    case _ => []
  }

  /** The log as the reader sees it, restricted to one request. */
  function LogOf(audit: seq<Record>, id: string): seq<string> {
    if audit == [] then [] else
      var last := audit[|audit| - 1];
      LogOf(audit[..|audit| - 1], id) + (if last.requestId == id then [last.decision] else [])
  }

  predicate AllStored(t: seq<(string, Event)>) {
    forall k :: 0 <= k < |t| && t[k].1.Note? ==> t[k].1.stored
  }

  lemma NoteKeyed(cfg: Settings, moves: seq<Move>, k: nat)
    requires k < |TraceOf(cfg, moves)| && TraceOf(cfg, moves)[k].1.Note?
    ensures TraceOf(cfg, moves)[k].1.record.requestId == TraceOf(cfg, moves)[k].0
  {
    var t := TraceOf(cfg, moves);
    LawfulAt(cfg, moves, k);
    NoteDescribes(cfg, t[k].0, Word(t[..k], t[k].0), t[k].1);
  }

  /** The decisions of the audit writes that reached the file. */
  function StoredWord(h: seq<Event>): seq<string> {
    if h == [] then [] else
      var last := h[|h| - 1];
      StoredWord(h[..|h| - 1]) + (if last.Note? && last.stored then [last.record.decision] else [])
  }

  lemma StoredWordGrows(h: seq<Event>, e: Event)
    ensures StoredWord(h + [e]) == StoredWord(h) + (if e.Note? && e.stored then [e.record.decision] else [])
  {
    assert (h + [e])[..|h|] == h;
  }

  /** The log of one request is the decisions of its stored writes, in order. */
  lemma {:induction false} LogIsStored(cfg: Settings, moves: seq<Move>, n: nat, id: string)
    requires n <= |TraceOf(cfg, moves)|
    ensures var t := TraceOf(cfg, moves)[..n]; LogOf(StoredRecords(t), id) == StoredWord(Word(t, id))
  {
    if n == 0 {
    } else {
      var t := TraceOf(cfg, moves);
      var front := t[..n - 1];
      var k: string, e: Event := t[n - 1].0, t[n - 1].1;
      assert t[..n] == front + [(k, e)];
      LogIsStored(cfg, moves, n - 1, id);
      WordAppend(front, k, e, id);
      if e.Note? {
        NoteKeyed(cfg, moves, n - 1);
      }
      StoredGrow(front, k, e, id);
      if k == id {
        StoredWordGrows(Word(front, id), e);
      } else {
        assert Word(front, id) + [] == Word(front, id);
      }
    }
  }

  /** The whole log of one request, on any run of the event loop. */
  lemma LogIsStoredWord(cfg: Settings, turns: seq<Turn>, id: string)
    ensures var w := Play(cfg, turns).world; LogOf(w.audit, id) == StoredWord(Word(w.trace, id))
  {
    var moves := PlayIsRun(cfg, turns);
    var t := TraceOf(cfg, moves);
    RunExplained(cfg, moves);
    LogIsStored(cfg, moves, |t|, id);
    assert t[..|t|] == t;
  }

  lemma {:induction false} AllStoredWord(h: seq<Event>)
    requires forall e :: e in h && e.Note? ==> e.stored
    ensures StoredWord(h) == Decisions(Notes(h))
  {
    if h == [] {
    } else {
      var front, e := h[..|h| - 1], h[|h| - 1];
      assert h == front + [e];
      AllStoredWord(front);
      DecisionsGrow(front, e);
    }
  }

  lemma StoredGrow(t: seq<(string, Event)>, k: string, e: Event, id: string)
    ensures LogOf(StoredRecords(t + [(k, e)]), id) ==
              LogOf(StoredRecords(t), id)
              + (if e.Note? && e.stored && e.record.requestId == id then [e.record.decision] else [])
  {
    assert (t + [(k, e)])[..|t|] == t;
    var rs := StoredRecords(t);
    if e.Note? && e.stored {
      assert (rs + [e.record])[..|rs|] == rs;
    } else {
      assert rs + [] == rs;
    }
  }

  /** A life that the event loop can leave behind. */
  ghost predicate Resting(life: Life, id: string, s: Sys) {
    if life.Held? then life.noted && !life.overtaken && ResMatches(s, id, life.res) && AtRest(s)
    else !life.Known? && !life.Barred? && !life.Cleared? && !life.Ran?
  }

  lemma HeldNotes(life: Life, word: seq<string>)
    requires life.Held? && NotesOf(life, word) && life.noted && !life.overtaken
    ensures word == [PENDING] + HumanWord(life.res)
  {
  }

  lemma OpenStage(cfg: Settings, id: string, life: Life, deeds: seq<Event>)
    requires life.Held? && life.res.Open? && DeedsOf(cfg, id, life, deeds)
    ensures Conservation.StageOf(cfg, deeds) == Conservation.Pending
  {
  }

  lemma BrokenStage(cfg: Settings, id: string, life: Life, deeds: seq<Event>)
    requires life.Held? && life.res.Broken? && DeedsOf(cfg, id, life, deeds)
    ensures Conservation.StageOf(cfg, deeds) == Conservation.ApprovedButRaised
  {
  }

  lemma AllowedStage(cfg: Settings, id: string, life: Life, deeds: seq<Event>)
    requires life.Held? && life.res.Resolved? && life.res.approved && DeedsOf(cfg, id, life, deeds)
    ensures Conservation.StageOf(cfg, deeds) == Conservation.ApprovedAndExecuted
  {
  }

  lemma DeniedStage(cfg: Settings, id: string, life: Life, deeds: seq<Event>)
    requires life.Held? && life.res.Resolved? && !life.res.approved && DeedsOf(cfg, id, life, deeds)
    ensures Conservation.StageOf(cfg, deeds) == Conservation.HumanDenied
  {
  }

  /** The stage of each resolution that the event loop can leave behind. */
  function StageOfResolution(res: Resolution): Conservation.Stage {
    match res
    case Open => Conservation.Pending
    case Resolved(_, approved) => (if approved then Conservation.ApprovedAndExecuted else Conservation.HumanDenied)
    case Broken(_) => Conservation.ApprovedButRaised
    case _ => Conservation.BeingResolved
  }

  lemma HeldStages(cfg: Settings, id: string, life: Life, deeds: seq<Event>)
    requires life.Held? && DeedsOf(cfg, id, life, deeds) && !life.res.Taken? && !life.res.Executed?
    ensures Conservation.StageOf(cfg, deeds) == StageOfResolution(life.res)
  {
    match life.res
    case Open => OpenStage(cfg, id, life, deeds);
    case Resolved(_, approved) =>
      if approved {
        AllowedStage(cfg, id, life, deeds);
      } else {
        DeniedStage(cfg, id, life, deeds);
      }
    case Broken(_) => BrokenStage(cfg, id, life, deeds);
  }

  lemma ResolutionWord(res: Resolution)
    requires !res.Taken? && !res.Executed?
    ensures [PENDING] + HumanWord(res) == WordOfStage(StageOfResolution(res))
  {
    assert [PENDING] + [] == [PENDING];
  }

  lemma RestingHeld(cfg: Settings, id: string, life: Life, deeds: seq<Event>, word: seq<string>, s: Sys)
    requires DeedsOf(cfg, id, life, deeds) && NotesOf(life, word) && Resting(life, id, s) && life.Held?
    ensures word == WordOfStage(Conservation.StageOf(cfg, deeds))
  {
    NoneAtWork(s, id, life.res);
    HeldNotes(life, word);
    HeldStages(cfg, id, life, deeds);
    ResolutionWord(life.res);
  }

  lemma RestingEarly(cfg: Settings, id: string, life: Life, deeds: seq<Event>, word: seq<string>, s: Sys)
    requires DeedsOf(cfg, id, life, deeds) && NotesOf(life, word) && Resting(life, id, s) && !life.Held?
    ensures word == WordOfStage(Conservation.StageOf(cfg, deeds))
  {
  }

  lemma RestingLives(cfg: Settings, turns: seq<Turn>, id: string)
    ensures var s := Play(cfg, turns); LifeAt(cfg, s.world, id).Some? && Resting(LifeAt(cfg, s.world, id).value, id, s)
  {
    var s := Play(cfg, turns);
    PlayTidy(cfg, turns);
    RestIsNoted(cfg, s);
    assert SubOk(cfg, s, id) && ResOk(cfg, s, id);
  }

  /** Under the event loop the audit writes of a request, stored or lost, are after every turn exactly the word of its
      stage. */
  lemma AuditTellsStage(cfg: Settings, turns: seq<Turn>, id: string)
    ensures var s := Play(cfg, turns);
            Decisions(Notes(Word(s.world.trace, id))) == WordOfStage(Conservation.StageAt(cfg, s, id))
  {
    var s := Play(cfg, turns);
    RestingLives(cfg, turns, id);
    var h := Word(s.world.trace, id);
    var life := LifeAt(cfg, s.world, id).value;
    LawfulNotes(cfg, id, h);
    LawfulDeeds(cfg, id, h);
    if life.Held? {
      RestingHeld(cfg, id, life, Deeds(h), Decisions(Notes(h)), s);
    } else {
      RestingEarly(cfg, id, life, Deeds(h), Decisions(Notes(h)), s);
    }
  }

  lemma QueuedIsPending(cfg: Settings, turns: seq<Turn>, id: string)
    ensures var s := Play(cfg, turns);
            Queued(s.world.queue, id) <==> Conservation.StageAt(cfg, s, id) == Conservation.Pending
  {
    var s := Play(cfg, turns);
    PlayTidy(cfg, turns);
    Conservation.LifeAndStage(cfg, s, id);
    assert ResOk(cfg, s, id);
    if Queued(s.world.queue, id) {
      var i :| 0 <= i < |s.world.queue| && s.world.queue[i].requestId == id;
      assert HeldAs(cfg, s.world, s.world.queue[i], Open);
    }
  }

  lemma StageWords(stage: Conservation.Stage)
    ensures Documented(WordOfStage(stage))
    ensures WordOfStage(stage) == [PENDING] <==>
            stage.Pending? || stage.BeingResolved? || stage.ApprovedButRaised?
  {
  }

  lemma LogTellsStage(cfg: Settings, turns: seq<Turn>, id: string)
    requires AllStored(Play(cfg, turns).world.trace)
    ensures var s := Play(cfg, turns); LogOf(s.world.audit, id) == WordOfStage(Conservation.StageAt(cfg, s, id))
  {
    var t := Play(cfg, turns).world.trace;
    var h := Word(t, id);
    LogIsStoredWord(cfg, turns, id);
    forall e | e in h && e.Note?
      ensures e.stored
    {
      WordOnlyOf(t, id, e);
    }
    AllStoredWord(h);
    AuditTellsStage(cfg, turns, id);
  }

  /** When every write succeeds, that is the language of the log file itself: it always reads one of the documented
      words, and `pending-approval` alone exactly for a request that is queued or whose approved execution raised. */
  lemma AuditLanguage(cfg: Settings, turns: seq<Turn>, id: string)
    requires AllStored(Play(cfg, turns).world.trace)
    ensures var s := Play(cfg, turns); var word := LogOf(s.world.audit, id);
            && word == WordOfStage(Conservation.StageAt(cfg, s, id))
            && Documented(word)
            && (word == [PENDING] <==>
                  Queued(s.world.queue, id) || Conservation.StageAt(cfg, s, id) == Conservation.ApprovedButRaised)
  {
    LogTellsStage(cfg, turns, id);
    StageWords(Conservation.StageAt(cfg, Play(cfg, turns), id));
    QueuedIsPending(cfg, turns, id);
    NothingHalfResolved(cfg, turns, id);
  }

  /** Between two turns no approval is under way: a request ever enqueued waits, or its resolution is over. */
  lemma NothingHalfResolved(cfg: Settings, turns: seq<Turn>, id: string)
    ensures Conservation.StageAt(cfg, Play(cfg, turns), id) != Conservation.BeingResolved
  {
    var s := Play(cfg, turns);
    PlayTidy(cfg, turns);
    assert SubOk(cfg, s, id) && ResOk(cfg, s, id);
    var h := Word(s.world.trace, id);
    LawfulDeeds(cfg, id, h);
    NotHalfway(cfg, id, LifeAt(cfg, s.world, id).value, Deeds(h), s);
  }

  /** Between two turns every id ever enqueued is pending, executed, denied by a human or raised on approval, each
      counted once, and the queue is the pending part. */
  lemma ConservedBetweenTurns(cfg: Settings, turns: seq<Turn>)
    ensures var s := Play(cfg, turns); var m := Conservation.Stages(cfg, s);
            && Conservation.QueueIds(s.world.queue) == Conservation.Ids(m, Conservation.Pending)
            && |Conservation.EverEnqueued(s)| ==
                 |s.world.queue| + |Conservation.Ids(m, Conservation.ApprovedAndExecuted)|
                 + |Conservation.Ids(m, Conservation.HumanDenied)|
                 + |Conservation.Ids(m, Conservation.ApprovedButRaised)|
  {
    var moves := PlayIsRun(cfg, turns);
    var m := Conservation.Stages(cfg, Play(cfg, turns));
    Conservation.Conserved(cfg, moves);
    forall id
      ensures id !in Conservation.Ids(m, Conservation.BeingResolved)
    {
      NothingHalfResolved(cfg, turns, id);
    }
    assert Conservation.Ids(m, Conservation.BeingResolved) == {};
  }

  lemma NoneAtWork(s: Sys, id: string, res: Resolution)
    requires ResMatches(s, id, res) && AtRest(s)
    ensures !res.Taken? && !res.Executed?
  {
  }

  lemma NotHalfway(cfg: Settings, id: string, life: Life, deeds: seq<Event>, s: Sys)
    requires DeedsOf(cfg, id, life, deeds) && AtRest(s)
    requires life.Held? ==> ResMatches(s, id, life.res)
    ensures Conservation.StageOf(cfg, deeds) != Conservation.BeingResolved
  {
    if life.Held? {
      NoneAtWork(s, id, life.res);
      HeldStages(cfg, id, life, deeds);
    } else {
      Conservation.EarlyStage(cfg, id, life, deeds);
    }
  }
}
