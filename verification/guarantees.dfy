/** What follows for every run, whatever the interleaving of statements and whatever OPA, the cluster, the file system
    and the approvers do. */
module Guarantees {
  import opened JsonValues
  import opened AuditLogs
  import opened ApprovalQueues
  import opened Lifecycle
  import opened Traces
  import opened Gateway
  import opened Safety
  import Scorer
  import K8sClient

  ghost function TraceOf(cfg: Settings, moves: seq<Move>): seq<(string, Event)> {
    Run(cfg, moves).world.trace
  }

  /** The history of one request before position k, followed by the event there, is lawful. */
  lemma LawfulAt(cfg: Settings, moves: seq<Move>, k: nat)
    requires k < |TraceOf(cfg, moves)|
    ensures var (id, e) := TraceOf(cfg, moves)[k];
            Lawful(cfg, id, Word(TraceOf(cfg, moves)[..k], id) + [e])
  {
    RunKeepsInv(cfg, moves);
    var t := TraceOf(cfg, moves);
    var (id, e) := t[k];
    assert SubOk(cfg, Run(cfg, moves), id);
    WordAt(t, k);
    var past, all := Word(t[..k], id), Word(t, id);
    assert all[..|past| + 1] == past + [e];
    LawfulPrefix(cfg, id, all, |past| + 1);
  }

  // ----- Gate safety -----

  /** Every execution was entitled by the history of its own request: the token verified, the very strings and
      parameters judged, OPA's reply to that input a 2xx with truthy allow, and then either a level below high, or one
      enqueue and one pop approved by the approval that executes. */
  lemma GateSafety(cfg: Settings, moves: seq<Move>, k: nat)
    requires k < |TraceOf(cfg, moves)| && TraceOf(cfg, moves)[k].1.Attempt?
    ensures var t := TraceOf(cfg, moves);
            Entitled(cfg, t[k].0, Word(t[..k], t[k].0), t[k].1)
  {
    var t := TraceOf(cfg, moves);
    LawfulAt(cfg, moves, k);
    AttemptIsEntitled(cfg, t[k].0, Word(t[..k], t[k].0), t[k].1);
  }

  /** An execution that the gateway answers and records as a success was sent: the cluster has received the call that
      the judged request dispatches to. */
  lemma SuccessWasSent(cfg: Settings, moves: seq<Move>, k: nat)
    requires k < |TraceOf(cfg, moves)| && TraceOf(cfg, moves)[k].1.Attempt?
    requires TraceOf(cfg, moves)[k].1.outcome == K8sClient.Success
    ensures var e := TraceOf(cfg, moves)[k].1;
            var call := K8sClient.CallOf(cfg, e.action, e.resource, e.namespace, e.params);
            call.Returns? && e.issued == [call.value] && call.value in Run(cfg, moves).world.calls
  {
    var t := TraceOf(cfg, moves);
    var e := t[k].1;
    GateSafety(cfg, moves, k);
    var snap :| Faithful(cfg, snap, e);
    RunExplained(cfg, moves);
    IssuedReaches(t, k, e.issued[0]);
  }

  lemma {:induction false} IssuedReaches(t: seq<(string, Event)>, k: nat, call: K8sClient.ApiCall)
    requires k < |t| && t[k].1.Attempt? && call in t[k].1.issued
    ensures call in IssuedCalls(t)
  {
    var front := t[..|t| - 1];
    if k < |front| {
      assert front[k] == t[k];
      IssuedReaches(front, k, call);
    }
  }

  /** No request is executed twice, however many approvals of it race. */
  lemma AtMostOneExecution(cfg: Settings, moves: seq<Move>, j: nat, k: nat)
    requires j < k < |TraceOf(cfg, moves)|
    requires var t := TraceOf(cfg, moves); t[j].0 == t[k].0 && t[j].1.Attempt?
    ensures !TraceOf(cfg, moves)[k].1.Attempt?
  {
    LaterDeed(cfg, moves, j, k);
  }

  /** A request is taken out of the queue at most once, and is never enqueued again afterwards. */
  lemma PoppedOnceForAll(cfg: Settings, moves: seq<Move>, j: nat, k: nat)
    requires j < k < |TraceOf(cfg, moves)|
    requires var t := TraceOf(cfg, moves); t[j].0 == t[k].0 && t[j].1.Popped?
    ensures !TraceOf(cfg, moves)[k].1.Popped? && !TraceOf(cfg, moves)[k].1.Enqueued?
  {
    LaterDeed(cfg, moves, j, k);
  }

  lemma LaterDeed(cfg: Settings, moves: seq<Move>, j: nat, k: nat)
    requires j < k < |TraceOf(cfg, moves)| && TraceOf(cfg, moves)[j].0 == TraceOf(cfg, moves)[k].0
    ensures MayFollow(TraceOf(cfg, moves)[j].1, TraceOf(cfg, moves)[k].1)
  {
    var t := TraceOf(cfg, moves);
    LawfulAt(cfg, moves, k);
    WordHas(t[..k], j);
    DeedsAfter(cfg, t[k].0, Word(t[..k], t[k].0), t[j].1, t[k].1);
  }

  /** A reply that does not allow ends the request: nothing of it is executed or enqueued, before or after. */
  lemma RefusalIsFinal(cfg: Settings, moves: seq<Move>, j: nat, k: nat)
    requires j < |TraceOf(cfg, moves)| && k < |TraceOf(cfg, moves)|
    requires var t := TraceOf(cfg, moves);
             t[j].0 == t[k].0 && t[j].1.Answered? && !Allows(cfg, t[j].1.reply)
    ensures !TraceOf(cfg, moves)[k].1.Attempt? && !TraceOf(cfg, moves)[k].1.Enqueued?
  {
    RunKeepsInv(cfg, moves);
    var t := TraceOf(cfg, moves);
    assert SubOk(cfg, Run(cfg, moves), t[j].0);
    WordHas(t, j);
    WordHas(t, k);
    RefusedHasNone(cfg, t[j].0, Word(t, t[j].0), t[j].1, t[k].1);
  }

  // ----- The shared state is what the trace says -----

  /** The queue operations of a trace. */
  function QueueOps(t: seq<(string, Event)>): seq<Op> {
    if t == [] then [] else
      var (id, e) := t[|t| - 1];
      QueueOps(t[..|t| - 1])
      + (if e.Enqueued? then [Enqueue(e.pending)] else if e.Popped? then [Resolve(id)] else [])
  }

  function StoredRecords(t: seq<(string, Event)>): seq<Record> {
    if t == [] then [] else
      var e := t[|t| - 1].1;
      StoredRecords(t[..|t| - 1]) + (if e.Note? && e.stored then [e.record] else [])
  }

  function IssuedCalls(t: seq<(string, Event)>): seq<K8sClient.ApiCall> {
    if t == [] then [] else
      var e := t[|t| - 1].1;
      IssuedCalls(t[..|t| - 1]) + (if e.Attempt? then e.issued else [])
  }

  /** Queue, audit file and cluster hold exactly what the events put there. */
  ghost predicate Explained(w: World) {
    && w.queue == Replay(QueueOps(w.trace))
    && w.audit == StoredRecords(w.trace)
    && w.calls == IssuedCalls(w.trace)
  }

  lemma ExplainedStep(w: World, w': World, id: string, e: Event)
    requires Explained(w) && w'.trace == w.trace + [(id, e)]
    requires w'.audit == w.audit + (if e.Note? && e.stored then [e.record] else [])
    requires w'.calls == w.calls + (if e.Attempt? then e.issued else [])
    requires w'.queue == (if e.Enqueued? then Put(w.queue, e.pending)
                          else if e.Popped? then Without(w.queue, id) else w.queue)
    ensures Explained(w')
  {
    assert w'.trace[..|w.trace|] == w.trace;
    var ops := QueueOps(w.trace);
    assert ops + [] == ops && w.audit + [] == w.audit && w.calls + [] == w.calls;
    if e.Enqueued? {
      assert (ops + [Enqueue(e.pending)])[..|ops|] == ops;
    } else if e.Popped? {
      assert (ops + [Resolve(id)])[..|ops|] == ops;
    }
  }

  /** One statement emits at most one event, and changes the shared state only as that event says. */
  ghost predicate ByOneEvent(w: World, w': World) {
    || (w'.trace == w.trace && w'.queue == w.queue && w'.audit == w.audit && w'.calls == w.calls)
    || (|w'.trace| == |w.trace| + 1
        && var (id, e) := w'.trace[|w.trace|];
           && w'.trace == w.trace + [(id, e)]
           && w'.audit == w.audit + (if e.Note? && e.stored then [e.record] else [])
           && w'.calls == w.calls + (if e.Attempt? then e.issued else [])
           && w'.queue == (if e.Enqueued? then Put(w.queue, e.pending)
                           else if e.Popped? then Without(w.queue, id) else w.queue))
  }

  lemma SubmissionByOneEvent(cfg: Settings, w: World, id: string, f: Submission, c: Choice)
    ensures ByOneEvent(w, StepSubmission(cfg, w, id, f, c).0)
  {
    assert w.audit + [] == w.audit && w.calls + [] == w.calls;
  }

  lemma ApprovalByOneEvent(cfg: Settings, w: World, tid: nat, f: Approval, c: Choice)
    ensures ByOneEvent(w, StepApproval(cfg, w, tid, f, c).0)
  {
    assert w.audit + [] == w.audit && w.calls + [] == w.calls;
  }

  lemma {:induction false} RunExplained(cfg: Settings, moves: seq<Move>)
    ensures Explained(Run(cfg, moves).world)
  {
    if moves == [] {
    } else {
      var s, m := Run(cfg, moves[..|moves| - 1]), moves[|moves| - 1];
      RunExplained(cfg, moves[..|moves| - 1]);
      if Enabled(s, m) {
        var w, w' := s.world, Step(cfg, s, m).world;
        if m.RunSubmission? {
          SubmissionByOneEvent(cfg, w, m.id, s.subs[m.id], m.choice);
        } else if m.RunApproval? {
          ApprovalByOneEvent(cfg, w, m.tid, s.apps[m.tid], m.choice);
        }
        if w'.trace != w.trace {
          ExplainedStep(w, w', w'.trace[|w.trace|].0, w'.trace[|w.trace|].1);
        }
      }
    }
  }

  // ----- The queue lists what is still waiting, in order -----

  lemma {:induction false} EnqueueTraced(t: seq<(string, Event)>, r: PendingRequest)
    requires r in EnqueuedBy(QueueOps(t))
    ensures exists j :: 0 <= j < |t| && t[j].1.Enqueued? && t[j].1.pending == r
  {
    var front := t[..|t| - 1];
    if r in EnqueuedBy(QueueOps(front)) {
      EnqueueTraced(front, r);
      var j :| 0 <= j < |front| && front[j].1.Enqueued? && front[j].1.pending == r;
      assert t[j] == front[j];
    } else {
      OpsGrow(front, t[|t| - 1].0, t[|t| - 1].1);
      assert t == front + [t[|t| - 1]];
    }
  }

  lemma OpsGrow(t: seq<(string, Event)>, id: string, e: Event)
    ensures EnqueuedBy(QueueOps(t + [(id, e)])) ==
              EnqueuedBy(QueueOps(t)) + (if e.Enqueued? then [e.pending] else [])
  {
    var t' := t + [(id, e)];
    assert t'[..|t|] == t;
    var ops := QueueOps(t);
    if e.Enqueued? {
      assert (ops + [Enqueue(e.pending)])[..|ops|] == ops;
    } else if e.Popped? {
      assert (ops + [Resolve(id)])[..|ops|] == ops;
    } else {
      assert ops + [] == ops;
    }
  }

  /** A request enqueued before position n has another id than the one enqueued there. */
  lemma EarlierIdDiffers(cfg: Settings, moves: seq<Move>, n: nat, r: PendingRequest)
    requires n < |TraceOf(cfg, moves)| && TraceOf(cfg, moves)[n].1.Enqueued?
    requires r in EnqueuedBy(QueueOps(TraceOf(cfg, moves)[..n]))
    ensures r.requestId != TraceOf(cfg, moves)[n].1.pending.requestId
  {
    var t := TraceOf(cfg, moves);
    EnqueueTraced(t[..n], r);
    var j :| 0 <= j < n && t[..n][j].1.Enqueued? && t[..n][j].1.pending == r;
    assert t[j] == t[..n][j];
    KeyedAt(cfg, moves, j);
    KeyedAt(cfg, moves, n);
    if t[j].0 == t[n].0 {
      LaterDeed(cfg, moves, j, n);
    }
  }

  lemma DistinctGrows(q: Contents, r: PendingRequest)
    requires DistinctIds(q) && forall p :: p in q ==> p.requestId != r.requestId
    ensures DistinctIds(q + [r])
  {
  }

  lemma {:induction false} EnqueuesFresh(cfg: Settings, moves: seq<Move>, n: nat)
    requires n <= |TraceOf(cfg, moves)|
    ensures FreshIds(QueueOps(TraceOf(cfg, moves)[..n]))
  {
    if n == 0 {
    } else {
      var t := TraceOf(cfg, moves);
      var front := t[..n - 1];
      var (id, e) := t[n - 1];
      EnqueuesFresh(cfg, moves, n - 1);
      assert t[..n] == front + [(id, e)];
      OpsGrow(front, id, e);
      if e.Enqueued? {
        forall r | r in EnqueuedBy(QueueOps(front))
          ensures r.requestId != e.pending.requestId
        {
          EarlierIdDiffers(cfg, moves, n - 1, r);
        }
        DistinctGrows(EnqueuedBy(QueueOps(front)), e.pending);
      }
    }
  }

  lemma KeyedAt(cfg: Settings, moves: seq<Move>, k: nat)
    requires k < |TraceOf(cfg, moves)| && TraceOf(cfg, moves)[k].1.Enqueued?
    ensures TraceOf(cfg, moves)[k].1.pending.requestId == TraceOf(cfg, moves)[k].0
    ensures TraceOf(cfg, moves)[k].1.snap.risk.level == Scorer.HIGH
  {
    var t := TraceOf(cfg, moves);
    LawfulAt(cfg, moves, k);
    EnqueueIsKeyed(cfg, t[k].0, Word(t[..k], t[k].0), t[k].1);
  }

  /** What GET /pending returns on any run: the requests enqueued so far, in that order, without the ones already
      handed to an approval; and no request was handed out twice. */
  lemma PendingIsOrderedRemainder(cfg: Settings, moves: seq<Move>)
    ensures var w := Run(cfg, moves).world; var ops := QueueOps(w.trace);
            w.queue == Keep(EnqueuedBy(ops), HandedOut(ops)) && NoRepeats(HandedOut(ops))
  {
    var w := Run(cfg, moves).world;
    RunExplained(cfg, moves);
    EnqueuesFresh(cfg, moves, |w.trace|);
    assert w.trace[..|w.trace|] == w.trace;
    QueueIsOrderedRemainder(QueueOps(w.trace));
  }

  // ----- What was judged is what is recorded -----

  lemma {:induction false} StoredTraced(t: seq<(string, Event)>, r: Record)
    requires r in StoredRecords(t)
    ensures exists k :: 0 <= k < |t| && t[k].1 == Note(r, true)
  {
    var front := t[..|t| - 1];
    if r in StoredRecords(front) {
      StoredTraced(front, r);
      var k :| 0 <= k < |front| && front[k].1 == Note(r, true);
      assert t[k] == front[k];
    } else {
      assert t[|t| - 1].1 == Note(r, true);
    }
  }

  /** The record was written at position k of the trace; it repeats a request that was judged under the record's own id;
      its risk fields are the ledger of that request; and its decision and reason are what had happened by then. */
  ghost predicate WrittenFor(cfg: Settings, t: seq<(string, Event)>, k: nat, r: Record, snap: Snap) {
    && k < |t| && t[k] == (r.requestId, Note(r, true))
    && (r.requestId, Judged(snap, InputOf(snap))) in t
    && snap.risk == RiskOf(cfg, snap)
    && r.opaReason.Some? && Repeats(r, snap)
    && Evidence(cfg, r.requestId, Deeds(Word(t[..k], r.requestId)), snap, r)
    && Scorer.Balanced(Scorer.RiskScore(r.riskLevel, r.riskScore, r.riskReasons))
  }

  ghost predicate Truthful(cfg: Settings, t: seq<(string, Event)>, r: Record) {
    exists k, snap :: WrittenFor(cfg, t, k, r, snap)
  }

  lemma NoteWrittenFor(cfg: Settings, moves: seq<Move>, k: nat, r: Record)
    requires k < |TraceOf(cfg, moves)| && TraceOf(cfg, moves)[k].1 == Note(r, true)
    ensures Truthful(cfg, TraceOf(cfg, moves), r)
  {
    var t := TraceOf(cfg, moves);
    var id, e := t[k].0, t[k].1;
    var past := Word(t[..k], id);
    LawfulAt(cfg, moves, k);
    NoteDescribes(cfg, id, past, e);
    var snap :| Judged(snap, InputOf(snap)) in past && snap.risk == RiskOf(cfg, snap) && Describes(r, id, snap)
                && Evidence(cfg, id, Deeds(past), snap, r);
    WordOnlyOf(t[..k], id, Judged(snap, InputOf(snap)));
    assert (id, Judged(snap, InputOf(snap))) in t;
    Scorer.AssessBalances(cfg, snap.action, snap.resource, snap.namespace, snap.params);
    NoteRepeats(r, id, snap, r.decision);
    assert Scorer.RiskScore(r.riskLevel, r.riskScore, r.riskReasons) == snap.risk;
    assert WrittenFor(cfg, t, k, r, snap);
  }

  /** Every audit record of every run is truthful: what was judged is what is recorded, also after the request has
      passed through the queue; its score is the sum of the points its own reasons name; its decision is the one that
      was taken, and its reason the one that OPA or the approver gave. */
  lemma AuditIsTruthful(cfg: Settings, moves: seq<Move>, i: nat)
    requires i < |Run(cfg, moves).world.audit|
    ensures var w := Run(cfg, moves).world; Truthful(cfg, w.trace, w.audit[i])
  {
    var w := Run(cfg, moves).world;
    RunExplained(cfg, moves);
    StoredTraced(w.trace, w.audit[i]);
    var k :| 0 <= k < |w.trace| && w.trace[k].1 == Note(w.audit[i], true);
    NoteWrittenFor(cfg, moves, k, w.audit[i]);
  }

  /** What waits in the queue is, by value, a request that was judged under that id, that OPA allowed and that is
      high-risk, although its params are held by reference. */
  ghost predicate WaitsFor(cfg: Settings, w: World, p: PendingRequest, snap: Snap) {
    && SnapOfPending(w, p) == snap
    && (p.requestId, Judged(snap, InputOf(snap))) in w.trace
    && snap.risk == RiskOf(cfg, snap)
    && QueuedBy(cfg, Deeds(Word(w.trace, p.requestId)), p.requestId, snap)
  }

  lemma QueueIsTruthful(cfg: Settings, moves: seq<Move>, i: nat)
    requires i < |Run(cfg, moves).world.queue|
    ensures var w := Run(cfg, moves).world; WaitsFor(cfg, w, w.queue[i], SnapOfPending(w, w.queue[i]))
  {
    var w := Run(cfg, moves).world;
    var p := w.queue[i];
    RunKeepsInv(cfg, moves);
    assert HeldAs(cfg, w, p, Open);
    var h := Word(w.trace, p.requestId);
    var snap := SnapOfPending(w, p);
    LawfulDeeds(cfg, p.requestId, h);
    LawfulJudged(cfg, p.requestId, h);
    WordOnlyOf(w.trace, p.requestId, Judged(snap, InputOf(snap)));
  }

  /** The params of every judged request are values that Python dicts can hold. */
  ghost predicate ParamsWellFormed(t: seq<(string, Event)>) {
    forall k :: 0 <= k < |t| && t[k].1.Judged? ==> WellFormed(Obj(t[k].1.snap.params))
  }

  /** The reader of the log file of any run gets back exactly the records of that run. */
  lemma LogFileReadsBack(cfg: Settings, moves: seq<Move>)
    requires ParamsWellFormed(TraceOf(cfg, moves))
    ensures var audit := Run(cfg, moves).world.audit; ReadLog(Lines(audit)) == Some(AsJson(audit))
  {
    var w := Run(cfg, moves).world;
    forall i | 0 <= i < |w.audit|
      ensures WellFormed(Obj(w.audit[i].params))
    {
      AuditIsTruthful(cfg, moves, i);
      RecordsJudged(cfg, w.trace, w.audit[i]);
    }
    LogReadsBack(w.audit);
  }

  lemma RecordsJudged(cfg: Settings, t: seq<(string, Event)>, r: Record)
    requires Truthful(cfg, t, r)
    ensures exists k :: 0 <= k < |t| && t[k].1.Judged? && t[k].1.snap.params == r.params
  {
    var n, snap :| WrittenFor(cfg, t, n, r, snap);
    var k :| 0 <= k < |t| && t[k] == (r.requestId, Judged(snap, InputOf(snap)));
    assert t[k].1.Judged? && t[k].1.snap.params == r.params;
  }
}
