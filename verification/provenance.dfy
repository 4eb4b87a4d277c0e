/** Where every event of a run comes from: the request that was submitted, the token that was verified, the approver's
    choice and the clock, each named by the move that brought it in. */
module Provenance {
  import opened JsonValues
  import opened AuditLogs
  import opened ApprovalQueues
  import opened Lifecycle
  import opened Gateway
  import opened Safety
  import opened Guarantees
  import Policy
  import Text

  // ----- The moves that bring something in -----

  /** Move i submitted this request. */
  ghost predicate SubmittedBy(cfg: Settings, moves: seq<Move>, i: nat, id: string, action: string, resource: string,
                              namespace: string, params: Members)
  {
    && i < |moves| && moves[i] == Submit(id, action, resource, namespace, params)
    && Enabled(Run(cfg, moves[..i]), moves[i])
  }

  /** Move i verified the submitter's token. */
  ghost predicate TokenOf(cfg: Settings, moves: seq<Move>, i: nat, id: string, identity: string, role: string) {
    && i < |moves| && moves[i].RunSubmission? && moves[i].id == id
    && moves[i].choice.token == Some((identity, role))
    && id in Run(cfg, moves[..i]).subs && Run(cfg, moves[..i]).subs[id].Entered?
  }

  /** Move i called the approval. */
  ghost predicate CalledBy(cfg: Settings, moves: seq<Move>, i: nat, tid: nat, target: string, approved: bool,
                           comment: string)
  {
    && i < |moves| && moves[i] == Approve(tid, target, approved, comment)
    && Enabled(Run(cfg, moves[..i]), moves[i])
  }

  /** Move i verified the approver's token. */
  ghost predicate ApproverTokenOf(cfg: Settings, moves: seq<Move>, i: nat, tid: nat, approver: string) {
    && i < |moves| && moves[i].RunApproval? && moves[i].tid == tid
    && moves[i].choice.token.Some? && moves[i].choice.token.value.0 == approver
    && tid in Run(cfg, moves[..i]).apps && Run(cfg, moves[..i]).apps[tid].Called?
  }

  ghost predicate Submitted(cfg: Settings, moves: seq<Move>, id: string, action: string, resource: string,
                            namespace: string, params: Members)
  {
    exists i: nat :: SubmittedBy(cfg, moves, i, id, action, resource, namespace, params)
  }

  ghost predicate TokenVerified(cfg: Settings, moves: seq<Move>, id: string, identity: string, role: string) {
    exists i: nat :: TokenOf(cfg, moves, i, id, identity, role)
  }

  ghost predicate WasCalled(cfg: Settings, moves: seq<Move>, tid: nat, target: string, approved: bool,
                            comment: string)
  {
    exists i: nat :: CalledBy(cfg, moves, i, tid, target, approved, comment)
  }

  ghost predicate ApproverVerified(cfg: Settings, moves: seq<Move>, tid: nat, approver: string) {
    exists i: nat :: ApproverTokenOf(cfg, moves, i, tid, approver)
  }

  // ----- What has happened stays -----

  lemma SubmittedStays(cfg: Settings, moves: seq<Move>, n: nat, id: string, action: string, resource: string,
                       namespace: string, params: Members)
    requires n <= |moves| && Submitted(cfg, moves[..n], id, action, resource, namespace, params)
    ensures Submitted(cfg, moves, id, action, resource, namespace, params)
  {
    var i: nat :| SubmittedBy(cfg, moves[..n], i, id, action, resource, namespace, params);
    assert moves[..n][..i] == moves[..i];
    assert SubmittedBy(cfg, moves, i, id, action, resource, namespace, params);
  }

  lemma TokenStays(cfg: Settings, moves: seq<Move>, n: nat, id: string, identity: string, role: string)
    requires n <= |moves| && TokenVerified(cfg, moves[..n], id, identity, role)
    ensures TokenVerified(cfg, moves, id, identity, role)
  {
    var i: nat :| TokenOf(cfg, moves[..n], i, id, identity, role);
    assert moves[..n][..i] == moves[..i];
    assert TokenOf(cfg, moves, i, id, identity, role);
  }

  lemma CallStays(cfg: Settings, moves: seq<Move>, n: nat, tid: nat, target: string, approved: bool, comment: string)
    requires n <= |moves| && WasCalled(cfg, moves[..n], tid, target, approved, comment)
    ensures WasCalled(cfg, moves, tid, target, approved, comment)
  {
    var i: nat :| CalledBy(cfg, moves[..n], i, tid, target, approved, comment);
    assert moves[..n][..i] == moves[..i];
    assert CalledBy(cfg, moves, i, tid, target, approved, comment);
  }

  lemma ApproverStays(cfg: Settings, moves: seq<Move>, n: nat, tid: nat, approver: string)
    requires n <= |moves| && ApproverVerified(cfg, moves[..n], tid, approver)
    ensures ApproverVerified(cfg, moves, tid, approver)
  {
    var i: nat :| ApproverTokenOf(cfg, moves[..n], i, tid, approver);
    assert moves[..n][..i] == moves[..i];
    assert ApproverTokenOf(cfg, moves, i, tid, approver);
  }

  // ----- Frames -----

  ghost predicate BodyFrom(cfg: Settings, moves: seq<Move>, w: World, id: string, b: Body) {
    && b.params < |w.heap|
    && Submitted(cfg, moves, id, b.action, b.resource, b.namespace, w.heap[b.params])
  }

  /** A submission in flight carries what was submitted under its id, and the identity of its verified token. */
  ghost predicate SubFrom(cfg: Settings, moves: seq<Move>, w: World, id: string, f: Submission) {
    match f
    case Entered(b) => BodyFrom(cfg, moves, w, id, b)
    case Verified(b, identity, role) =>
      BodyFrom(cfg, moves, w, id, b) && TokenVerified(cfg, moves, id, identity, role)
    case Finished(_) => true
    case _ => BodyFrom(cfg, moves, w, id, f.ctx.body) && TokenVerified(cfg, moves, id, f.ctx.identity, f.ctx.role)
  }

  /** An approval in flight carries what its caller chose, and from its second statement on the subject of its verified
      token. */
  ghost predicate AppFrom(cfg: Settings, moves: seq<Move>, tid: nat, f: Approval) {
    match f
    case Called(target, approved, comment) => WasCalled(cfg, moves, tid, target, approved, comment)
    case Identified(target, approved, comment, approver) =>
      WasCalled(cfg, moves, tid, target, approved, comment) && ApproverVerified(cfg, moves, tid, approver)
    case Holding(approved, comment, approver, p) =>
      WasCalled(cfg, moves, tid, p.requestId, approved, comment) && ApproverVerified(cfg, moves, tid, approver)
    case HasExecuted(comment, approver, p) =>
      WasCalled(cfg, moves, tid, p.requestId, true, comment) && ApproverVerified(cfg, moves, tid, approver)
    case Over(_) => true
  }

  ghost predicate AllFrom(cfg: Settings, moves: seq<Move>, s: Sys) {
    && (forall id :: id in s.subs ==> SubFrom(cfg, moves, s.world, id, s.subs[id]))
    && (forall tid :: tid in s.apps ==> AppFrom(cfg, moves, tid, s.apps[tid]))
  }

  lemma BodyStays(cfg: Settings, moves: seq<Move>, n: nat, w: World, w': World, id: string, b: Body)
    requires n <= |moves| && w.heap <= w'.heap && BodyFrom(cfg, moves[..n], w, id, b)
    ensures BodyFrom(cfg, moves, w', id, b)
  {
    SubmittedStays(cfg, moves, n, id, b.action, b.resource, b.namespace, w.heap[b.params]);
  }

  lemma SubStays(cfg: Settings, moves: seq<Move>, n: nat, w: World, w': World, id: string, f: Submission)
    requires n <= |moves| && w.heap <= w'.heap && SubFrom(cfg, moves[..n], w, id, f)
    ensures SubFrom(cfg, moves, w', id, f)
  {
    match f
    case Entered(b) => BodyStays(cfg, moves, n, w, w', id, b);
    case Verified(b, identity, role) =>
      BodyStays(cfg, moves, n, w, w', id, b);
      TokenStays(cfg, moves, n, id, identity, role);
    case Finished(_) =>
    case _ =>
      BodyStays(cfg, moves, n, w, w', id, f.ctx.body);
      TokenStays(cfg, moves, n, id, f.ctx.identity, f.ctx.role);
  }

  lemma AppStays(cfg: Settings, moves: seq<Move>, n: nat, tid: nat, f: Approval)
    requires n <= |moves| && AppFrom(cfg, moves[..n], tid, f)
    ensures AppFrom(cfg, moves, tid, f)
  {
    match f
    case Called(target, approved, comment) => CallStays(cfg, moves, n, tid, target, approved, comment);
    case Identified(target, approved, comment, approver) =>
      CallStays(cfg, moves, n, tid, target, approved, comment);
      ApproverStays(cfg, moves, n, tid, approver);
    case Holding(approved, comment, approver, p) =>
      CallStays(cfg, moves, n, tid, p.requestId, approved, comment);
      ApproverStays(cfg, moves, n, tid, approver);
    case HasExecuted(comment, approver, p) =>
      CallStays(cfg, moves, n, tid, p.requestId, true, comment);
      ApproverStays(cfg, moves, n, tid, approver);
    case Over(_) =>
  }

  /** One statement of a submission: what its frame carries came in before, but for the token, which this move brings.
      */
  lemma SubmissionFrom(cfg: Settings, moves: seq<Move>, s: Sys, id: string, c: Choice)
    requires moves != [] && moves[|moves| - 1] == RunSubmission(id, c) && s == Run(cfg, moves[..|moves| - 1])
    requires Enabled(s, RunSubmission(id, c)) && SubFrom(cfg, moves, s.world, id, s.subs[id])
    ensures var (w', f') := StepSubmission(cfg, s.world, id, s.subs[id], c);
            w'.heap == s.world.heap && SubFrom(cfg, moves, w', id, f')
  {
    var f := s.subs[id];
    if f.Entered? && c.token.Some? {
      assert TokenOf(cfg, moves, |moves| - 1, id, c.token.value.0, c.token.value.1);
    }
  }

  lemma ApprovalFrom(cfg: Settings, moves: seq<Move>, s: Sys, tid: nat, c: Choice)
    requires moves != [] && moves[|moves| - 1] == RunApproval(tid, c) && s == Run(cfg, moves[..|moves| - 1])
    requires Enabled(s, RunApproval(tid, c)) && AppFrom(cfg, moves, tid, s.apps[tid])
    requires DistinctIds(s.world.queue)
    ensures var (w', f') := StepApproval(cfg, s.world, tid, s.apps[tid], c);
            w'.heap == s.world.heap && AppFrom(cfg, moves, tid, f')
  {
    var f := s.apps[tid];
    if f.Called? && c.token.Some? {
      assert ApproverTokenOf(cfg, moves, |moves| - 1, tid, c.token.value.0);
    } else if f.Identified? {
      Taking(s.world.queue, f.target);
    }
  }

  lemma OthersStay(cfg: Settings, moves: seq<Move>, n: nat, s: Sys, w': World)
    requires n <= |moves| && s.world.heap <= w'.heap && AllFrom(cfg, moves[..n], s)
    ensures AllFrom(cfg, moves, s.(world := w'))
  {
    forall id | id in s.subs
      ensures SubFrom(cfg, moves, w', id, s.subs[id])
    {
      SubStays(cfg, moves, n, s.world, w', id, s.subs[id]);
    }
    forall tid | tid in s.apps
      ensures AppFrom(cfg, moves, tid, s.apps[tid])
    {
      AppStays(cfg, moves, n, tid, s.apps[tid]);
    }
  }

  lemma StepFrom(cfg: Settings, moves: seq<Move>, s: Sys, m: Move)
    requires moves != [] && m == moves[|moves| - 1] && s == Run(cfg, moves[..|moves| - 1]) && Enabled(s, m)
    requires AllFrom(cfg, moves[..|moves| - 1], s) && DistinctIds(s.world.queue)
    ensures AllFrom(cfg, moves, Step(cfg, s, m))
  {
    var n, s' := |moves| - 1, Step(cfg, s, m);
    OthersStay(cfg, moves, n, s, s.world);
    match m
    case Submit(id, action, resource, namespace, params) =>
      OthersStay(cfg, moves, n, s, s'.world);
      assert SubmittedBy(cfg, moves, n, id, action, resource, namespace, params);
    case Approve(tid, target, approved, comment) =>
      assert CalledBy(cfg, moves, n, tid, target, approved, comment);
    case RunSubmission(id, c) =>
      SubmissionFrom(cfg, moves, s, id, c);
      OthersStay(cfg, moves, n, s, s'.world);
    case RunApproval(tid, c) =>
      ApprovalFrom(cfg, moves, s, tid, c);
      OthersStay(cfg, moves, n, s, s'.world);
  }

  lemma {:induction false} RunFrom(cfg: Settings, moves: seq<Move>)
    ensures AllFrom(cfg, moves, Run(cfg, moves))
  {
    if moves == [] {
    } else {
      var front := moves[..|moves| - 1];
      var s, m := Run(cfg, front), moves[|moves| - 1];
      RunFrom(cfg, front);
      RunKeepsInv(cfg, front);
      if Enabled(s, m) {
        StepFrom(cfg, moves, s, m);
      } else {
        OthersStay(cfg, moves, |moves| - 1, s, s.world);
      }
    }
  }

  // ----- The move of an event -----

  /** Move i emitted the event at position k. */
  ghost predicate EmittedBy(cfg: Settings, moves: seq<Move>, i: nat, k: nat) {
    && i < |moves| && k < |TraceOf(cfg, moves)|
    && var s := Run(cfg, moves[..i]);
       && Enabled(s, moves[i]) && |s.world.trace| == k
       && Step(cfg, s, moves[i]).world.trace == s.world.trace + [TraceOf(cfg, moves)[k]]
  }

  lemma StepEmits(cfg: Settings, s: Sys, m: Move)
    requires Enabled(s, m)
    ensures var t, t' := s.world.trace, Step(cfg, s, m).world.trace;
            t' == t || (|t'| == |t| + 1 && t' == t + [t'[|t|]])
  {
    if m.RunSubmission? {
      SubmissionByOneEvent(cfg, s.world, m.id, s.subs[m.id], m.choice);
    } else if m.RunApproval? {
      ApprovalByOneEvent(cfg, s.world, m.tid, s.apps[m.tid], m.choice);
    }
  }

  lemma EmittedEarlier(cfg: Settings, moves: seq<Move>, i: nat, k: nat)
    requires moves != [] && EmittedBy(cfg, moves[..|moves| - 1], i, k)
    requires TraceOf(cfg, moves[..|moves| - 1]) <= TraceOf(cfg, moves)
    ensures EmittedBy(cfg, moves, i, k)
  {
    assert moves[..|moves| - 1][..i] == moves[..i];
  }

  lemma {:induction false} EventHasMove(cfg: Settings, moves: seq<Move>, k: nat)
    requires k < |TraceOf(cfg, moves)|
    ensures exists i: nat :: EmittedBy(cfg, moves, i, k)
  {
    if moves == [] {
    } else {
      var front := moves[..|moves| - 1];
      var s, m := Run(cfg, front), moves[|moves| - 1];
      if Enabled(s, m) {
        StepEmits(cfg, s, m);
      }
      if k < |s.world.trace| {
        EventHasMove(cfg, front, k);
        var i: nat :| EmittedBy(cfg, front, i, k);
        EmittedEarlier(cfg, moves, i, k);
      } else {
        assert EmittedBy(cfg, moves, |moves| - 1, k);
      }
    }
  }

  // ----- What one statement emits -----

  lemma SubmissionEmits(cfg: Settings, w: World, id: string, f: Submission, c: Choice, k: string, e: Event)
    requires StepSubmission(cfg, w, id, f, c).0.trace == w.trace + [(k, e)]
    ensures k == id && !e.Popped?
    ensures e.Authenticated? ==> f.Entered? && c.token == Some((e.identity, e.role))
    ensures e.Judged? ==> f.Assessed? && e.snap == SnapOf(w, f.ctx) && e.input == InputOf(e.snap)
    ensures e.Note? ==> e.record.timestamp == c.now && e.stored == c.canOpen
    ensures e.Note? ==> e.record.decision in {DENY, PENDING, ALLOW}
    ensures e.Enqueued? ==> e.pending.queuedAt == c.queuedAt
  {
    var t := StepSubmission(cfg, w, id, f, c).0.trace;
    assert t[|w.trace|] == (k, e);
  }

  lemma ApprovalEmits(cfg: Settings, w: World, tid: nat, f: Approval, c: Choice, k: string, e: Event)
    requires StepApproval(cfg, w, tid, f, c).0.trace == w.trace + [(k, e)]
    ensures !e.Judged? && !e.Authenticated? && !e.Enqueued?
    ensures e.Popped? ==> f.Identified? && k == f.target && e == Popped(tid, f.approver, f.approved)
    ensures e.Note? ==> e.record.timestamp == c.now && e.stored == c.canOpen
    ensures e.Note? && f.Holding? ==>
              k == f.pending.requestId && !f.approved && e.record.decision == HUMAN_DENY
              && e.record.opaReason == Some(HumanReason(cfg, false, f.approver, f.comment))
    ensures e.Note? && !f.Holding? ==>
              f.HasExecuted? && k == f.pending.requestId && e.record.decision == HUMAN_ALLOW
              && e.record.opaReason == Some(HumanReason(cfg, true, f.approver, f.comment))
  {
    var t := StepApproval(cfg, w, tid, f, c).0.trace;
    assert t[|w.trace|] == (k, e);
  }

  /** The move that emitted an event ran one statement of a frame. */
  lemma EmittingMove(cfg: Settings, moves: seq<Move>, i: nat, k: nat)
    requires EmittedBy(cfg, moves, i, k)
    ensures moves[i].RunSubmission? || moves[i].RunApproval?
  {
  }

  // ----- Where events come from -----

  /** Whatever is judged was submitted under its id with those very strings and parameters, for the identity and role
      of a verified token; and OPA is told exactly that, with verb, resource and namespace in lower case. */
  lemma JudgedWasSubmitted(cfg: Settings, moves: seq<Move>, k: nat)
    requires k < |TraceOf(cfg, moves)| && TraceOf(cfg, moves)[k].1.Judged?
    ensures var id, snap := TraceOf(cfg, moves)[k].0, TraceOf(cfg, moves)[k].1.snap;
            && Submitted(cfg, moves, id, snap.action, snap.resource, snap.namespace, snap.params)
            && TokenVerified(cfg, moves, id, snap.identity, snap.role)
            && TraceOf(cfg, moves)[k].1.input == InputOf(snap)
  {
    EventHasMove(cfg, moves, k);
    var i: nat :| EmittedBy(cfg, moves, i, k);
    EmittingMove(cfg, moves, i, k);
    var s, m := Run(cfg, moves[..i]), moves[i];
    var id, e := TraceOf(cfg, moves)[k].0, TraceOf(cfg, moves)[k].1;
    if m.RunSubmission? {
      SubmissionEmits(cfg, s.world, m.id, s.subs[m.id], m.choice, id, e);
      RunFrom(cfg, moves[..i]);
      SubStays(cfg, moves, i, s.world, s.world, id, s.subs[id]);
    } else {
      ApprovalEmits(cfg, s.world, m.tid, s.apps[m.tid], m.choice, id, e);
    }
  }

  /** Whatever is authenticated is so by a verified token of that identity and role. */
  lemma AuthenticatedByToken(cfg: Settings, moves: seq<Move>, k: nat)
    requires k < |TraceOf(cfg, moves)| && TraceOf(cfg, moves)[k].1.Authenticated?
    ensures var (id, e) := TraceOf(cfg, moves)[k]; TokenVerified(cfg, moves, id, e.identity, e.role)
  {
    EventHasMove(cfg, moves, k);
    var i: nat :| EmittedBy(cfg, moves, i, k);
    EmittingMove(cfg, moves, i, k);
    var s, m := Run(cfg, moves[..i]), moves[i];
    var id, e := TraceOf(cfg, moves)[k].0, TraceOf(cfg, moves)[k].1;
    if m.RunSubmission? {
      SubmissionEmits(cfg, s.world, m.id, s.subs[m.id], m.choice, id, e);
      assert TokenOf(cfg, moves, i, id, e.identity, e.role);
    } else {
      ApprovalEmits(cfg, s.world, m.tid, s.apps[m.tid], m.choice, id, e);
    }
  }

  /** Whoever takes a request out of the queue called that approval for that request with that choice, and is the
      subject of a token that was verified for it. */
  lemma PoppedByVerifiedApprover(cfg: Settings, moves: seq<Move>, k: nat)
    requires k < |TraceOf(cfg, moves)| && TraceOf(cfg, moves)[k].1.Popped?
    ensures var (id, e) := TraceOf(cfg, moves)[k];
            && ApproverVerified(cfg, moves, e.tid, e.approver)
            && exists comment :: WasCalled(cfg, moves, e.tid, id, e.approved, comment)
  {
    EventHasMove(cfg, moves, k);
    var i: nat :| EmittedBy(cfg, moves, i, k);
    EmittingMove(cfg, moves, i, k);
    var s, m := Run(cfg, moves[..i]), moves[i];
    var id, e := TraceOf(cfg, moves)[k].0, TraceOf(cfg, moves)[k].1;
    if m.RunSubmission? {
      SubmissionEmits(cfg, s.world, m.id, s.subs[m.id], m.choice, id, e);
    } else {
      ApprovalEmits(cfg, s.world, m.tid, s.apps[m.tid], m.choice, id, e);
      RunFrom(cfg, moves[..i]);
      AppStays(cfg, moves, i, m.tid, s.apps[m.tid]);
    }
  }

  function ChoiceOf(m: Move): Option<Choice> {
    match m
    case RunSubmission(_, c) => Some(c)
    case RunApproval(_, c) => Some(c)
    case _ => None
  }

  /** An audit write carries the clock's reading at its own statement, and is stored exactly when the log opened
      there. */
  lemma NoteIsTimed(cfg: Settings, moves: seq<Move>, k: nat)
    requires k < |TraceOf(cfg, moves)| && TraceOf(cfg, moves)[k].1.Note?
    ensures var e := TraceOf(cfg, moves)[k].1;
            exists i: nat :: EmittedBy(cfg, moves, i, k) && ChoiceOf(moves[i]).Some?
                        && e.record.timestamp == ChoiceOf(moves[i]).value.now
                        && e.stored == ChoiceOf(moves[i]).value.canOpen
  {
    EventHasMove(cfg, moves, k);
    var i: nat :| EmittedBy(cfg, moves, i, k);
    EmittingMove(cfg, moves, i, k);
    var s, m := Run(cfg, moves[..i]), moves[i];
    var id, e := TraceOf(cfg, moves)[k].0, TraceOf(cfg, moves)[k].1;
    if m.RunSubmission? {
      SubmissionEmits(cfg, s.world, m.id, s.subs[m.id], m.choice, id, e);
    } else {
      ApprovalEmits(cfg, s.world, m.tid, s.apps[m.tid], m.choice, id, e);
    }
    assert EmittedBy(cfg, moves, i, k) && ChoiceOf(moves[i]).Some?;
  }

  /** A queued request carries the clock's reading at its enqueue. */
  lemma QueuedIsTimed(cfg: Settings, moves: seq<Move>, k: nat)
    requires k < |TraceOf(cfg, moves)| && TraceOf(cfg, moves)[k].1.Enqueued?
    ensures var e := TraceOf(cfg, moves)[k].1;
            exists i: nat :: EmittedBy(cfg, moves, i, k) && ChoiceOf(moves[i]).Some?
                        && e.pending.queuedAt == ChoiceOf(moves[i]).value.queuedAt
  {
    EventHasMove(cfg, moves, k);
    var i: nat :| EmittedBy(cfg, moves, i, k);
    EmittingMove(cfg, moves, i, k);
    var s, m := Run(cfg, moves[..i]), moves[i];
    var id, e := TraceOf(cfg, moves)[k].0, TraceOf(cfg, moves)[k].1;
    if m.RunSubmission? {
      SubmissionEmits(cfg, s.world, m.id, s.subs[m.id], m.choice, id, e);
    } else {
      ApprovalEmits(cfg, s.world, m.tid, s.apps[m.tid], m.choice, id, e);
    }
    assert EmittedBy(cfg, moves, i, k) && ChoiceOf(moves[i]).Some?;
  }

  /** The second record of a request names a verified approver and repeats the comment of the approval it called. */
  ghost predicate SaysWhoAndWhy(cfg: Settings, moves: seq<Move>, id: string, r: Record, tid: nat, approver: string,
                                comment: string)
  {
    && ApproverVerified(cfg, moves, tid, approver)
    && WasCalled(cfg, moves, tid, id, r.decision == HUMAN_ALLOW, comment)
    && r.opaReason == Some("Human " + (if r.decision == HUMAN_ALLOW then "approved" else "denied") + " by "
                           + cfg.reprOf(approver) + ". Reason: " + (if comment == "" then "none" else comment))
  }

  lemma HumanNoteSaysWhoAndWhy(cfg: Settings, moves: seq<Move>, k: nat)
    requires k < |TraceOf(cfg, moves)| && TraceOf(cfg, moves)[k].1.Note?
    requires TraceOf(cfg, moves)[k].1.record.decision in {HUMAN_ALLOW, HUMAN_DENY}
    ensures var (id, e) := TraceOf(cfg, moves)[k];
            exists tid: nat, approver, comment :: SaysWhoAndWhy(cfg, moves, id, e.record, tid, approver, comment)
  {
    EventHasMove(cfg, moves, k);
    var i: nat :| EmittedBy(cfg, moves, i, k);
    EmittingMove(cfg, moves, i, k);
    var s, m := Run(cfg, moves[..i]), moves[i];
    var id, e := TraceOf(cfg, moves)[k].0, TraceOf(cfg, moves)[k].1;
    if m.RunSubmission? {
      SubmissionEmits(cfg, s.world, m.id, s.subs[m.id], m.choice, id, e);
      DecisionsDiffer();
    } else {
      var f := s.apps[m.tid];
      ApprovalEmits(cfg, s.world, m.tid, f, m.choice, id, e);
      RunFrom(cfg, moves[..i]);
      AppStays(cfg, moves, i, m.tid, f);
      DecisionsDiffer();
      assert SaysWhoAndWhy(cfg, moves, id, e.record, m.tid, f.approver, f.comment);
    }
  }

  lemma DecisionsDiffer()
    ensures HUMAN_ALLOW !in {DENY, PENDING, ALLOW} && HUMAN_DENY !in {DENY, PENDING, ALLOW}
    ensures HUMAN_ALLOW != HUMAN_DENY
    ensures DENY == "deny" && ALLOW == "allow" && PENDING == "pending-approval"
    ensures HUMAN_ALLOW == "human-allow" && HUMAN_DENY == "human-deny"
  {
    assert |HUMAN_ALLOW| == 11 && |HUMAN_DENY| == 10 && |DENY| == 4 && |PENDING| == 16 && |ALLOW| == 5;
  }
}
