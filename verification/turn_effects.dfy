/** What each turn of the event loop does, said of the turn and of the states before and after it: which response, which
    calls, which change of the queue and which audit record with which fields. */
module TurnEffects {
  import opened JsonValues
  import opened AuditLogs
  import opened ApprovalQueues
  import opened Lifecycle
  import opened Gateway
  import opened Safety
  import opened EventLoop
  import opened Handlers
  import AuditCoverage
  import K8sClient
  import Scorer

  // ----- Effects -----

  /** One record at the end of the log, with these contents; nothing if the log could not be opened. */
  ghost predicate Wrote(w: World, w': World, c: Choice, id: string, snap: Snap, decision: string, reason: string) {
    if c.canOpen then
      && |w'.audit| == |w.audit| + 1 && w.audit <= w'.audit
      && var r := w'.audit[|w.audit|];
         && r.timestamp == c.now && r.requestId == id && Repeats(r, snap)
         && r.decision == decision && r.opaReason == Some(reason)
    else w'.audit == w.audit
  }

  /** The call of the request is sent, if there is one and the environment lets it through. */
  ghost predicate Sent(cfg: Settings, w: World, w': World, snap: Snap, env: K8sClient.Environment) {
    var call := K8sClient.CallOf(cfg, snap.action, snap.resource, snap.namespace, snap.params);
    w'.calls == w.calls + if env.config == K8sClient.Loaded && call.Returns?
                             && env.answer != K8sClient.InvalidValue(false)
                             && env.answer != K8sClient.OtherException(false)
                          then [call.value] else []
  }

  predicate SameQueueAndCalls(w: World, w': World) {
    w'.queue == w.queue && w'.calls == w.calls
  }

  lemma NoteIsWritten(w: World, id: string, snap: Snap, decision: string, reason: string, c: Choice)
    ensures var w' := WriteNote(w, id, NoteOf(c.now, id, snap, decision, reason), c.canOpen);
            SameQueueAndCalls(w, w') && Wrote(w, w', c, id, snap, decision, reason)
  {
    assert w.audit + [] == w.audit;
  }

  lemma ExecutionSends(cfg: Settings, w: World, id: string, actor: Actor, snap: Snap, env: K8sClient.Environment)
    ensures var (w', outcome) := Execute(cfg, w, id, actor, snap, env);
            && Sent(cfg, w, w', snap, env) && w'.queue == w.queue && w'.audit == w.audit && w'.heap == w.heap
            && (Raises(outcome) <==> AuditCoverage.ExecutionRaises(cfg, snap, env))
  {
    AuditCoverage.RaisesExactly(cfg, snap, env);
  }

  // ----- A new request -----

  /** A refused token ends the request; otherwise it waits for OPA as it was submitted, with its token's identity and
      role and the assessment of its strings and parameters. */
  ghost predicate RequestDone(cfg: Settings, s: Sys, turn: Turn, s': Sys)
    requires turn.Request?
  {
    && SameQueueAndCalls(s.world, s'.world) && s'.world.audit == s.world.audit
    && turn.id in s'.subs
    && match turn.choice.token
       case None => s'.subs[turn.id] == Finished(Unauthorised)
       case Some((identity, role)) =>
         && s'.subs[turn.id].AwaitingOpa?
         && s'.subs[turn.id].ctx.risk ==
              Scorer.Assess(cfg, turn.action, turn.resource, turn.namespace, turn.params)
         && SnapOf(s'.world, s'.subs[turn.id].ctx) ==
              Snap(identity, role, turn.action, turn.resource, turn.namespace, turn.params,
                   Scorer.Assess(cfg, turn.action, turn.resource, turn.namespace, turn.params))
  }

  lemma RequestRefused(cfg: Settings, w: World, id: string, b: Body, c: Choice)
    requires c.token.None?
    ensures Proceed(cfg, w, id, Entered(b), c) == (Emit(w, id, Rejected), Finished(Unauthorised))
  {
    LastStatement(cfg, w, id, Entered(b), c);
  }

  function AskingCtx(cfg: Settings, w: World, b: Body, token: (string, string)): Ctx {
    Ctx(token.0, token.1, b, Scorer.Assess(cfg, b.action, b.resource, b.namespace, Deref(w, b.params)))
  }

  lemma RequestAsks(cfg: Settings, w: World, id: string, b: Body, c: Choice)
    requires c.token.Some?
    ensures var (w', f) := Proceed(cfg, w, id, Entered(b), c);
            && SameQueueAndCalls(w, w') && w'.audit == w.audit && w'.heap == w.heap
            && f == AwaitingOpa(AskingCtx(cfg, w, b, c.token.value))
  {
    var (identity, role) := c.token.value;
    var w1, ctx := Emit(w, id, Authenticated(identity, role)), AskingCtx(cfg, w, b, c.token.value);
    OneStatement(cfg, w, id, Entered(b), c);
    OneStatement(cfg, w1, id, Verified(b, identity, role), c);
    LastStatement(cfg, w1, id, Assessed(ctx), c);
  }

  lemma RequestEffect(cfg: Settings, turns: seq<Turn>, turn: Turn)
    requires turn.Request? && turn.id !in Play(cfg, turns).subs
    ensures RequestDone(cfg, Play(cfg, turns), turn, Play(cfg, turns + [turn]))
  {
    var w := Play(cfg, turns).world;
    var w0 := w.(heap := w.heap + [turn.params]);
    var b := Body(turn.action, turn.resource, turn.namespace, |w.heap|);
    TurnIsHandlerCall(cfg, turns, turn);
    assert Deref(w0, b.params) == turn.params;
    if turn.choice.token.None? {
      RequestRefused(cfg, w0, turn.id, b, turn.choice);
    } else {
      RequestAsks(cfg, w0, turn.id, b, turn.choice);
    }
  }

  // ----- A reply of OPA -----

  ghost predicate Denies(w: World, w': World, f: Submission, id: string, snap: Snap, reason: string, c: Choice) {
    f == Finished(Denied) && SameQueueAndCalls(w, w') && Wrote(w, w', c, id, snap, DENY, reason)
  }

  /** The request goes to the end of the queue with everything it was judged by. */
  ghost predicate Queues(w: World, w': World, f: Submission, id: string, snap: Snap, reason: string, c: Choice) {
    && f == Finished(PendingApproval) && w'.calls == w.calls
    && |w'.queue| == |w.queue| + 1 && w.queue <= w'.queue
    && (var p := w'.queue[|w.queue|];
        p.requestId == id && SnapOfPending(w', p) == snap && p.queuedAt == c.queuedAt)
    && Wrote(w, w', c, id, snap, PENDING, reason)
  }

  ghost predicate Runs(cfg: Settings, w: World, w': World, f: Submission, id: string, snap: Snap, reason: string,
                       c: Choice)
  {
    && w'.queue == w.queue && Sent(cfg, w, w', snap, c.env)
    && if AuditCoverage.ExecutionRaises(cfg, snap, c.env) then f == Finished(ExecutionError) && w'.audit == w.audit
       else f == Finished(Allowed) && Wrote(w, w', c, id, snap, ALLOW, reason)
  }

  /** An unreadable answer changes nothing; a denial is recorded; what is allowed is queued if it is high-risk, and
      executed if it is not. */
  ghost predicate ReplyDone(cfg: Settings, w: World, w': World, f: Submission, id: string, snap: Snap, c: Choice) {
    match Interpret(cfg, c.reply)
    case HandlerRaises => f == Finished(OpaFailure) && SameQueueAndCalls(w, w') && w'.audit == w.audit
    case Decision(allowed, reason) =>
      if !allowed then Denies(w, w', f, id, snap, reason, c)
      else if snap.risk.level == Scorer.HIGH then Queues(w, w', f, id, snap, reason, c)
      else Runs(cfg, w, w', f, id, snap, reason, c)
  }

  lemma DenialDone(cfg: Settings, w: World, id: string, f: Submission, c: Choice)
    requires f.Ruled? && !f.allowed
    ensures var (w', f') := Proceed(cfg, w, id, f, c); Denies(w, w', f', id, SnapOf(w, f.ctx), f.reason, c)
  {
    NoteIsWritten(w, id, SnapOf(w, f.ctx), DENY, f.reason, c);
    LastStatement(cfg, w, id, f, c);
  }

  lemma QueueingDone(cfg: Settings, w: World, id: string, f: Submission, c: Choice)
    requires f.Ruled? && f.allowed && f.ctx.risk.level == Scorer.HIGH && !Queued(w.queue, id)
    ensures var (w', f') := Proceed(cfg, w, id, f, c); Queues(w, w', f', id, SnapOf(w, f.ctx), f.reason, c)
  {
    var (w1, f1) := StepSubmission(cfg, w, id, f, c);
    PutNew(w.queue, PendingOf(id, f.ctx, c.queuedAt));
    NoteIsWritten(w1, id, SnapOf(w1, f.ctx), PENDING, f.reason, c);
    OneStatement(cfg, w, id, f, c);
    LastStatement(cfg, w1, id, f1, c);
  }

  lemma ExecutionStep(cfg: Settings, w: World, id: string, f: Submission, c: Choice)
    requires f.Ruled? && f.allowed && f.ctx.risk.level != Scorer.HIGH
    ensures var (w1, f1) := StepSubmission(cfg, w, id, f, c); var snap := SnapOf(w, f.ctx);
            && Sent(cfg, w, w1, snap, c.env) && w1.queue == w.queue && w1.audit == w.audit && SnapOf(w1, f.ctx) == snap
            && f1 == if AuditCoverage.ExecutionRaises(cfg, snap, c.env) then Finished(ExecutionError)
                     else HasRun(f.ctx, f.reason)
  {
    ExecutionSends(cfg, w, id, Submitter, SnapOf(w, f.ctx), c.env);
  }

  lemma RunDone(cfg: Settings, w: World, id: string, f: Submission, c: Choice)
    requires f.Ruled? && f.allowed && f.ctx.risk.level != Scorer.HIGH
    ensures var (w', f') := Proceed(cfg, w, id, f, c); Runs(cfg, w, w', f', id, SnapOf(w, f.ctx), f.reason, c)
  {
    var (w1, f1) := StepSubmission(cfg, w, id, f, c);
    ExecutionStep(cfg, w, id, f, c);
    OneStatement(cfg, w, id, f, c);
    if f1.HasRun? {
      NoteIsWritten(w1, id, SnapOf(w1, f.ctx), ALLOW, f.reason, c);
      LastStatement(cfg, w1, id, f1, c);
    } else {
      AtRestStays(cfg, w1, id, f1, c);
    }
  }

  lemma RestartDone(cfg: Settings, w: World, id: string, ctx: Ctx, c: Choice)
    requires !Queued(w.queue, id)
    ensures var (w', f') := Restart(cfg, w, id, AwaitingOpa(ctx), c); ReplyDone(cfg, w, w', f', id, SnapOf(w, ctx), c)
  {
    var (w1, f1) := StepSubmission(cfg, w, id, AwaitingOpa(ctx), c);
    assert SnapOf(w1, ctx) == SnapOf(w, ctx);
    if f1.Ruled? {
      if !f1.allowed {
        DenialDone(cfg, w1, id, f1, c);
      } else if ctx.risk.level == Scorer.HIGH {
        QueueingDone(cfg, w1, id, f1, c);
      } else {
        RunDone(cfg, w1, id, f1, c);
      }
    }
  }

  lemma ReplyEffect(cfg: Settings, turns: seq<Turn>, id: string, c: Choice)
    requires var s := Play(cfg, turns); id in s.subs && s.subs[id].AwaitingOpa?
    ensures var s, s' := Play(cfg, turns), Play(cfg, turns + [OpaReplied(id, c)]);
            id in s'.subs && ReplyDone(cfg, s.world, s'.world, s'.subs[id], id, SnapOf(s.world, s.subs[id].ctx), c)
  {
    var s := Play(cfg, turns);
    TurnIsHandlerCall(cfg, turns, OpaReplied(id, c));
    PlayTidy(cfg, turns);
    assert SubOk(cfg, s, id);
    NotHeldNowhere(cfg, s, id);
    RestartDone(cfg, s.world, id, s.subs[id].ctx, c);
  }

  // ----- An approval -----

  function Verdict(cfg: Settings, approved: bool, approver: string, comment: string): string {
    (if approved then "Human approved by " else "Human denied by ") + cfg.reprOf(approver)
    + ". Reason: " + (if comment == "" then "none" else comment)
  }

  lemma VerdictIsReason(cfg: Settings, approved: bool, approver: string, comment: string)
    ensures HumanReason(cfg, approved, approver, comment) == Verdict(cfg, approved, approver, comment)
  {
    VerdictTexts(cfg, approver);
  }

  /** An approval without a verified token changes nothing and is refused. */
  lemma ApprovalRefused(cfg: Settings, turns: seq<Turn>, turn: Turn)
    requires turn.ApproveRequest? && turn.tid !in Play(cfg, turns).apps && turn.choice.token.None?
    ensures var s, s' := Play(cfg, turns), Play(cfg, turns + [turn]);
            s'.world == s.world && s'.subs == s.subs && s'.apps == s.apps[turn.tid := Over(ApproverUnauthorised)]
  {
    TurnIsHandlerCall(cfg, turns, turn);
    RefusedRun(cfg, Play(cfg, turns).world, turn.tid, turn.target, turn.approved, turn.comment, turn.choice);
  }

  lemma RefusedRun(cfg: Settings, w: World, tid: nat, target: string, approved: bool, comment: string, c: Choice)
    requires c.token.None?
    ensures ProceedApproval(cfg, w, tid, Called(target, approved, comment), c) == (w, Over(ApproverUnauthorised))
  {
    LastApprovalStatement(cfg, w, tid, Called(target, approved, comment), c);
  }

  /** An approval of a request that does not wait changes nothing either. */
  lemma ApprovalOfNothing(cfg: Settings, turns: seq<Turn>, turn: Turn)
    requires turn.ApproveRequest? && turn.tid !in Play(cfg, turns).apps && turn.choice.token.Some?
    requires forall p :: p in Play(cfg, turns).world.queue ==> p.requestId != turn.target
    ensures var s, s' := Play(cfg, turns), Play(cfg, turns + [turn]);
            s'.world == s.world && s'.subs == s.subs && s'.apps == s.apps[turn.tid := Over(NotFound)]
  {
    var s := Play(cfg, turns);
    TurnIsHandlerCall(cfg, turns, turn);
    NotQueuedMembers(s.world.queue, turn.target);
    WithoutAbsent(s.world.queue, turn.target);
    UnknownRun(cfg, s.world, turn.tid, turn.target, turn.approved, turn.comment, turn.choice);
  }

  lemma UnknownRun(cfg: Settings, w: World, tid: nat, target: string, approved: bool, comment: string, c: Choice)
    requires c.token.Some? && Find(w.queue, target) == None
    ensures ProceedApproval(cfg, w, tid, Called(target, approved, comment), c) == (w, Over(NotFound))
  {
    OneApprovalStatement(cfg, w, tid, Called(target, approved, comment), c);
    LastApprovalStatement(cfg, w, tid, Identified(target, approved, comment, c.token.value.0), c);
  }

  /** A denial is recorded; an approval executes what waited, and is recorded unless the execution raises. */
  ghost predicate Decided(cfg: Settings, w: World, w': World, f: Approval, p: PendingRequest, approver: string,
                          approved: bool, comment: string, c: Choice)
  {
    var id, snap, reason := p.requestId, SnapOfPending(w, p), Verdict(cfg, approved, approver, comment);
    if !approved then
      f == Over(ResolvedOk(id, false)) && w'.calls == w.calls && Wrote(w, w', c, id, snap, HUMAN_DENY, reason)
    else
      && Sent(cfg, w, w', snap, c.env)
      && if AuditCoverage.ExecutionRaises(cfg, snap, c.env) then f == Over(RunFailed(id)) && w'.audit == w.audit
         else f == Over(ResolvedOk(id, true)) && Wrote(w, w', c, id, snap, HUMAN_ALLOW, reason)
  }

  lemma HoldingDone(cfg: Settings, w: World, tid: nat, f: Approval, c: Choice)
    requires f.Holding?
    ensures var (w', f') := ProceedApproval(cfg, w, tid, f, c);
            && w'.queue == w.queue && w.trace <= w'.trace
            && Decided(cfg, w, w', f', f.pending, f.approver, f.approved, f.comment, c)
  {
    var id, snap := f.pending.requestId, SnapOfPending(w, f.pending);
    VerdictIsReason(cfg, f.approved, f.approver, f.comment);
    var (w1, f1) := StepApproval(cfg, w, tid, f, c);
    OneApprovalStatement(cfg, w, tid, f, c);
    if f.approved {
      ExecutionSends(cfg, w, id, Approver(tid), snap, c.env);
      if f1.HasExecuted? {
        NoteIsWritten(w1, id, snap, HUMAN_ALLOW, HumanReason(cfg, true, f.approver, f.comment), c);
        LastApprovalStatement(cfg, w1, tid, f1, c);
      }
    } else {
      NoteIsWritten(w, id, snap, HUMAN_DENY, HumanReason(cfg, false, f.approver, f.comment), c);
    }
  }

  /** What an authenticated approval of a waiting request does: the first event it adds takes the request out for the
      token's subject with the caller's own choice; the queue loses that request and no other; and the decision is
      carried out on the request that waited. */
  ghost predicate ApprovalDone(cfg: Settings, s: Sys, s': Sys, turn: Turn, p: PendingRequest)
    requires turn.ApproveRequest? && turn.choice.token.Some?
  {
    var approver := turn.choice.token.value.0;
    && (forall r :: r in s'.world.queue <==> r in s.world.queue && r != p)
    && |s.world.trace| < |s'.world.trace| && s.world.trace <= s'.world.trace
    && s'.world.trace[|s.world.trace|] == (turn.target, Popped(turn.tid, approver, turn.approved))
    && turn.tid in s'.apps
    && Decided(cfg, s.world, s'.world, s'.apps[turn.tid], p, approver, turn.approved, turn.comment, turn.choice)
  }

  lemma ApprovalEffect(cfg: Settings, turns: seq<Turn>, turn: Turn, p: PendingRequest)
    requires turn.ApproveRequest? && turn.tid !in Play(cfg, turns).apps && turn.choice.token.Some?
    requires p in Play(cfg, turns).world.queue && p.requestId == turn.target
    ensures ApprovalDone(cfg, Play(cfg, turns), Play(cfg, turns + [turn]), turn, p)
  {
    var s := Play(cfg, turns);
    TurnIsHandlerCall(cfg, turns, turn);
    PlayTidy(cfg, turns);
    FoundIs(s.world.queue, p);
    TakenRun(cfg, s.world, turn.tid, turn, p);
  }

  lemma FoundIs(q: Contents, p: PendingRequest)
    requires DistinctIds(q) && p in q
    ensures Find(q, p.requestId) == Some(p)
    ensures forall r :: r in Without(q, p.requestId) <==> r in q && r != p
  {
    var k :| 0 <= k < |q| && q[k] == p;
    WithoutAt(q, p.requestId, k);
    WithoutMembers(q, p.requestId);
    forall r | r in q && r.requestId == p.requestId
      ensures r == p
    {
      var j :| 0 <= j < |q| && q[j] == r;
      assert j == k;
    }
  }

  lemma TakenRun(cfg: Settings, w: World, tid: nat, turn: Turn, p: PendingRequest)
    requires turn.ApproveRequest? && turn.choice.token.Some?
    requires Find(w.queue, turn.target) == Some(p) && p.requestId == turn.target
    ensures var approver := turn.choice.token.value.0;
            var (w', f') := ProceedApproval(cfg, w, tid, Called(turn.target, turn.approved, turn.comment), turn.choice);
            && w'.queue == Without(w.queue, turn.target)
            && w.trace + [(turn.target, Popped(tid, approver, turn.approved))] <= w'.trace
            && Decided(cfg, w, w', f', p, approver, turn.approved, turn.comment, turn.choice)
  {
    var c, approver := turn.choice, turn.choice.token.value.0;
    var f0 := Called(turn.target, turn.approved, turn.comment);
    var f1 := Identified(turn.target, turn.approved, turn.comment, approver);
    var f2 := Holding(turn.approved, turn.comment, approver, p);
    var w2 := StepApproval(cfg, w, tid, f1, c).0;
    OneApprovalStatement(cfg, w, tid, f0, c);
    OneApprovalStatement(cfg, w, tid, f1, c);
    HoldingDone(cfg, w2, tid, f2, c);
    var (w', f') := ProceedApproval(cfg, w2, tid, f2, c);
    SameStart(cfg, w, w2, w', f', p, approver, turn.approved, turn.comment, c);
  }

  lemma SameStart(cfg: Settings, w: World, w2: World, w': World, f: Approval, p: PendingRequest, approver: string,
                  approved: bool, comment: string, c: Choice)
    requires w2.heap == w.heap && w2.calls == w.calls && w2.audit == w.audit
    requires Decided(cfg, w2, w', f, p, approver, approved, comment, c)
    ensures Decided(cfg, w, w', f, p, approver, approved, comment, c)
  {
  }
}
