/** The gateway as a machine over its statements (app/main.py). Every handler in flight is a frame; one step runs one
    statement of one handler. */
module Gateway {
  import opened JsonValues
  import opened AuditLogs
  import opened ApprovalQueues
  import opened Lifecycle
  import opened Traces
  import Scorer
  import K8sClient

  // ----- Shared state -----

  /** `heap` holds the params dicts, addressed by reference; `audit` the records in the file; `calls` what the cluster
      has received; `trace` every event so far, keyed by request id. */
  datatype World = World(
    heap: seq<Members>,
    queue: Contents,
    audit: seq<Record>,
    calls: seq<K8sClient.ApiCall>,
    trace: seq<(string, Event)>)

  // ----- Handlers in flight -----

  datatype Body = Body(action: string, resource: string, namespace: string, params: Ref)

  datatype Ctx = Ctx(identity: string, role: string, body: Body, risk: Scorer.RiskScore)

  datatype Response = Unauthorised | OpaFailure | Denied | PendingApproval | Allowed | ExecutionError

  /** POST /agent-action, by the statement it stands before. */
  datatype Submission =
    | Entered(body: Body)
    | Verified(body: Body, identity: string, role: string)
    | Assessed(ctx: Ctx)
    | AwaitingOpa(ctx: Ctx)
    | Ruled(ctx: Ctx, allowed: bool, reason: string)
    | InQueue(ctx: Ctx, reason: string)
    | HasRun(ctx: Ctx, reason: string)
    | Finished(response: Response)

  datatype ApprovalResponse =
    | ApproverUnauthorised
    | NotFound
    | ResolvedOk(id: string, approved: bool)
    | RunFailed(id: string)

  /** POST /approve/{id}. */
  datatype Approval =
    | Called(target: string, approved: bool, comment: string)
    | Identified(target: string, approved: bool, comment: string, approver: string)
    | Holding(approved: bool, comment: string, approver: string, pending: PendingRequest)
    | HasExecuted(comment: string, approver: string, pending: PendingRequest)
    | Over(response: ApprovalResponse)

  /** What the environment decides at a statement; `queuedAt` and `now` are the clock's readings. */
  datatype Choice = Choice(
    token: Option<(string, string)>,
    reply: OpaReply,
    env: K8sClient.Environment,
    canOpen: bool,
    queuedAt: string,
    now: string)

  // ----- Statements -----

  function Emit(w: World, id: string, e: Event): World {
    w.(trace := w.trace + [(id, e)])
  }

  function Deref(w: World, ref: Ref): Members {
    if ref < |w.heap| then w.heap[ref] else []
  }

  function SnapOf(w: World, ctx: Ctx): Snap {
    Snap(ctx.identity, ctx.role, ctx.body.action, ctx.body.resource, ctx.body.namespace,
         Deref(w, ctx.body.params), ctx.risk)
  }

  function PendingOf(id: string, ctx: Ctx, queuedAt: string): PendingRequest {
    PendingRequest(id, ctx.identity, ctx.role, ctx.body.action, ctx.body.resource, ctx.body.namespace,
                   ctx.body.params, ctx.risk, queuedAt)
  }

  function SnapOfPending(w: World, p: PendingRequest): Snap {
    Snap(p.identity, p.role, p.action, p.resource, p.namespace, Deref(w, p.params), p.risk)
  }

  /** `audit.log(...)`. */
  function WriteNote(w: World, id: string, r: Record, canOpen: bool): World {
    Emit(w.(audit := w.audit + (if canOpen then [r] else [])), id, Note(r, canOpen))
  }

  /** `_execute_k8s(...)`: the outcome, and the world in which the call was issued. */
  function Execute(cfg: Settings, w: World, id: string, actor: Actor, snap: Snap, env: K8sClient.Environment)
    : (World, K8sClient.Outcome)
  {
    var call := K8sClient.CallOf(cfg, snap.action, snap.resource, snap.namespace, snap.params);
    var issued, outcome := K8sClient.Issued(env, call), K8sClient.OutcomeOf(env, call);
    (Emit(w.(calls := w.calls + issued), id,
          Attempt(actor, snap.action, snap.resource, snap.namespace, snap.params, issued, outcome)),
     outcome)
  }

  /** The next statement of a submission. */
  function StepSubmission(cfg: Settings, w: World, id: string, f: Submission, c: Choice): (World, Submission) {
    match f
    case Entered(body) =>
      (match c.token
       case None => (Emit(w, id, Rejected), Finished(Unauthorised))
       case Some((sub, role)) => (Emit(w, id, Authenticated(sub, role)), Verified(body, sub, role)))
    case Verified(b, identity, role) =>
      (w, Assessed(Ctx(identity, role, b,
                       Scorer.Assess(cfg, b.action, b.resource, b.namespace, Deref(w, b.params)))))
    case Assessed(ctx) =>
      (Emit(w, id, Judged(SnapOf(w, ctx), InputOf(SnapOf(w, ctx)))), AwaitingOpa(ctx))
    case AwaitingOpa(ctx) =>
      var w' := Emit(w, id, Answered(InputOf(SnapOf(w, ctx)), c.reply));
      (match Interpret(cfg, c.reply)
       case HandlerRaises => (w', Finished(OpaFailure))
       case Decision(allowed, reason) => (w', Ruled(ctx, allowed, reason)))
    case Ruled(ctx, allowed, reason) =>
      if !allowed then
        (WriteNote(w, id, NoteOf(c.now, id, SnapOf(w, ctx), DENY, reason), c.canOpen), Finished(Denied))
      else if ctx.risk.level == Scorer.HIGH then
        var p := PendingOf(id, ctx, c.queuedAt);
        (Emit(w.(queue := Put(w.queue, p)), id, Enqueued(p, SnapOf(w, ctx))), InQueue(ctx, reason))
      else
        var (w', outcome) := Execute(cfg, w, id, Submitter, SnapOf(w, ctx), c.env);
        (w', if Raises(outcome) then Finished(ExecutionError) else HasRun(ctx, reason))
    case InQueue(ctx, reason) =>
      (WriteNote(w, id, NoteOf(c.now, id, SnapOf(w, ctx), PENDING, reason), c.canOpen), Finished(PendingApproval))
    case HasRun(ctx, reason) =>
      (WriteNote(w, id, NoteOf(c.now, id, SnapOf(w, ctx), ALLOW, reason), c.canOpen), Finished(Allowed))
    case Finished(_) => (w, f)
  }

  /** The next statement of an approval. */
  function StepApproval(cfg: Settings, w: World, tid: nat, f: Approval, c: Choice): (World, Approval) {
    match f
    case Called(target, approved, comment) =>
      (match c.token
       case None => (w, Over(ApproverUnauthorised))
       case Some((sub, _)) => (w, Identified(target, approved, comment, sub)))
    case Identified(target, approved, comment, approver) =>
      (match Find(w.queue, target)
       case None => (w, Over(NotFound))
       case Some(p) =>
         (Emit(w.(queue := Without(w.queue, target)), target, Popped(tid, approver, approved)),
          Holding(approved, comment, approver, p)))
    case Holding(approved, comment, approver, p) =>
      if approved then
        var (w', outcome) := Execute(cfg, w, p.requestId, Approver(tid), SnapOfPending(w, p), c.env);
        (w', if Raises(outcome) then Over(RunFailed(p.requestId)) else HasExecuted(comment, approver, p))
      else
        (WriteNote(w, p.requestId,
                   NoteOf(c.now, p.requestId, SnapOfPending(w, p), HUMAN_DENY,
                          HumanReason(cfg, false, approver, comment)), c.canOpen),
         Over(ResolvedOk(p.requestId, false)))
    case HasExecuted(comment, approver, p) =>
      (WriteNote(w, p.requestId,
                 NoteOf(c.now, p.requestId, SnapOfPending(w, p), HUMAN_ALLOW,
                        HumanReason(cfg, true, approver, comment)), c.canOpen),
       Over(ResolvedOk(p.requestId, true)))
    case Over(_) => (w, f)
  }

  // ----- Runs -----

  /** `subs` holds the submissions by request id, `apps` the approvals by a number of their own. */
  datatype Sys = Sys(world: World, subs: map<string, Submission>, apps: map<nat, Approval>)

  const INITIAL := Sys(World([], [], [], [], []), map[], map[])

  /** A submission arrives with an id drawn by uuid4, assumed unused so far; its params dict is allocated. */
  datatype Move =
    | Submit(id: string, action: string, resource: string, namespace: string, params: Members)
    | Approve(tid: nat, target: string, approved: bool, comment: string)
    | RunSubmission(id: string, choice: Choice)
    | RunApproval(tid: nat, choice: Choice)

  predicate Enabled(s: Sys, m: Move) {
    match m
    case Submit(id, _, _, _, _) => id !in s.subs
    case Approve(tid, _, _, _) => tid !in s.apps
    case RunSubmission(id, _) => id in s.subs && !s.subs[id].Finished?
    case RunApproval(tid, _) => tid in s.apps && !s.apps[tid].Over?
  }

  function Step(cfg: Settings, s: Sys, m: Move): Sys
    requires Enabled(s, m)
  {
    match m
    case Submit(id, action, resource, namespace, params) =>
      Sys(s.world.(heap := s.world.heap + [params]),
          s.subs[id := Entered(Body(action, resource, namespace, |s.world.heap|))], s.apps)
    case Approve(tid, target, approved, comment) =>
      s.(apps := s.apps[tid := Called(target, approved, comment)])
    case RunSubmission(id, c) =>
      var (w, f) := StepSubmission(cfg, s.world, id, s.subs[id], c);
      Sys(w, s.subs[id := f], s.apps)
    case RunApproval(tid, c) =>
      var (w, f) := StepApproval(cfg, s.world, tid, s.apps[tid], c);
      Sys(w, s.subs, s.apps[tid := f])
  }

  function StepOrStay(cfg: Settings, s: Sys, m: Move): Sys {
    if Enabled(s, m) then Step(cfg, s, m) else s
  }

  /** The state after any interleaving of statements; a move that is not enabled changes nothing. */
  function Run(cfg: Settings, moves: seq<Move>): Sys {
    if moves == [] then INITIAL
    else StepOrStay(cfg, Run(cfg, moves[..|moves| - 1]), moves[|moves| - 1])
  }
}
