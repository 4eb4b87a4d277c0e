/** The route handlers of app/main.py over the shared queue, audit log and cluster, statement by statement, proved
    against the machine of the statements. A handler that awaits OPA is split there: the first half returns the frame
    it suspends in, the second half resumes it. */
module Handlers {
  import opened JsonValues
  import opened AuditLogs
  import opened ApprovalQueues
  import opened Lifecycle
  import opened Gateway
  import opened EventLoop
  import opened Safety
  import opened Guarantees
  import Scorer
  import K8sClient
  import Policy
  import Text

  // ----- A handler between two suspensions, as a function of the shared state -----

  /** The statements of a submission until it awaits OPA or returns. */
  function Proceed(cfg: Settings, w: World, id: string, f: Submission, c: Choice): (World, Submission)
    decreases SubRank(f)
  {
    if SubAtRest(f) then (w, f) else
      var (w', f') := StepSubmission(cfg, w, id, f, c);
      Proceed(cfg, w', id, f', c)
  }

  function Restart(cfg: Settings, w: World, id: string, f: Submission, c: Choice): (World, Submission) {
    var (w', f') := StepSubmission(cfg, w, id, f, c);
    Proceed(cfg, w', id, f', c)
  }

  /** The statements of an approval until it returns. */
  function ProceedApproval(cfg: Settings, w: World, tid: nat, f: Approval, c: Choice): (World, Approval)
    decreases AppRank(f)
  {
    if f.Over? then (w, f) else
      var (w', f') := StepApproval(cfg, w, tid, f, c);
      ProceedApproval(cfg, w', tid, f', c)
  }

  /** One statement of a handler, and the end of one. */
  lemma OneStatement(cfg: Settings, w: World, id: string, f: Submission, c: Choice)
    requires !SubAtRest(f)
    ensures var (w', f') := StepSubmission(cfg, w, id, f, c); Proceed(cfg, w, id, f, c) == Proceed(cfg, w', id, f', c)
  {
  }

  lemma AtRestStays(cfg: Settings, w: World, id: string, f: Submission, c: Choice)
    requires SubAtRest(f)
    ensures Proceed(cfg, w, id, f, c) == (w, f)
  {
  }

  lemma LastStatement(cfg: Settings, w: World, id: string, f: Submission, c: Choice)
    requires !SubAtRest(f) && SubAtRest(StepSubmission(cfg, w, id, f, c).1)
    ensures Proceed(cfg, w, id, f, c) == StepSubmission(cfg, w, id, f, c)
  {
    var (w', f') := StepSubmission(cfg, w, id, f, c);
    OneStatement(cfg, w, id, f, c);
    AtRestStays(cfg, w', id, f', c);
  }

  lemma OneApprovalStatement(cfg: Settings, w: World, tid: nat, f: Approval, c: Choice)
    requires !f.Over?
    ensures var (w', f') := StepApproval(cfg, w, tid, f, c);
            ProceedApproval(cfg, w, tid, f, c) == ProceedApproval(cfg, w', tid, f', c)
  {
  }

  lemma OverStays(cfg: Settings, w: World, tid: nat, f: Approval, c: Choice)
    requires f.Over?
    ensures ProceedApproval(cfg, w, tid, f, c) == (w, f)
  {
  }

  lemma LastApprovalStatement(cfg: Settings, w: World, tid: nat, f: Approval, c: Choice)
    requires !f.Over? && StepApproval(cfg, w, tid, f, c).1.Over?
    ensures ProceedApproval(cfg, w, tid, f, c) == StepApproval(cfg, w, tid, f, c)
  {
    var (w', f') := StepApproval(cfg, w, tid, f, c);
    OneApprovalStatement(cfg, w, tid, f, c);
    OverStays(cfg, w', tid, f', c);
  }

  // ----- What GET /pending answers -----

  function Shown(heap: seq<Members>, e: Entry): Json {
    match e
    case Text(text) => Str(text)
    case Number(n) => Int(n)
    case Texts(texts) => Arr(AuditLogs.Texts(texts))
    case Params(ref) => Obj(if ref < |heap| then heap[ref] else [])
  }

  /** A row as the response shows it: the params dict is read when the response is written. */
  function Rendered(heap: seq<Members>, row: Row): Json {
    Obj(seq(|row|, i requires 0 <= i < |row| => (row[i].0, Shown(heap, row[i].1))))
  }

  function Listing(w: World): seq<Json> {
    seq(|w.queue|, i requires 0 <= i < |w.queue| => Rendered(w.heap, ToDict(w.queue[i])))
  }

  /** The item shows this request: its own value under each of the eleven keys, and its params by value. */
  predicate ShowsRequest(item: Json, id: string, snap: Snap, queuedAt: string) {
    && item.Obj?
    && Get(item.members, "request_id") == Some(Str(id))
    && Get(item.members, "identity") == Some(Str(snap.identity))
    && Get(item.members, "role") == Some(Str(snap.role))
    && Get(item.members, "action") == Some(Str(snap.action))
    && Get(item.members, "resource") == Some(Str(snap.resource))
    && Get(item.members, "namespace") == Some(Str(snap.namespace))
    && Get(item.members, "params") == Some(Obj(snap.params))
    && Get(item.members, "risk_level") == Some(Str(snap.risk.level))
    && Get(item.members, "risk_score") == Some(Int(snap.risk.score))
    && Get(item.members, "queued_at") == Some(Str(queuedAt))
    && ShowsReasons(item.members, snap.risk.reasons)
  }

  predicate ShowsReasons(ms: Members, reasons: seq<string>) {
    match Get(ms, "risk_reasons")
    case Some(Arr(items)) => |items| == |reasons| && forall i :: 0 <= i < |items| ==> items[i] == Str(reasons[i])
    case _ => false
  }

  lemma RowKeysDistinct(heap: seq<Members>, p: PendingRequest)
    ensures DistinctKeys(Rendered(heap, ToDict(p)).members)
  {
    var row, ms := ToDict(p), Rendered(heap, ToDict(p)).members;
    forall i, j | 0 <= i < j < |ms|
      ensures ms[i].0 != ms[j].0
    {
      RowKeyDiffers(p, row[i].0, row[j].0, i, j);
    }
  }

  lemma RowKeyDiffers(p: PendingRequest, a: string, b: string, i: nat, j: nat)
    requires i < j < |ToDict(p)| && a == ToDict(p)[i].0 && b == ToDict(p)[j].0
    ensures a != b
  {
    assert |a| != |b| || a[0] != b[0] || a[|a| - 1] != b[|b| - 1];
  }

  lemma RowAt(heap: seq<Members>, p: PendingRequest, i: nat)
    requires i < |ToDict(p)|
    ensures Get(Rendered(heap, ToDict(p)).members, ToDict(p)[i].0) == Some(Shown(heap, ToDict(p)[i].1))
  {
    RowKeysDistinct(heap, p);
    GetFindsMember(Rendered(heap, ToDict(p)).members, i);
  }

  lemma RowShows(w: World, p: PendingRequest)
    ensures ShowsRequest(Rendered(w.heap, ToDict(p)), p.requestId, SnapOfPending(w, p), p.queuedAt)
  {
    RowAt(w.heap, p, 0);
    RowAt(w.heap, p, 1);
    RowAt(w.heap, p, 2);
    RowAt(w.heap, p, 3);
    RowAt(w.heap, p, 4);
    RowAt(w.heap, p, 5);
    RowAt(w.heap, p, 6);
    RowAt(w.heap, p, 7);
    RowAt(w.heap, p, 8);
    RowAt(w.heap, p, 9);
    RowAt(w.heap, p, 10);
  }

  /** What an authenticated GET /pending shows on any run, item by item: the request that was judged under that id, that
      OPA allowed and that is high-risk. */
  lemma ListingIsTruthful(cfg: Settings, moves: seq<Move>, i: nat)
    requires i < |Run(cfg, moves).world.queue|
    ensures var w := Run(cfg, moves).world; var p := w.queue[i];
            && |Listing(w)| == |w.queue|
            && exists snap :: WaitsFor(cfg, w, p, snap) && ShowsRequest(Listing(w)[i], p.requestId, snap, p.queuedAt)
  {
    var w := Run(cfg, moves).world;
    QueueIsTruthful(cfg, moves, i);
    RowShows(w, w.queue[i]);
    assert WaitsFor(cfg, w, w.queue[i], SnapOfPending(w, w.queue[i]));
  }

  // ----- The handlers -----

  /** The module-level state of the application: the queue, the log, the cluster it talks to, and the params dicts of
      all requests so far. The trace is what the proofs speak about. */
  class Application {
    const cfg: Settings
    const queue: ApprovalQueue
    const audit: AuditLog
    const cluster: K8sClient.Cluster
    var heap: seq<Members>
    ghost var trace: seq<(string, Event)>

    ghost predicate Valid()
      reads this, queue, audit
    {
      queue.Valid() && audit.Valid()
    }

    ghost function View(): World
      requires Valid()
      reads this, queue, audit, cluster
    {
      World(heap, queue.View(), audit.records, cluster.calls, trace)
    }

    constructor (cfg: Settings)
      ensures Valid() && this.cfg == cfg && View() == INITIAL.world
    {
      this.cfg := cfg;
      queue := new ApprovalQueue();
      audit := new AuditLog();
      cluster := new K8sClient.Cluster();
      heap, trace := [], [];
    }

    /** The request body: its params dict is a new object. */
    method Parse(action: string, resource: string, namespace: string, params: Members) returns (body: Body)
      requires Valid()
      modifies this
      ensures Valid() && View() == old(View()).(heap := old(heap) + [params])
      ensures body == Body(action, resource, namespace, |old(heap)|)
    {
      body := Body(action, resource, namespace, |heap|);
      heap := heap + [params];
    }

    method Log(id: string, record: Record, canOpen: bool)
      requires Valid()
      modifies this`trace, audit
      ensures Valid() && View() == WriteNote(old(View()), id, record, canOpen)
    {
      audit.Log(record, canOpen);
      trace := trace + [(id, Note(record, canOpen))];
    }

    method ExecuteK8s(id: string, ghost actor: Actor, ghost snap: Snap, action: string, resource: string,
                      namespace: string, params: Members, env: K8sClient.Environment)
      returns (outcome: K8sClient.Outcome)
      requires Valid()
      requires (action, resource, namespace, params) == (snap.action, snap.resource, snap.namespace, snap.params)
      modifies this`trace, cluster
      ensures Valid() && (View(), outcome) == Execute(cfg, old(View()), id, actor, snap, env)
    {
      outcome := cluster.ExecuteAction(cfg, action, resource, namespace, params, env);
      ghost var call := K8sClient.CallOf(cfg, action, resource, namespace, params);
      ghost var issued := K8sClient.Issued(env, call);
      trace := trace + [(id, Attempt(actor, action, resource, namespace, params, issued, outcome))];
    }

    /** POST /agent-action up to the request to OPA, with the input document that is sent. */
    method AgentAction(id: string, body: Body, c: Choice) returns (f: Submission, sent: Option<Policy.Input>)
      requires Valid() && body.params < |heap|
      modifies this`trace
      ensures Valid() && (View(), f) == Proceed(cfg, old(View()), id, Entered(body), c)
      ensures sent == if f.AwaitingOpa? then Some(InputOf(SnapOf(View(), f.ctx))) else None
    {
      if c.token.None? {
        trace := trace + [(id, Rejected)];
        return Finished(Unauthorised), None;
      }
      var (identity, role) := c.token.value;
      trace := trace + [(id, Authenticated(identity, role))];
      assert Proceed(cfg, old(View()), id, Entered(body), c)
          == Proceed(cfg, View(), id, Verified(body, identity, role), c);

      var risk := Scorer.Score(cfg, body.action, body.resource, body.namespace, heap[body.params]);
      var ctx := Ctx(identity, role, body, risk);
      assert Proceed(cfg, old(View()), id, Entered(body), c) == Proceed(cfg, View(), id, Assessed(ctx), c);

      var input := Policy.Input(identity, role, Text.Lower(body.action), Text.Lower(body.resource),
                                Text.Lower(body.namespace), risk.level, heap[body.params]);
      trace := trace + [(id, Judged(SnapOf(View(), ctx), input))];
      f, sent := AwaitingOpa(ctx), Some(input);
    }

    /** The audit call of a submission. */
    method LogDecision(id: string, ctx: Ctx, decision: string, reason: string, c: Choice)
      requires Valid() && ctx.body.params < |heap|
      modifies this`trace, audit
      ensures Valid()
      ensures View() == WriteNote(old(View()), id, NoteOf(c.now, id, SnapOf(old(View()), ctx), decision, reason),
                                  c.canOpen)
    {
      Log(id, Record(c.now, id, ctx.identity, ctx.role, ctx.body.action, ctx.body.resource, ctx.body.namespace,
                     heap[ctx.body.params], ctx.risk.level, ctx.risk.score, ctx.risk.reasons, decision, Some(reason),
                     None), c.canOpen);
    }

    /** POST /agent-action from OPA's reply on. */
    method AgentActionResumed(id: string, ctx: Ctx, c: Choice) returns (response: Response)
      requires Valid() && ctx.body.params < |heap|
      modifies this`trace, queue, audit, cluster
      ensures Valid() && (View(), Finished(response)) == Restart(cfg, old(View()), id, AwaitingOpa(ctx), c)
    {
      ghost var snap := SnapOf(View(), ctx);
      trace := trace + [(id, Answered(InputOf(snap), c.reply))];
      var verdict := Interpret(cfg, c.reply);
      if verdict.HandlerRaises? {
        return OpaFailure;
      }
      assert Restart(cfg, old(View()), id, AwaitingOpa(ctx), c)
          == Proceed(cfg, View(), id, Ruled(ctx, verdict.allowed, verdict.reason), c);
      if verdict.allowed {
        response := QueueOrExecute(id, ctx, verdict.reason, c);
      } else {
        LogDecision(id, ctx, DENY, verdict.reason, c);
        response := Denied;
      }
    }

    /** The part of the handler that an allowed request reaches. */
    method QueueOrExecute(id: string, ctx: Ctx, reason: string, c: Choice) returns (response: Response)
      requires Valid() && ctx.body.params < |heap|
      modifies this`trace, queue, audit, cluster
      ensures Valid() && (View(), Finished(response)) == Proceed(cfg, old(View()), id, Ruled(ctx, true, reason), c)
    {
      ghost var w0, snap := View(), SnapOf(View(), ctx);
      OneStatement(cfg, w0, id, Ruled(ctx, true, reason), c);
      var body := ctx.body;
      if ctx.risk.level == Scorer.HIGH {
        var pending := PendingRequest(id, ctx.identity, ctx.role, body.action, body.resource, body.namespace,
                                      body.params, ctx.risk, c.queuedAt);
        var key := queue.Enqueue(pending);
        trace := trace + [(id, Enqueued(pending, snap))];
        ghost var w := View();
        assert (w, InQueue(ctx, reason)) == StepSubmission(cfg, w0, id, Ruled(ctx, true, reason), c);
        LogDecision(id, ctx, PENDING, reason, c);
        LastStatement(cfg, w, id, InQueue(ctx, reason), c);
        return PendingApproval;
      }
      var outcome := ExecuteK8s(id, Submitter, snap, body.action, body.resource, body.namespace, heap[body.params],
                                c.env);
      if Raises(outcome) {
        AtRestStays(cfg, View(), id, Finished(ExecutionError), c);
        return ExecutionError;
      }
      ghost var w := View();
      assert (w, HasRun(ctx, reason)) == StepSubmission(cfg, w0, id, Ruled(ctx, true, reason), c);
      LogDecision(id, ctx, ALLOW, reason, c);
      LastStatement(cfg, w, id, HasRun(ctx, reason), c);
      response := Allowed;
    }

    /** GET /pending: the count, and each waiting request as a JSON object with its params by value. */
    method ListPending(token: Option<(string, string)>) returns (answer: Option<(nat, seq<Json>)>)
      requires Valid()
      ensures answer == if token.None? then None else Some((|View().queue|, Listing(View())))
      ensures answer.Some? ==>
                && |answer.value.1| == answer.value.0
                && forall i :: 0 <= i < answer.value.0 ==>
                     var p := View().queue[i];
                     ShowsRequest(answer.value.1[i], p.requestId, SnapOfPending(View(), p), p.queuedAt)
    {
      if token.None? {
        return None;
      }
      var rows := queue.ListPending();
      var items := [];
      for i := 0 to |rows|
        invariant items == Listing(View())[..i]
      {
        items := items + [Rendered(heap, rows[i])];
      }
      assert Listing(View())[..|rows|] == Listing(View());
      forall i | 0 <= i < |items|
        ensures ShowsRequest(items[i], View().queue[i].requestId, SnapOfPending(View(), View().queue[i]),
                             View().queue[i].queuedAt)
      {
        RowShows(View(), View().queue[i]);
      }
      answer := Some((|items|, items));
    }

    /** POST /approve/{id}. */
    method ApproveAction(tid: nat, target: string, approved: bool, comment: string, c: Choice)
      returns (response: ApprovalResponse)
      requires Valid() && forall p :: p in queue.View() ==> p.params < |heap|
      modifies this`trace, queue, audit, cluster
      ensures Valid()
      ensures (View(), Over(response)) == ProceedApproval(cfg, old(View()), tid, Called(target, approved, comment), c)
    {
      if c.token.None? {
        return ApproverUnauthorised;
      }
      var approver := c.token.value.0;
      ghost var f := Identified(target, approved, comment, approver);
      assert ProceedApproval(cfg, View(), tid, Called(target, approved, comment), c)
          == ProceedApproval(cfg, View(), tid, f, c);
      Taking(queue.View(), target);
      var pending := queue.Resolve(target);
      if pending.None? {
        WithoutAbsent(old(queue.View()), target);
        assert View() == old(View());
        assert StepApproval(cfg, View(), tid, f, c) == (View(), Over(NotFound));
        assert ProceedApproval(cfg, View(), tid, f, c) == ProceedApproval(cfg, View(), tid, Over(NotFound), c);
        return NotFound;
      }
      trace := trace + [(target, Popped(tid, approver, approved))];
      assert ProceedApproval(cfg, old(View()), tid, f, c)
          == ProceedApproval(cfg, View(), tid, Holding(approved, comment, approver, pending.value), c);
      response := Settle(tid, target, approved, comment, approver, pending.value, c);
    }

    /** What follows once the request has been taken out of the queue. */
    method Settle(tid: nat, target: string, approved: bool, comment: string, approver: string, p: PendingRequest,
                  c: Choice)
      returns (response: ApprovalResponse)
      requires Valid() && p.params < |heap| && p.requestId == target
      modifies this`trace, audit, cluster
      ensures Valid()
      ensures (View(), Over(response))
           == ProceedApproval(cfg, old(View()), tid, Holding(approved, comment, approver, p), c)
    {
      if approved {
        var outcome := ExecuteK8s(target, Approver(tid), SnapOfPending(View(), p), p.action, p.resource, p.namespace,
                                  heap[p.params], c.env);
        if Raises(outcome) {
          return RunFailed(target);
        }
        assert ProceedApproval(cfg, old(View()), tid, Holding(approved, comment, approver, p), c)
            == ProceedApproval(cfg, View(), tid, HasExecuted(comment, approver, p), c);
      }
      LogResolution(target, approved, comment, approver, p, c);
      response := ResolvedOk(target, approved);
    }

    /** The audit call of an approval. */
    method LogResolution(target: string, approved: bool, comment: string, approver: string, p: PendingRequest,
                         c: Choice)
      requires Valid() && p.params < |heap|
      modifies this`trace, audit
      ensures Valid()
      ensures View() == WriteNote(old(View()), target,
                                  NoteOf(c.now, target, SnapOfPending(old(View()), p),
                                         if approved then HUMAN_ALLOW else HUMAN_DENY,
                                         HumanReason(cfg, approved, approver, comment)), c.canOpen)
    {
      var decision := if approved then HUMAN_ALLOW else HUMAN_DENY;
      Log(target, Record(c.now, target, p.identity, p.role, p.action, p.resource, p.namespace, heap[p.params],
                         p.risk.level, p.risk.score, p.risk.reasons, decision,
                         Some(HumanReason(cfg, approved, approver, comment)), None), c.canOpen);
    }

    /** The event loop over a list of turns: every frame that is suspended is kept until its reply arrives. */
    method Serve(turns: seq<Turn>)
      requires Valid() && View() == INITIAL.world
      modifies this, queue, audit, cluster
      ensures Valid() && View() == Play(cfg, turns).world
    {
      var subs: map<string, Submission>, apps: map<nat, Approval> := map[], map[];
      for i := 0 to |turns|
        invariant Valid() && Sys(View(), subs, apps) == Play(cfg, turns[..i])
      {
        assert turns[..i] + [turns[i]] == turns[..i + 1];
        TurnIsHandlerCall(cfg, turns[..i], turns[i]);
        match turns[i] {
          case Request(id, action, resource, namespace, params, c) =>
            if id !in subs {
              var body := Parse(action, resource, namespace, params);
              var f, sent := AgentAction(id, body, c);
              subs := subs[id := f];
            }
          case OpaReplied(id, c) =>
            if id in subs && subs[id].AwaitingOpa? {
              var response := AgentActionResumed(id, subs[id].ctx, c);
              subs := subs[id := Finished(response)];
            }
          case ApproveRequest(tid, target, approved, comment, c) =>
            if tid !in apps {
              var response := ApproveAction(tid, target, approved, comment, c);
              apps := apps[tid := Over(response)];
            }
        }
      }
      assert turns[..|turns|] == turns;
    }
  }

  // ----- The handlers are the turns of the event loop -----

  lemma {:induction false} RunSubIsProceed(cfg: Settings, s: Sys, id: string, c: Choice)
    requires id in s.subs
    ensures var (w, f) := Proceed(cfg, s.world, id, s.subs[id], c);
            RunSub(cfg, s, id, c) == Sys(w, s.subs[id := f], s.apps)
    decreases SubRank(s.subs[id])
  {
    if SubAtRest(s.subs[id]) {
      assert s.subs[id := s.subs[id]] == s.subs;
    } else {
      var s1 := Step(cfg, s, RunSubmission(id, c));
      SubRankFalls(cfg, s, id, c);
      OneStatement(cfg, s.world, id, s.subs[id], c);
      RunSubIsProceed(cfg, s1, id, c);
      TwiceSet(s.subs, id, s1.subs[id], Proceed(cfg, s1.world, id, s1.subs[id], c).1);
    }
  }

  lemma TwiceSet(m: map<string, Submission>, id: string, a: Submission, b: Submission)
    ensures m[id := a][id := b] == m[id := b]
  {
  }

  lemma {:induction false} RunAppIsProceed(cfg: Settings, s: Sys, tid: nat, c: Choice)
    requires tid in s.apps
    ensures var (w, f) := ProceedApproval(cfg, s.world, tid, s.apps[tid], c);
            RunApp(cfg, s, tid, c) == Sys(w, s.subs, s.apps[tid := f])
    decreases AppRank(s.apps[tid])
  {
    if s.apps[tid].Over? {
      assert s.apps[tid := s.apps[tid]] == s.apps;
    } else {
      var s1 := Step(cfg, s, RunApproval(tid, c));
      RunAppIsProceed(cfg, s1, tid, c);
      var f := ProceedApproval(cfg, s1.world, tid, s1.apps[tid], c).1;
      assert s1.apps[tid := f] == s.apps[tid := f];
    }
  }

  /** What a turn does to the system, said by the functions that specify the handler methods. */
  ghost predicate Handled(cfg: Settings, s: Sys, turn: Turn, s': Sys) {
    match turn
    case Request(id, action, resource, namespace, params, c) =>
      if id in s.subs then s' == s else
        var body := Body(action, resource, namespace, |s.world.heap|);
        var (w, f) := Proceed(cfg, s.world.(heap := s.world.heap + [params]), id, Entered(body), c);
        s' == Sys(w, s.subs[id := f], s.apps)
    case OpaReplied(id, c) =>
      if id !in s.subs || !s.subs[id].AwaitingOpa? then s' == s else
        var (w, f) := Restart(cfg, s.world, id, s.subs[id], c);
        s' == Sys(w, s.subs[id := f], s.apps)
    case ApproveRequest(tid, target, approved, comment, c) =>
      if tid in s.apps then s' == s else
        var (w, f) := ProceedApproval(cfg, s.world, tid, Called(target, approved, comment), c);
        s' == Sys(w, s.subs, s.apps[tid := f])
  }

  /** What the handler methods require of the shared state. */
  ghost predicate Callable(s: Sys) {
    && (forall id :: id in s.subs && s.subs[id].AwaitingOpa? ==> s.subs[id].ctx.body.params < |s.world.heap|)
    && (forall p :: p in s.world.queue ==> p.params < |s.world.heap|)
  }

  lemma RequestHandled(cfg: Settings, s: Sys, turn: Turn)
    requires turn.Request?
    ensures Handled(cfg, s, turn, Take(cfg, s, turn))
  {
    var id := turn.id;
    if id !in s.subs {
      var s1 := Step(cfg, s, Submit(id, turn.action, turn.resource, turn.namespace, turn.params));
      RunSubIsProceed(cfg, s1, id, turn.choice);
      var f := Proceed(cfg, s1.world, id, s1.subs[id], turn.choice).1;
      assert s1.subs[id := f] == s.subs[id := f];
    }
  }

  lemma ReplyHandled(cfg: Settings, s: Sys, id: string, c: Choice)
    ensures Handled(cfg, s, OpaReplied(id, c), Take(cfg, s, OpaReplied(id, c)))
  {
    if id in s.subs && s.subs[id].AwaitingOpa? {
      var s1 := Step(cfg, s, RunSubmission(id, c));
      RunSubIsProceed(cfg, s1, id, c);
      var f := Proceed(cfg, s1.world, id, s1.subs[id], c).1;
      assert s1.subs[id := f] == s.subs[id := f];
    }
  }

  lemma ApprovalHandled(cfg: Settings, s: Sys, turn: Turn)
    requires turn.ApproveRequest?
    ensures Handled(cfg, s, turn, Take(cfg, s, turn))
  {
    var tid := turn.tid;
    if tid !in s.apps {
      var s1 := Step(cfg, s, Approve(tid, turn.target, turn.approved, turn.comment));
      RunAppIsProceed(cfg, s1, tid, turn.choice);
      var f := ProceedApproval(cfg, s1.world, tid, s1.apps[tid], turn.choice).1;
      assert s1.apps[tid := f] == s.apps[tid := f];
    }
  }

  lemma InvMakesCallable(cfg: Settings, s: Sys)
    requires Inv(cfg, s)
    ensures Callable(s)
  {
    forall id | id in s.subs && s.subs[id].AwaitingOpa?
      ensures s.subs[id].ctx.body.params < |s.world.heap|
    {
      assert SubOk(cfg, s, id);
    }
    forall p | p in s.world.queue
      ensures p.params < |s.world.heap|
    {
      assert HeldAs(cfg, s.world, p, Open);
    }
  }

  /** After any sequence of turns the handler methods may be called, and the next turn is exactly one such call on the
      shared state: `Parse` then `AgentAction` for a new request, `AgentActionResumed` for a reply of OPA,
      `ApproveAction` for an approval. So every run of the methods is a run of the machine. */
  lemma TurnIsHandlerCall(cfg: Settings, turns: seq<Turn>, turn: Turn)
    ensures Callable(Play(cfg, turns))
    ensures Handled(cfg, Play(cfg, turns), turn, Play(cfg, turns + [turn]))
  {
    assert (turns + [turn])[..|turns|] == turns;
    var s := Play(cfg, turns);
    PlayTidy(cfg, turns);
    InvMakesCallable(cfg, s);
    match turn
    case Request(_, _, _, _, _, _) => RequestHandled(cfg, s, turn);
    case OpaReplied(id, c) => ReplyHandled(cfg, s, id, c);
    case ApproveRequest(_, _, _, _, _) => ApprovalHandled(cfg, s, turn);
  }
}
