/** Which requests leave a record in the log, and which leave none. The documentation promises one for every request;
    here is exactly when the gateway keeps that promise, and two requests for which it does not. */
module AuditCoverage {
  import opened JsonValues
  import opened AuditLogs
  import opened ApprovalQueues
  import opened Lifecycle
  import opened Traces
  import opened Gateway
  import opened Safety
  import opened Guarantees
  import opened EventLoop
  import opened Handlers
  import Composition
  import Conservation
  import K8sClient
  import Policy
  import Scorer
  import Text

  // ----- An empty log -----

  lemma {:induction false} NoStoredNote(h: seq<Event>)
    ensures StoredWord(h) == [] <==> forall e :: e in h && e.Note? ==> !e.stored
  {
    if h == [] {
    } else {
      NoStoredNote(h[..|h| - 1]);
      assert h == h[..|h| - 1] + [h[|h| - 1]];
    }
  }

  lemma {:induction false} NoNote(h: seq<Event>)
    ensures Decisions(Notes(h)) == [] <==> forall e :: e in h ==> !e.Note?
  {
    if h == [] {
    } else {
      var front, e := h[..|h| - 1], h[|h| - 1];
      assert h == front + [e];
      NoNote(front);
      DecisionsGrow(front, e);
    }
  }

  /** The log holds nothing of a request exactly when what became of it is not recorded at all, or every record of it
      was lost to a file that could not be opened. */
  lemma EmptyLog(cfg: Settings, turns: seq<Turn>, id: string)
    ensures var s := Play(cfg, turns);
            LogOf(s.world.audit, id) == [] <==>
              || WordOfStage(Conservation.StageAt(cfg, s, id)) == []
              || forall e :: e in Word(s.world.trace, id) && e.Note? ==> !e.stored
  {
    var h := Word(Play(cfg, turns).world.trace, id);
    LogIsStoredWord(cfg, turns, id);
    AuditTellsStage(cfg, turns, id);
    NoStoredNote(h);
    NoNote(h);
  }

  // ----- The guards: what the environment chose in the turn that ended the request -----

  /** The execution leaves its handler by an exception: the configuration cannot be loaded, or it is there and either no
      call can be dispatched or the call is not accepted. A missing configuration is no exception. */
  predicate ExecutionRaises(cfg: Settings, snap: Snap, env: K8sClient.Environment) {
    || env.config.Unloadable?
    || (&& env.config.Loaded?
        && (|| !K8sClient.CallOf(cfg, snap.action, snap.resource, snap.namespace, snap.params).Returns?
            || !env.answer.Accepted?))
  }

  lemma RaisesExactly(cfg: Settings, snap: Snap, env: K8sClient.Environment)
    ensures var call := K8sClient.CallOf(cfg, snap.action, snap.resource, snap.namespace, snap.params);
            Raises(K8sClient.OutcomeOf(env, call)) <==> ExecutionRaises(cfg, snap, env)
  {
  }

  /** The request leaves no record: OPA's 2xx answer is unreadable, the log cannot be opened, or the request is allowed,
      not high-risk, and its execution raises. */
  predicate Unrecorded(cfg: Settings, snap: Snap, c: Choice) {
    || Interpret(cfg, c.reply).HandlerRaises?
    || !c.canOpen
    || (Allows(cfg, c.reply) && snap.risk.level != Scorer.HIGH && ExecutionRaises(cfg, snap, c.env))
  }

  function DecisionOf(cfg: Settings, snap: Snap, c: Choice): string {
    if !Allows(cfg, c.reply) then DENY else if snap.risk.level == Scorer.HIGH then PENDING else ALLOW
  }

  lemma {:induction false} LogAppends(a: seq<Record>, b: seq<Record>, id: string)
    ensures LogOf(a + b, id) == LogOf(a, id) + LogOf(b, id)
  {
    if b == [] {
      assert a + b == a;
    } else {
      assert (a + b)[..|a + b| - 1] == a + b[..|b| - 1];
      LogAppends(a, b[..|b| - 1], id);
    }
  }

  lemma LogOfNote(w: World, id: string, snap: Snap, decision: string, reason: string, c: Choice)
    ensures LogOf(WriteNote(w, id, NoteOf(c.now, id, snap, decision, reason), c.canOpen).audit, id) ==
              LogOf(w.audit, id) + (if c.canOpen then [decision] else [])
  {
    var r := NoteOf(c.now, id, snap, decision, reason);
    assert w.audit + [] == w.audit;
    LogAppends(w.audit, [r], id);
    assert [r][..0] == [];
  }

  /** What the handler writes once OPA has answered. */
  lemma RestartWrites(cfg: Settings, w: World, id: string, ctx: Ctx, c: Choice)
    ensures var snap := SnapOf(w, ctx);
            LogOf(Restart(cfg, w, id, AwaitingOpa(ctx), c).0.audit, id) ==
              LogOf(w.audit, id) + (if Unrecorded(cfg, snap, c) then [] else [DecisionOf(cfg, snap, c)])
  {
    var (w1, f1) := StepSubmission(cfg, w, id, AwaitingOpa(ctx), c);
    if f1.Ruled? {
      RuledWrites(cfg, w1, id, f1, c);
    }
  }

  lemma DirectWrites(cfg: Settings, w: World, id: string, f: Submission, c: Choice)
    requires f.Ruled? && f.allowed && f.ctx.risk.level != Scorer.HIGH
    ensures var snap := SnapOf(w, f.ctx);
            LogOf(Proceed(cfg, w, id, f, c).0.audit, id) ==
              LogOf(w.audit, id) + (if !c.canOpen || ExecutionRaises(cfg, snap, c.env) then [] else [ALLOW])
  {
    var snap := SnapOf(w, f.ctx);
    var (w1, f1) := StepSubmission(cfg, w, id, f, c);
    RaisesExactly(cfg, snap, c.env);
    if f1.HasRun? {
      LogOfNote(w1, id, snap, ALLOW, f.reason, c);
      LastStatement(cfg, w1, id, f1, c);
    }
  }

  lemma QueueWrites(cfg: Settings, w: World, id: string, f: Submission, c: Choice)
    requires f.Ruled? && f.allowed && f.ctx.risk.level == Scorer.HIGH
    ensures LogOf(Proceed(cfg, w, id, f, c).0.audit, id) ==
              LogOf(w.audit, id) + (if c.canOpen then [PENDING] else [])
  {
    var (w1, f1) := StepSubmission(cfg, w, id, f, c);
    LogOfNote(w1, id, SnapOf(w, f.ctx), PENDING, f.reason, c);
    OneStatement(cfg, w, id, f, c);
    LastStatement(cfg, w1, id, f1, c);
  }

  lemma DenialWrites(cfg: Settings, w: World, id: string, f: Submission, c: Choice)
    requires f.Ruled? && !f.allowed
    ensures LogOf(Proceed(cfg, w, id, f, c).0.audit, id) == LogOf(w.audit, id) + (if c.canOpen then [DENY] else [])
  {
    LogOfNote(w, id, SnapOf(w, f.ctx), DENY, f.reason, c);
  }

  lemma RuledWrites(cfg: Settings, w: World, id: string, f: Submission, c: Choice)
    requires f.Ruled? && Interpret(cfg, c.reply) == Decision(f.allowed, f.reason)
    ensures var snap := SnapOf(w, f.ctx);
            LogOf(Proceed(cfg, w, id, f, c).0.audit, id) ==
              LogOf(w.audit, id) + (if Unrecorded(cfg, snap, c) then [] else [DecisionOf(cfg, snap, c)])
  {
    if !f.allowed {
      DenialWrites(cfg, w, id, f, c);
    } else if f.ctx.risk.level == Scorer.HIGH {
      QueueWrites(cfg, w, id, f, c);
    } else {
      DirectWrites(cfg, w, id, f, c);
    }
  }

  lemma WaitingLogIsEmpty(cfg: Settings, turns: seq<Turn>, id: string)
    requires var s := Play(cfg, turns); id in s.subs && s.subs[id].AwaitingOpa?
    ensures LogOf(Play(cfg, turns).world.audit, id) == []
  {
    var s := Play(cfg, turns);
    PlayTidy(cfg, turns);
    assert SubOk(cfg, s, id);
    var h := Word(s.world.trace, id);
    LawfulNotes(cfg, id, h);
    LogIsStoredWord(cfg, turns, id);
    NoNote(h);
    NoStoredNote(h);
  }

  /** Once OPA has answered, the log of the request reads the decision, unless the guard holds: then it stays empty.
      So a submission whose token was verified goes unrecorded if and only if the guard holds. */
  lemma ReplyRecorded(cfg: Settings, turns: seq<Turn>, id: string, c: Choice)
    requires var s := Play(cfg, turns); id in s.subs && s.subs[id].AwaitingOpa?
    ensures var s := Play(cfg, turns);
            var snap := SnapOf(s.world, s.subs[id].ctx);
            LogOf(Play(cfg, turns + [OpaReplied(id, c)]).world.audit, id) ==
              if Unrecorded(cfg, snap, c) then [] else [DecisionOf(cfg, snap, c)]
  {
    var s := Play(cfg, turns);
    TurnIsHandlerCall(cfg, turns, OpaReplied(id, c));
    WaitingLogIsEmpty(cfg, turns, id);
    RestartWrites(cfg, s.world, id, s.subs[id].ctx, c);
  }

  /** With a log that opens, an allowed request that is not high-risk is unrecorded exactly when its execution
      raises. */
  lemma DirectRunUnrecorded(cfg: Settings, turns: seq<Turn>, id: string, c: Choice)
    requires var s := Play(cfg, turns); id in s.subs && s.subs[id].AwaitingOpa?
    requires Allows(cfg, c.reply) && Play(cfg, turns).subs[id].ctx.risk.level != Scorer.HIGH && c.canOpen
    ensures var s := Play(cfg, turns);
            LogOf(Play(cfg, turns + [OpaReplied(id, c)]).world.audit, id) == [] <==>
            ExecutionRaises(cfg, SnapOf(s.world, s.subs[id].ctx), c.env)
  {
    ReplyRecorded(cfg, turns, id, c);
  }

  lemma UnauthorisedLog(cfg: Settings, turns: seq<Turn>, id: string)
    requires var s := Play(cfg, turns); id in s.subs && s.subs[id] == Finished(Unauthorised)
    ensures LogOf(Play(cfg, turns).world.audit, id) == []
  {
    var s := Play(cfg, turns);
    PlayTidy(cfg, turns);
    assert SubOk(cfg, s, id);
    var h := Word(s.world.trace, id);
    LawfulNotes(cfg, id, h);
    LogIsStoredWord(cfg, turns, id);
    NoNote(h);
    NoStoredNote(h);
  }

  lemma ProceedRefused(cfg: Settings, w: World, id: string, body: Body, c: Choice)
    requires c.token.None?
    ensures Proceed(cfg, w, id, Entered(body), c).1 == Finished(Unauthorised)
  {
    LastStatement(cfg, w, id, Entered(body), c);
  }

  /** A refused token leaves nothing. */
  lemma RefusalUnrecorded(cfg: Settings, turns: seq<Turn>, turn: Turn)
    requires turn.Request? && turn.id !in Play(cfg, turns).subs && turn.choice.token.None?
    ensures var s := Play(cfg, turns + [turn]);
            && turn.id in s.subs && s.subs[turn.id] == Finished(Unauthorised)
            && LogOf(s.world.audit, turn.id) == []
  {
    var w := Play(cfg, turns).world;
    TurnIsHandlerCall(cfg, turns, turn);
    ProceedRefused(cfg, w.(heap := w.heap + [turn.params]), turn.id,
                   Body(turn.action, turn.resource, turn.namespace, |w.heap|), turn.choice);
    UnauthorisedLog(cfg, turns + [turn], turn.id);
  }

  // ----- The second record -----

  predicate ResolutionUnrecorded(cfg: Settings, snap: Snap, approved: bool, c: Choice) {
    !c.canOpen || (approved && ExecutionRaises(cfg, snap, c.env))
  }

  lemma HoldingWrites(cfg: Settings, w: World, tid: nat, f: Approval, c: Choice)
    requires f.Holding?
    ensures var id, snap := f.pending.requestId, SnapOfPending(w, f.pending);
            LogOf(ProceedApproval(cfg, w, tid, f, c).0.audit, id) ==
              LogOf(w.audit, id)
              + (if ResolutionUnrecorded(cfg, snap, f.approved, c) then []
                 else [if f.approved then HUMAN_ALLOW else HUMAN_DENY])
  {
    var id, snap := f.pending.requestId, SnapOfPending(w, f.pending);
    var (w1, f1) := StepApproval(cfg, w, tid, f, c);
    if f.approved {
      RaisesExactly(cfg, snap, c.env);
      if f1.HasExecuted? {
        LogOfNote(w1, id, snap, HUMAN_ALLOW, HumanReason(cfg, true, f.approver, f.comment), c);
        LastApprovalStatement(cfg, w1, tid, f1, c);
      }
    } else {
      LogOfNote(w, id, snap, HUMAN_DENY, HumanReason(cfg, false, f.approver, f.comment), c);
    }
  }

  /** An authenticated approval of a waiting request adds the approver's word to its log, unless the log cannot be
      opened or the approved execution raises: then it adds nothing. */
  lemma ApprovalRecorded(cfg: Settings, turns: seq<Turn>, turn: Turn)
    requires turn.ApproveRequest? && turn.choice.token.Some?
    requires var s := Play(cfg, turns); turn.tid !in s.apps && Find(s.world.queue, turn.target).Some?
    ensures var s := Play(cfg, turns);
            var snap := SnapOfPending(s.world, Find(s.world.queue, turn.target).value);
            LogOf(Play(cfg, turns + [turn]).world.audit, turn.target) ==
              LogOf(s.world.audit, turn.target)
              + (if ResolutionUnrecorded(cfg, snap, turn.approved, turn.choice) then []
                 else [if turn.approved then HUMAN_ALLOW else HUMAN_DENY])
  {
    var s, c := Play(cfg, turns), turn.choice;
    TurnIsHandlerCall(cfg, turns, turn);
    PlayTidy(cfg, turns);
    Taking(s.world.queue, turn.target);
    var approver, p := c.token.value.0, Find(s.world.queue, turn.target).value;
    var f0 := Called(turn.target, turn.approved, turn.comment);
    var f1 := Identified(turn.target, turn.approved, turn.comment, approver);
    var f2 := Holding(turn.approved, turn.comment, approver, p);
    var w2 := StepApproval(cfg, s.world, turn.tid, f1, c).0;
    OneApprovalStatement(cfg, s.world, turn.tid, f0, c);
    OneApprovalStatement(cfg, s.world, turn.tid, f1, c);
    HoldingWrites(cfg, w2, turn.tid, f2, c);
  }

  // ----- Two requests that leave no record, under the shipped policy -----

  const YES := Obj([("result", Obj([("allow", Bool(true))]))])

  lemma YesAnswers(cfg: Settings, input: Policy.Input)
    requires Policy.Allow(input)
    ensures Policy.Answers(input, YES) && Allows(cfg, Response(200, Some(YES)))
  {
  }

  function Twice(id: string, body: (string, string, string, Members), c: Choice): seq<Turn> {
    [Request(id, body.0, body.1, body.2, body.3, c)] + [OpaReplied(id, c)]
  }

  function FirstSnap(cfg: Settings, body: (string, string, string, Members), c: Choice): Snap
    requires c.token.Some?
  {
    Snap(c.token.value.0, c.token.value.1, body.0, body.1, body.2, body.3,
         Scorer.Assess(cfg, body.0, body.1, body.2, body.3))
  }

  lemma AskedFirst(cfg: Settings, id: string, body: (string, string, string, Members), c: Choice)
    requires c.token.Some?
    ensures var s := Play(cfg, Twice(id, body, c)[..1]); var snap := FirstSnap(cfg, body, c);
            && id in s.subs && s.subs[id].AwaitingOpa?
            && SnapOf(s.world, s.subs[id].ctx) == snap && s.subs[id].ctx.risk == snap.risk
            && s.world.calls == [] && s.world.audit == []
            && s.world.trace == [(id, Authenticated(snap.identity, snap.role)), (id, Judged(snap, InputOf(snap)))]
  {
    var turns := Twice(id, body, c);
    assert turns[..1] == [turns[0]] && turns[..1][..0] == [];
    var w := World([body.3], [], [], [], []);
    var b := Body(body.0, body.1, body.2, 0);
    RequestHandled(cfg, INITIAL, turns[0]);
    assert [] + [body.3] == [body.3];
    var snap := FirstSnap(cfg, body, c);
    var w1 := Emit(w, id, Authenticated(snap.identity, snap.role));
    var ctx := Ctx(snap.identity, snap.role, b, snap.risk);
    OneStatement(cfg, w, id, Entered(b), c);
    OneStatement(cfg, w1, id, Verified(b, snap.identity, snap.role), c);
    LastStatement(cfg, w1, id, Assessed(ctx), c);
    assert w1.trace == [(id, Authenticated(snap.identity, snap.role))];
  }

  /** A request that is allowed, not high-risk, and whose execution raises: it ends with an error and an empty log, and
      the cluster holds whatever call was sent. */
  lemma DirectRaise(cfg: Settings, id: string, body: (string, string, string, Members), c: Choice)
    requires c.token.Some? && c.canOpen && Allows(cfg, c.reply)
    requires var snap := FirstSnap(cfg, body, c);
             snap.risk.level != Scorer.HIGH && ExecutionRaises(cfg, snap, c.env)
    ensures var s := Play(cfg, Twice(id, body, c)); var snap := FirstSnap(cfg, body, c);
            var call := K8sClient.CallOf(cfg, snap.action, snap.resource, snap.namespace, snap.params);
            && id in s.subs && s.subs[id] == Finished(ExecutionError) && LogOf(s.world.audit, id) == []
            && s.world.calls == K8sClient.Issued(c.env, call)
            && |s.world.trace| == 4
            && s.world.trace[0].1.Authenticated? && s.world.trace[1].1.Judged?
            && s.world.trace[2].1 == Answered(InputOf(snap), c.reply) && s.world.trace[3].1.Attempt?
  {
    var turns := Twice(id, body, c);
    AskedFirst(cfg, id, body, c);
    assert turns == turns[..1] + [OpaReplied(id, c)];
    var s := Play(cfg, turns[..1]);
    DirectRunUnrecorded(cfg, turns[..1], id, c);
    TurnIsHandlerCall(cfg, turns[..1], OpaReplied(id, c));
    RestartRaises(cfg, s.world, id, s.subs[id].ctx, c);
  }

  lemma RestartRaises(cfg: Settings, w: World, id: string, ctx: Ctx, c: Choice)
    requires Allows(cfg, c.reply) && ctx.risk.level != Scorer.HIGH && ExecutionRaises(cfg, SnapOf(w, ctx), c.env)
    ensures var snap := SnapOf(w, ctx); var (w', f) := Restart(cfg, w, id, AwaitingOpa(ctx), c);
            var call := K8sClient.CallOf(cfg, snap.action, snap.resource, snap.namespace, snap.params);
            && f == Finished(ExecutionError) && w'.calls == w.calls + K8sClient.Issued(c.env, call)
            && |w'.trace| == |w.trace| + 2 && w.trace <= w'.trace
            && w'.trace[|w.trace|].1 == Answered(InputOf(snap), c.reply) && w'.trace[|w.trace| + 1].1.Attempt?
  {
    var snap := SnapOf(w, ctx);
    RaisesExactly(cfg, snap, c.env);
    var (w1, f1) := StepSubmission(cfg, w, id, AwaitingOpa(ctx), c);
    var (w2, f2) := StepSubmission(cfg, w1, id, f1, c);
    assert SnapOf(w1, ctx) == snap;
    LastStatement(cfg, w1, id, f1, c);
  }

  lemma ServedFour(t: seq<(string, Event)>, input: Policy.Input)
    requires |t| == 4 && t[0].1.Authenticated? && t[1].1.Judged? && t[3].1.Attempt?
    requires t[2].1 == Answered(input, Response(200, Some(YES))) && Policy.Answers(input, YES)
    ensures Composition.PolicyServed(t)
  {
    forall k | 0 <= k < |t|
      ensures Composition.Serves(t[k].1)
    {
      assert k == 2 || !t[k].1.Answered?;
    }
  }

  /** Nothing but the verb is charged for a request on plain names with no parameters. */
  lemma PlainScore(cfg: Settings, action: string, resource: string)
    requires Scorer.Lowercase(action) && Text.Unpadded(action)
    requires Scorer.Lowercase(resource) && Text.Unpadded(resource) && resource !in Scorer.SENSITIVE_RESOURCES
    ensures Scorer.Assess(cfg, action, resource, "default", []).level != Scorer.HIGH
  {
    Scorer.AlreadyNormal(action);
    Scorer.AlreadyNormal(resource);
    Scorer.AlreadyNormal("default");
    Scorer.ScoreInPoints(cfg, action, resource, "default", []);
    assert |"default"| == 7;
  }

  const NAMELESS_GET: (string, string, string, Members) := ("get", "pods", "default", [])
  const PLAIN_CREATE: (string, string, string, Members) := ("create", "deployments", "default", [])

  lemma Lowered()
    ensures Text.Lower("get") == "get" && Text.Lower("create") == "create"
    ensures Text.Lower("deployments") == "deployments" && Text.Lower("default") == "default"
  {
  }

  /** The choices of a turn: a verified token, the policy's yes, a cluster that answers so, and a log that opens. */
  function Choices(role: string, answer: K8sClient.ApiAnswer, clock: (string, string)): Choice {
    Choice(Some(("agent", role)), Response(200, Some(YES)), K8sClient.Environment(K8sClient.Loaded, answer), true,
           clock.0, clock.1)
  }

  ghost predicate EndsUnrecorded(s: Sys, id: string) {
    id in s.subs && s.subs[id] == Finished(ExecutionError) && LogOf(s.world.audit, id) == []
  }

  /** A request that the policy allows, that is not high-risk, and whose execution raises. */
  lemma AllowedRaise(cfg: Settings, id: string, body: (string, string, string, Members), role: string,
                     answer: K8sClient.ApiAnswer, clock: (string, string))
    requires var snap := FirstSnap(cfg, body, Choices(role, answer, clock));
             && Policy.Allow(InputOf(snap)) && snap.risk.level != Scorer.HIGH
             && ExecutionRaises(cfg, snap, K8sClient.Environment(K8sClient.Loaded, answer))
    ensures var c := Choices(role, answer, clock);
            var s := Play(cfg, Twice(id, body, c));
            && Composition.PolicyServed(s.world.trace) && EndsUnrecorded(s, id)
            && s.world.calls == K8sClient.Issued(c.env, K8sClient.CallOf(cfg, body.0, body.1, body.2, body.3))
  {
    var c := Choices(role, answer, clock);
    var input := InputOf(FirstSnap(cfg, body, c));
    YesAnswers(cfg, input);
    DirectRaise(cfg, id, body, c);
    ServedFour(Play(cfg, Twice(id, body, c)).world.trace, input);
  }

  lemma GetAllowed(snap: Snap)
    requires snap.role == "readonly" && snap.action == "get"
    ensures Policy.Allow(InputOf(snap))
  {
    Lowered();
  }

  lemma GetNotDispatched(cfg: Settings)
    ensures K8sClient.CallOf(cfg, "get", "pods", "default", []).RaisesValueError?
  {
    Scorer.AlreadyNormal("get");
    Scorer.AlreadyNormal("pods");
  }

  /** A readonly agent gets a pod without naming it: the policy allows it, the dispatcher raises, and nothing is sent
      and nothing is written. */
  lemma NamelessGetUnrecorded(cfg: Settings, id: string, clock: (string, string))
    ensures var s := Play(cfg, Twice(id, NAMELESS_GET, Choices("readonly", K8sClient.Accepted, clock)));
            Composition.PolicyServed(s.world.trace) && EndsUnrecorded(s, id) && s.world.calls == []
  {
    PlainScore(cfg, "get", "pods");
    GetAllowed(FirstSnap(cfg, NAMELESS_GET, Choices("readonly", K8sClient.Accepted, clock)));
    GetNotDispatched(cfg);
    AllowedRaise(cfg, id, NAMELESS_GET, "readonly", K8sClient.Accepted, clock);
  }

  lemma CreateAllowed(snap: Snap)
    requires snap.role == "deployer" && snap.action == "create" && snap.resource == "deployments"
    requires snap.namespace == "default" && snap.params == []
    ensures Policy.Allow(InputOf(snap))
  {
    Lowered();
    Policy.CleanMeansNoViolation(InputOf(snap));
    assert |"default"| == 7;
  }

  lemma CreateDispatched(cfg: Settings)
    ensures var call := K8sClient.CallOf(cfg, "create", "deployments", "default", []);
            call.Returns? && call.value.CreateDeployment? && call.value.namespace == "default"
  {
    Scorer.AlreadyNormal("create");
    Scorer.AlreadyNormal("deployments");
    Text.StripFixes("default");
  }

  lemma CreateSent(cfg: Settings, answer: K8sClient.ApiAnswer)
    requires K8sClient.Sends(answer)
    ensures var calls := K8sClient.Issued(K8sClient.Environment(K8sClient.Loaded, answer),
                                          K8sClient.CallOf(cfg, "create", "deployments", "default", []));
            |calls| == 1 && calls[0].CreateDeployment? && calls[0].namespace == "default"
  {
    CreateDispatched(cfg);
  }

  lemma CreateQualifies(cfg: Settings, clock: (string, string))
    ensures var snap := FirstSnap(cfg, PLAIN_CREATE, Choices("deployer", K8sClient.ApiException, clock));
            Policy.Allow(InputOf(snap)) && snap.risk.level != Scorer.HIGH
  {
    PlainScore(cfg, "create", "deployments");
    CreateAllowed(FirstSnap(cfg, PLAIN_CREATE, Choices("deployer", K8sClient.ApiException, clock)));
  }

  /** A deployer creates a Deployment that the cluster receives and answers with an error: the call has been sent, and
      nothing is written. */
  lemma FailedCreateUnrecorded(cfg: Settings, id: string, clock: (string, string))
    ensures var s := Play(cfg, Twice(id, PLAIN_CREATE, Choices("deployer", K8sClient.ApiException, clock)));
            && Composition.PolicyServed(s.world.trace) && EndsUnrecorded(s, id)
            && |s.world.calls| == 1 && s.world.calls[0].CreateDeployment? && s.world.calls[0].namespace == "default"
  {
    CreateQualifies(cfg, clock);
    CreateSent(cfg, K8sClient.ApiException);
    AllowedRaise(cfg, id, PLAIN_CREATE, "deployer", K8sClient.ApiException, clock);
  }
}
