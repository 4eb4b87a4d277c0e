/** Every interleaving of statements keeps each request inside its lifecycle. */
module Safety {
  import opened JsonValues
  import opened ApprovalQueues
  import opened Lifecycle
  import opened Traces
  import opened Gateway
  import Scorer
  import K8sClient

  ghost function LifeAt(cfg: Settings, w: World, id: string): Option<Life> {
    Live(cfg, id, Word(w.trace, id))
  }

  // ----- The invariant: where each request stands, in the trace and in the state -----

  ghost predicate CtxOk(w: World, ctx: Ctx) {
    ctx.body.params < |w.heap|
  }

  /** A submission frame and the life of its request. */
  ghost predicate SubMatches(cfg: Settings, w: World, f: Submission, life: Life) {
    match f
    case Entered(body) => life.Unborn? && body.params < |w.heap|
    case Verified(body, identity, role) => life == Known(identity, role) && body.params < |w.heap|
    case Assessed(ctx) =>
      life == Known(ctx.identity, ctx.role) && CtxOk(w, ctx) && ctx.risk == RiskOf(cfg, SnapOf(w, ctx))
    case AwaitingOpa(ctx) => life == Asked(SnapOf(w, ctx)) && CtxOk(w, ctx)
    case Ruled(ctx, allowed, reason) =>
      life == (if allowed then Cleared(SnapOf(w, ctx), reason) else Barred(SnapOf(w, ctx), reason)) && CtxOk(w, ctx)
    case InQueue(ctx, reason) =>
      life.Held? && life.snap == SnapOf(w, ctx) && life.reason == reason && !life.noted && CtxOk(w, ctx)
    case HasRun(ctx, reason) => life == Ran(SnapOf(w, ctx), reason) && CtxOk(w, ctx)
    case Finished(response) =>
      match response
      case Unauthorised => life.Unauthorized?
      case OpaFailure => life.Aborted?
      case Denied => life.Closed? && life.decision == DENY
      case PendingApproval => life.Held? && life.noted
      case Allowed => life.Closed? && life.decision == ALLOW
      case ExecutionError => life.Failed?
  }

  ghost predicate SubOk(cfg: Settings, s: Sys, id: string) {
    var life := LifeAt(cfg, s.world, id);
    life.Some? && if id in s.subs then SubMatches(cfg, s.world, s.subs[id], life.value) else life.value.Unborn?
  }

  /** The approval that a resolution names is where the resolution says. */
  ghost predicate ResMatches(s: Sys, id: string, res: Resolution) {
    match res
    case Open => Queued(s.world.queue, id)
    case Taken(tid, approver, approved) =>
      && tid in s.apps && s.apps[tid].Holding?
      && s.apps[tid].pending.requestId == id && s.apps[tid].approver == approver && s.apps[tid].approved == approved
    case Executed(tid, approver) =>
      && tid in s.apps && s.apps[tid].HasExecuted?
      && s.apps[tid].pending.requestId == id && s.apps[tid].approver == approver
    case Resolved(tid, approved) => tid in s.apps && s.apps[tid] == Over(ResolvedOk(id, approved))
    case Broken(tid) => tid in s.apps && s.apps[tid] == Over(RunFailed(id))
  }

  ghost predicate ResOk(cfg: Settings, s: Sys, id: string) {
    var life := LifeAt(cfg, s.world, id);
    life.Some? && (life.value.Held? ==> ResMatches(s, id, life.value.res))
  }

  /** The request held under an id, in the queue or by an approval, is the one that was judged. */
  ghost predicate HeldAs(cfg: Settings, w: World, p: PendingRequest, res: Resolution) {
    var life := LifeAt(cfg, w, p.requestId);
    && life.Some? && life.value.Held?
    && life.value.res == res
    && life.value.snap == SnapOfPending(w, p) && p.params < |w.heap|
  }

  ghost predicate ClosedAs(cfg: Settings, w: World, id: string, res: Resolution) {
    var life := LifeAt(cfg, w, id);
    life.Some? && life.value.Held? && life.value.res == res
  }

  ghost predicate AppOk(cfg: Settings, w: World, tid: nat, f: Approval) {
    match f
    case Holding(approved, _, approver, p) => HeldAs(cfg, w, p, Taken(tid, approver, approved))
    case HasExecuted(_, approver, p) => HeldAs(cfg, w, p, Executed(tid, approver))
    case Over(ResolvedOk(id, approved)) => ClosedAs(cfg, w, id, Resolved(tid, approved))
    case Over(RunFailed(id)) => ClosedAs(cfg, w, id, Broken(tid))
    case _ => true
  }

  /** The request an approval frame speaks for. */
  function Owner(f: Approval): Option<string> {
    match f
    case Holding(_, _, _, p) => Some(p.requestId)
    case HasExecuted(_, _, p) => Some(p.requestId)
    case Over(ResolvedOk(id, _)) => Some(id)
    case Over(RunFailed(id)) => Some(id)
    case _ => None
  }

  ghost predicate Inv(cfg: Settings, s: Sys) {
    && DistinctIds(s.world.queue)
    && (forall id :: SubOk(cfg, s, id))
    && (forall id :: ResOk(cfg, s, id))
    && (forall p :: p in s.world.queue ==> HeldAs(cfg, s.world, p, Open))
    && (forall tid :: tid in s.apps ==> AppOk(cfg, s.world, tid, s.apps[tid]))
  }

  // ----- One event moves one request -----

  lemma LifeStep(cfg: Settings, w: World, w': World, k: string, e: Event)
    requires w'.trace == w.trace + [(k, e)]
    requires LifeAt(cfg, w, k).Some?
    ensures LifeAt(cfg, w', k) == Advance(cfg, k, LifeAt(cfg, w, k).value, e)
    ensures forall id :: id != k ==> LifeAt(cfg, w', id) == LifeAt(cfg, w, id)
  {
    WordAppend(w.trace, k, e, k);
    var h := Word(w.trace, k);
    assert (h + [e])[..|h|] == h;
    forall id | id != k
      ensures LifeAt(cfg, w', id) == LifeAt(cfg, w, id)
    {
      WordAppend(w.trace, k, e, id);
      assert Word(w'.trace, id) == Word(w.trace, id);
    }
  }

  /** What a step about request `k` must leave alone. */
  ghost predicate OthersUntouched(cfg: Settings, s: Sys, s': Sys, k: string) {
    && s'.world.heap == s.world.heap
    && (forall id :: id != k ==> LifeAt(cfg, s'.world, id) == LifeAt(cfg, s.world, id))
    && (forall id :: id != k ==> (id in s'.subs <==> id in s.subs))
    && (forall id :: id != k && id in s.subs ==> s'.subs[id] == s.subs[id])
    && (forall p :: p in s'.world.queue && p.requestId != k ==> p in s.world.queue)
    && (forall id :: id != k && Queued(s.world.queue, id) ==> Queued(s'.world.queue, id))
    && (forall tid :: tid in s.apps ==> tid in s'.apps)
    && (forall tid :: tid in s.apps && Owner(s.apps[tid]) !in {None, Some(k)} ==> s'.apps[tid] == s.apps[tid])
  }

  /** An approval that is new, has moved, or speaks for request `k`. */
  predicate Moved(s: Sys, s': Sys, k: string, tid: nat)
    requires tid in s'.apps
  {
    tid !in s.apps || s'.apps[tid] != s.apps[tid] || Owner(s.apps[tid]) == Some(k)
  }

  lemma OtherSub(cfg: Settings, s: Sys, s': Sys, k: string, id: string)
    requires OthersUntouched(cfg, s, s', k) && id != k && SubOk(cfg, s, id)
    ensures SubOk(cfg, s', id)
  {
  }

  lemma OtherRes(cfg: Settings, s: Sys, s': Sys, k: string, id: string)
    requires OthersUntouched(cfg, s, s', k) && id != k && ResOk(cfg, s, id)
    ensures ResOk(cfg, s', id)
  {
  }

  lemma OtherApp(cfg: Settings, s: Sys, s': Sys, k: string, tid: nat)
    requires OthersUntouched(cfg, s, s', k)
    requires tid in s.apps && AppOk(cfg, s.world, tid, s.apps[tid])
    requires s'.apps[tid] == s.apps[tid] && Owner(s.apps[tid]) != Some(k)
    ensures AppOk(cfg, s'.world, tid, s'.apps[tid])
  {
  }

  /** If the moved request and the frames that speak for it are right, everything is. */
  lemma Preserved(cfg: Settings, s: Sys, s': Sys, k: string)
    requires Inv(cfg, s) && OthersUntouched(cfg, s, s', k)
    requires SubOk(cfg, s', k) && ResOk(cfg, s', k)
    requires DistinctIds(s'.world.queue)
    requires forall p :: p in s'.world.queue && p.requestId == k ==> HeldAs(cfg, s'.world, p, Open)
    requires forall tid :: tid in s'.apps && Moved(s, s', k, tid) ==> AppOk(cfg, s'.world, tid, s'.apps[tid])
    ensures Inv(cfg, s')
  {
    forall id
      ensures SubOk(cfg, s', id) && ResOk(cfg, s', id)
    {
      if id != k {
        OtherSub(cfg, s, s', k, id);
        OtherRes(cfg, s, s', k, id);
      }
    }
    forall p | p in s'.world.queue
      ensures HeldAs(cfg, s'.world, p, Open)
    {
      if p.requestId != k {
        assert HeldAs(cfg, s.world, p, Open);
      }
    }
    forall tid | tid in s'.apps
      ensures AppOk(cfg, s'.world, tid, s'.apps[tid])
    {
      if !Moved(s, s', k, tid) {
        OtherApp(cfg, s, s', k, tid);
      }
    }
  }

  // ----- Submissions -----

  lemma SubmitKeepsInv(cfg: Settings, s: Sys, m: Move)
    requires Inv(cfg, s) && m.Submit? && Enabled(s, m)
    ensures Inv(cfg, Step(cfg, s, m))
  {
    var s' := Step(cfg, s, m);
    assert forall ref: nat :: ref < |s.world.heap| ==> Deref(s'.world, ref) == Deref(s.world, ref);
    forall id
      ensures SubOk(cfg, s', id) && ResOk(cfg, s', id)
    {
      assert SubOk(cfg, s, id) && ResOk(cfg, s, id);
    }
    forall p | p in s'.world.queue
      ensures HeldAs(cfg, s'.world, p, Open)
    {
      assert HeldAs(cfg, s.world, p, Open);
    }
    forall tid | tid in s'.apps
      ensures AppOk(cfg, s'.world, tid, s'.apps[tid])
    {
      assert AppOk(cfg, s.world, tid, s.apps[tid]);
    }
  }

  lemma NotQueuedMembers(q: Contents, id: string)
    ensures !Queued(q, id) <==> forall r :: r in q ==> r.requestId != id
  {
  }

  /** A request whose life is not held by an approval has no approval speaking for it. */
  lemma Unowned(cfg: Settings, s: Sys, k: string)
    requires Inv(cfg, s) && LifeAt(cfg, s.world, k).Some?
    requires var life := LifeAt(cfg, s.world, k).value; !life.Held? || life.res.Open?
    ensures forall tid :: tid in s.apps ==> Owner(s.apps[tid]) != Some(k)
  {
    forall tid | tid in s.apps
      ensures Owner(s.apps[tid]) != Some(k)
    {
      var f := s.apps[tid];
      assert AppOk(cfg, s.world, tid, f);
    }
  }

  /** A request that is not held is neither in the queue nor with an approval. */
  lemma NotHeldNowhere(cfg: Settings, s: Sys, k: string)
    requires Inv(cfg, s) && LifeAt(cfg, s.world, k).Some? && !LifeAt(cfg, s.world, k).value.Held?
    ensures !Queued(s.world.queue, k)
    ensures forall tid :: tid in s.apps ==> Owner(s.apps[tid]) != Some(k)
  {
    Unowned(cfg, s, k);
    NotQueuedMembers(s.world.queue, k);
    forall p | p in s.world.queue
      ensures p.requestId != k
    {
      assert HeldAs(cfg, s.world, p, Open);
    }
  }

  /** A statement that emits one event and touches neither the queue nor the heap. */
  predicate Plain(f: Submission) {
    !f.InQueue? && !f.Verified? && !f.Finished? && !(f.Ruled? && f.allowed && f.ctx.risk.level == Scorer.HIGH)
  }

  function EventOf(cfg: Settings, w: World, id: string, f: Submission, c: Choice): Event {
    var trace := StepSubmission(cfg, w, id, f, c).0.trace;
    if |trace| > |w.trace| then trace[|w.trace|].1 else Rejected
  }

  lemma PlainEffect(cfg: Settings, w: World, id: string, f: Submission, c: Choice)
    requires Plain(f)
    ensures var w' := StepSubmission(cfg, w, id, f, c).0;
            && w'.heap == w.heap && w'.queue == w.queue
            && w'.trace == w.trace + [(id, EventOf(cfg, w, id, f, c))]
  {
  }

  lemma NotesMatch(cfg: Settings, w: World, id: string, f: Submission, c: Choice, life: Life)
    requires ((f.Ruled? && !f.allowed) || f.HasRun?) && SubMatches(cfg, w, f, life)
    ensures var (w', f') := StepSubmission(cfg, w, id, f, c);
            var next := Advance(cfg, id, life, EventOf(cfg, w, id, f, c));
            next.Some? && SubMatches(cfg, w', f', next.value) && !next.value.Held?
  {
  }

  lemma RunMatches(cfg: Settings, w: World, id: string, f: Submission, c: Choice, life: Life)
    requires f.Ruled? && f.allowed && f.ctx.risk.level != Scorer.HIGH && SubMatches(cfg, w, f, life)
    ensures var (w', f') := StepSubmission(cfg, w, id, f, c);
            var next := Advance(cfg, id, life, EventOf(cfg, w, id, f, c));
            next.Some? && SubMatches(cfg, w', f', next.value) && !next.value.Held?
  {
  }

  lemma OpeningMatches(cfg: Settings, w: World, id: string, f: Submission, c: Choice, life: Life)
    requires (f.Entered? || f.Assessed?) && SubMatches(cfg, w, f, life)
    ensures var (w', f') := StepSubmission(cfg, w, id, f, c);
            var next := Advance(cfg, id, life, EventOf(cfg, w, id, f, c));
            next.Some? && SubMatches(cfg, w', f', next.value) && !next.value.Held?
  {
  }

  lemma ReplyMatches(cfg: Settings, w: World, id: string, f: Submission, c: Choice, life: Life)
    requires f.AwaitingOpa? && SubMatches(cfg, w, f, life)
    ensures var (w', f') := StepSubmission(cfg, w, id, f, c);
            var next := Advance(cfg, id, life, EventOf(cfg, w, id, f, c));
            next.Some? && SubMatches(cfg, w', f', next.value) && !next.value.Held?
  {
  }

  /** It moves the frame and the life of its request together. */
  lemma PlainMatches(cfg: Settings, w: World, id: string, f: Submission, c: Choice, life: Life)
    requires Plain(f) && SubMatches(cfg, w, f, life)
    ensures var (w', f') := StepSubmission(cfg, w, id, f, c);
            var next := Advance(cfg, id, life, EventOf(cfg, w, id, f, c));
            next.Some? && SubMatches(cfg, w', f', next.value) && !next.value.Held?
  {
    if f.Ruled? && f.allowed {
      RunMatches(cfg, w, id, f, c, life);
    } else if f.Ruled? || f.HasRun? {
      NotesMatch(cfg, w, id, f, c, life);
    } else if f.AwaitingOpa? {
      ReplyMatches(cfg, w, id, f, c, life);
    } else {
      OpeningMatches(cfg, w, id, f, c, life);
    }
  }

  lemma PlainStep(cfg: Settings, s: Sys, id: string, c: Choice)
    requires Inv(cfg, s) && Enabled(s, RunSubmission(id, c)) && Plain(s.subs[id])
    ensures Inv(cfg, Step(cfg, s, RunSubmission(id, c)))
  {
    var s', f := Step(cfg, s, RunSubmission(id, c)), s.subs[id];
    assert SubOk(cfg, s, id);
    PlainEffect(cfg, s.world, id, f, c);
    PlainMatches(cfg, s.world, id, f, c, LifeAt(cfg, s.world, id).value);
    LifeStep(cfg, s.world, s'.world, id, EventOf(cfg, s.world, id, f, c));
    NotHeldNowhere(cfg, s, id);
    Preserved(cfg, s, s', id);
  }

  lemma AssessStep(cfg: Settings, s: Sys, id: string, c: Choice)
    requires Inv(cfg, s) && Enabled(s, RunSubmission(id, c)) && s.subs[id].Verified?
    ensures Inv(cfg, Step(cfg, s, RunSubmission(id, c)))
  {
    var s' := Step(cfg, s, RunSubmission(id, c));
    assert SubOk(cfg, s, id);
    NotHeldNowhere(cfg, s, id);
    Preserved(cfg, s, s', id);
  }

  lemma QueueAfterPut(q: Contents, p: PendingRequest)
    requires DistinctIds(q) && !Queued(q, p.requestId)
    ensures var q' := Put(q, p);
            && DistinctIds(q') && Queued(q', p.requestId)
            && (forall r :: r in q' <==> r in q || r == p)
            && (forall r :: r in q' && r.requestId == p.requestId ==> r == p)
            && (forall id :: Queued(q, id) ==> Queued(q', id))
  {
    PutNew(q, p);
    NotQueuedMembers(q, p.requestId);
    var q' := q + [p];
    assert q'[|q|] == p;
    forall id | Queued(q, id)
      ensures Queued(q', id)
    {
      var i :| 0 <= i < |q| && q[i].requestId == id;
      assert q'[i].requestId == id;
    }
  }

  lemma EnqueueStep(cfg: Settings, s: Sys, id: string, c: Choice)
    requires Inv(cfg, s) && Enabled(s, RunSubmission(id, c))
    requires var f := s.subs[id]; f.Ruled? && f.allowed && f.ctx.risk.level == Scorer.HIGH
    ensures Inv(cfg, Step(cfg, s, RunSubmission(id, c)))
  {
    var s' := Step(cfg, s, RunSubmission(id, c));
    var ctx := s.subs[id].ctx;
    var p := PendingOf(id, ctx, c.queuedAt);
    assert SubOk(cfg, s, id);
    LifeStep(cfg, s.world, s'.world, id, Enqueued(p, SnapOf(s.world, ctx)));
    NotHeldNowhere(cfg, s, id);
    QueueAfterPut(s.world.queue, p);
    Preserved(cfg, s, s', id);
  }

  lemma PendingMatches(cfg: Settings, w: World, id: string, f: Submission, c: Choice, life: Life)
    requires f.InQueue? && SubMatches(cfg, w, f, life)
    ensures var (w', f') := StepSubmission(cfg, w, id, f, c);
            && w'.heap == w.heap && w'.queue == w.queue
            && w'.trace == w.trace + [(id, EventOf(cfg, w, id, f, c))]
            && Advance(cfg, id, life, EventOf(cfg, w, id, f, c)) == Some(life.(noted := true))
            && SubMatches(cfg, w', f', life.(noted := true))
  {
  }

  /** Noting the pending record changes nothing else of the request's life. */
  ghost predicate OnlyNoted(cfg: Settings, w: World, w': World, id: string) {
    && w'.heap == w.heap
    && LifeAt(cfg, w, id).Some? && LifeAt(cfg, w, id).value.Held?
    && LifeAt(cfg, w', id) == Some(LifeAt(cfg, w, id).value.(noted := true))
  }

  lemma NotedHeld(cfg: Settings, w: World, w': World, id: string, p: PendingRequest)
    requires OnlyNoted(cfg, w, w', id) && p.requestId == id && HeldAs(cfg, w, p, Open)
    ensures HeldAs(cfg, w', p, Open)
  {
  }

  lemma NotedOwner(cfg: Settings, w: World, w': World, id: string, tid: nat, f: Approval)
    requires OnlyNoted(cfg, w, w', id) && Owner(f) == Some(id) && AppOk(cfg, w, tid, f)
    ensures AppOk(cfg, w', tid, f)
  {
  }

  lemma PendingMovesLife(cfg: Settings, s: Sys, id: string, c: Choice)
    requires Inv(cfg, s) && Enabled(s, RunSubmission(id, c)) && s.subs[id].InQueue?
    ensures var s' := Step(cfg, s, RunSubmission(id, c));
            && OnlyNoted(cfg, s.world, s'.world, id) && SubOk(cfg, s', id)
            && s'.world.queue == s.world.queue && s'.apps == s.apps
            && (forall x :: x != id ==> LifeAt(cfg, s'.world, x) == LifeAt(cfg, s.world, x))
  {
    var s', f := Step(cfg, s, RunSubmission(id, c)), s.subs[id];
    assert SubOk(cfg, s, id);
    PendingMatches(cfg, s.world, id, f, c, LifeAt(cfg, s.world, id).value);
    LifeStep(cfg, s.world, s'.world, id, EventOf(cfg, s.world, id, f, c));
  }

  lemma PendingNoteStep(cfg: Settings, s: Sys, id: string, c: Choice)
    requires Inv(cfg, s) && Enabled(s, RunSubmission(id, c)) && s.subs[id].InQueue?
    ensures Inv(cfg, Step(cfg, s, RunSubmission(id, c)))
  {
    var s' := Step(cfg, s, RunSubmission(id, c));
    PendingMovesLife(cfg, s, id, c);
    assert ResOk(cfg, s, id);
    forall p | p in s'.world.queue && p.requestId == id
      ensures HeldAs(cfg, s'.world, p, Open)
    {
      NotedHeld(cfg, s.world, s'.world, id, p);
    }
    forall tid | tid in s'.apps && Owner(s.apps[tid]) == Some(id)
      ensures AppOk(cfg, s'.world, tid, s'.apps[tid])
    {
      NotedOwner(cfg, s.world, s'.world, id, tid, s.apps[tid]);
    }
    Preserved(cfg, s, s', id);
  }

  // ----- Approvals -----

  lemma ApproveKeepsInv(cfg: Settings, s: Sys, m: Move)
    requires Inv(cfg, s) && m.Approve? && Enabled(s, m)
    ensures Inv(cfg, Step(cfg, s, m))
  {
    var s' := Step(cfg, s, m);
    forall id
      ensures SubOk(cfg, s', id) && ResOk(cfg, s', id)
    {
      assert SubOk(cfg, s, id) && ResOk(cfg, s, id);
    }
    forall tid | tid in s'.apps
      ensures AppOk(cfg, s'.world, tid, s'.apps[tid])
    {
      if tid != m.tid {
        assert AppOk(cfg, s.world, tid, s.apps[tid]);
      }
    }
  }

  /** Statements of an approval that find nothing to do: authentication, an unknown id. */
  lemma IdleApproval(cfg: Settings, s: Sys, tid: nat, c: Choice)
    requires Inv(cfg, s) && Enabled(s, RunApproval(tid, c))
    requires s.apps[tid].Called? || (s.apps[tid].Identified? && Find(s.world.queue, s.apps[tid].target).None?)
    ensures Inv(cfg, Step(cfg, s, RunApproval(tid, c)))
  {
    var s' := Step(cfg, s, RunApproval(tid, c));
    assert s'.world == s.world;
    forall id
      ensures SubOk(cfg, s', id) && ResOk(cfg, s', id)
    {
      assert SubOk(cfg, s, id) && ResOk(cfg, s, id);
    }
    forall t | t in s'.apps
      ensures AppOk(cfg, s'.world, t, s'.apps[t])
    {
      assert AppOk(cfg, s.world, t, s.apps[t]);
    }
  }

  /** A submission frame does not depend on the human side of its request. */
  lemma SubIgnoresResolution(cfg: Settings, w: World, w': World, f: Submission, life: Life, life': Life)
    requires life.Held? && life'.Held? && SubMatches(cfg, w, f, life) && w'.heap == w.heap
    requires life' == life.(res := life'.res, overtaken := life'.overtaken)
    ensures SubMatches(cfg, w', f, life')
  {
  }

  /** Only one approval frame speaks for a request that an approval holds. */
  lemma OneOwner(cfg: Settings, s: Sys, tid: nat, t: nat)
    requires Inv(cfg, s) && tid in s.apps && t in s.apps
    requires Owner(s.apps[tid]).Some? && Owner(s.apps[t]) == Owner(s.apps[tid])
    ensures t == tid
  {
    assert AppOk(cfg, s.world, tid, s.apps[tid]);
    assert AppOk(cfg, s.world, t, s.apps[t]);
  }

  /** A request that an approval speaks for is no longer in the queue. */
  lemma OwnedNotQueued(cfg: Settings, s: Sys, tid: nat)
    requires Inv(cfg, s) && tid in s.apps && Owner(s.apps[tid]).Some?
    ensures !Queued(s.world.queue, Owner(s.apps[tid]).value)
  {
    assert AppOk(cfg, s.world, tid, s.apps[tid]);
    var q, id := s.world.queue, Owner(s.apps[tid]).value;
    NotQueuedMembers(q, id);
    forall p | p in q
      ensures p.requestId != id
    {
      assert HeldAs(cfg, s.world, p, Open);
    }
  }

  lemma QueueAfterPop(q: Contents, id: string)
    requires DistinctIds(q)
    ensures var q' := Without(q, id);
            && DistinctIds(q') && !Queued(q', id)
            && (forall r :: r in q' ==> r in q && r.requestId != id)
            && (forall x :: x != id && Queued(q, x) ==> Queued(q', x))
  {
    Taking(q, id);
    forall x | x != id && Queued(q, x)
      ensures Queued(Without(q, id), x)
    {
      var i :| 0 <= i < |q| && q[i].requestId == x;
      assert q[i] in Without(q, id);
    }
  }

  lemma PopEffect(cfg: Settings, w: World, tid: nat, f: Approval, c: Choice)
    requires f.Identified? && Find(w.queue, f.target).Some?
    ensures var (w', f') := StepApproval(cfg, w, tid, f, c);
            && w'.heap == w.heap && w'.trace == w.trace + [(f.target, Popped(tid, f.approver, f.approved))]
            && f' == Holding(f.approved, f.comment, f.approver, Find(w.queue, f.target).value)
  {
  }

  lemma PopAdvances(cfg: Settings, id: string, life: Life, tid: nat, approver: string, approved: bool)
    requires life.Held? && life.res.Open?
    ensures Advance(cfg, id, life, Popped(tid, approver, approved)) ==
              Some(life.(res := Taken(tid, approver, approved), overtaken := !life.noted))
  {
  }

  lemma PopMovesLife(cfg: Settings, s: Sys, tid: nat, c: Choice)
    requires Inv(cfg, s) && Enabled(s, RunApproval(tid, c))
    requires s.apps[tid].Identified? && Find(s.world.queue, s.apps[tid].target).Some?
    ensures var s', f := Step(cfg, s, RunApproval(tid, c)), s.apps[tid];
            var id, p := f.target, Find(s.world.queue, f.target).value;
            && s'.world.heap == s.world.heap && s'.subs == s.subs
            && p.requestId == id && HeldAs(cfg, s.world, p, Open)
            && s'.apps[tid] == Holding(f.approved, f.comment, f.approver, p)
            && (var life := LifeAt(cfg, s.world, id).value;
                LifeAt(cfg, s'.world, id) ==
                  Some(life.(res := Taken(tid, f.approver, f.approved), overtaken := !life.noted)))
            && (forall x :: x != id ==> LifeAt(cfg, s'.world, x) == LifeAt(cfg, s.world, x))
  {
    var s', f := Step(cfg, s, RunApproval(tid, c)), s.apps[tid];
    Taking(s.world.queue, f.target);
    PopEffect(cfg, s.world, tid, f, c);
    assert HeldAs(cfg, s.world, Find(s.world.queue, f.target).value, Open);
    LifeStep(cfg, s.world, s'.world, f.target, Popped(tid, f.approver, f.approved));
    PopAdvances(cfg, f.target, LifeAt(cfg, s.world, f.target).value, tid, f.approver, f.approved);
  }

  /** Taking the request out of the queue moves its life and the approval's frame together. */
  lemma PopMatches(cfg: Settings, s: Sys, tid: nat, c: Choice)
    requires Inv(cfg, s) && Enabled(s, RunApproval(tid, c))
    requires s.apps[tid].Identified? && Find(s.world.queue, s.apps[tid].target).Some?
    ensures var s', id := Step(cfg, s, RunApproval(tid, c)), s.apps[tid].target;
            && SubOk(cfg, s', id) && ResOk(cfg, s', id) && AppOk(cfg, s'.world, tid, s'.apps[tid])
            && (forall x :: x != id ==> LifeAt(cfg, s'.world, x) == LifeAt(cfg, s.world, x))
            && LifeAt(cfg, s.world, id).Some? && LifeAt(cfg, s.world, id).value.Held?
            && LifeAt(cfg, s.world, id).value.res.Open?
  {
    PopMovesLife(cfg, s, tid, c);
    var s', id := Step(cfg, s, RunApproval(tid, c)), s.apps[tid].target;
    assert SubOk(cfg, s, id);
    SubIgnoresResolution(cfg, s.world, s'.world, s.subs[id], LifeAt(cfg, s.world, id).value,
                         LifeAt(cfg, s'.world, id).value);
  }

  lemma PopStep(cfg: Settings, s: Sys, tid: nat, c: Choice)
    requires Inv(cfg, s) && Enabled(s, RunApproval(tid, c))
    requires s.apps[tid].Identified? && Find(s.world.queue, s.apps[tid].target).Some?
    ensures Inv(cfg, Step(cfg, s, RunApproval(tid, c)))
  {
    var s', id := Step(cfg, s, RunApproval(tid, c)), s.apps[tid].target;
    PopMatches(cfg, s, tid, c);
    QueueAfterPop(s.world.queue, id);
    Unowned(cfg, s, id);
    Preserved(cfg, s, s', id);
  }

  function ApprovalEvent(cfg: Settings, w: World, tid: nat, f: Approval, c: Choice): Event {
    var trace := StepApproval(cfg, w, tid, f, c).0.trace;
    if |trace| > |w.trace| then trace[|w.trace|].1 else Rejected
  }

  lemma ResolvingEffect(cfg: Settings, w: World, tid: nat, f: Approval, c: Choice)
    requires f.Holding? || f.HasExecuted?
    ensures var w' := StepApproval(cfg, w, tid, f, c).0;
            && w'.heap == w.heap && w'.queue == w.queue
            && w'.trace == w.trace + [(f.pending.requestId, ApprovalEvent(cfg, w, tid, f, c))]
  {
  }

  /** The resolution a frame stands for. */
  function ResolutionOf(tid: nat, f: Approval): Resolution {
    match f
    case Holding(approved, _, approver, _) => Taken(tid, approver, approved)
    case HasExecuted(_, approver, _) => Executed(tid, approver)
    case Over(ResolvedOk(_, approved)) => Resolved(tid, approved)
    case Over(RunFailed(_)) => Broken(tid)
    case _ => Open
  }

  /** The executing or recording statement of an approval moves its frame and the life of its request together. */
  ghost predicate MovesTogether(cfg: Settings, w: World, tid: nat, f: Approval, c: Choice, life: Life)
    requires (f.Holding? || f.HasExecuted?) && life.Held?
  {
    var f' := StepApproval(cfg, w, tid, f, c).1;
    var next := Advance(cfg, f.pending.requestId, life, ApprovalEvent(cfg, w, tid, f, c));
    && next == Some(life.(res := ResolutionOf(tid, f')))
    && (f'.HasExecuted? || f' == Over(RunFailed(f.pending.requestId))
        || f' == Over(ResolvedOk(f.pending.requestId, f.HasExecuted?)))
    && (f'.HasExecuted? ==> f'.pending == f.pending && f'.approver == f.approver)
  }

  lemma ExecutingMatches(cfg: Settings, w: World, tid: nat, f: Approval, c: Choice, life: Life)
    requires f.Holding? && f.approved
    requires life.Held? && life.res == ResolutionOf(tid, f) && life.snap == SnapOfPending(w, f.pending)
    ensures MovesTogether(cfg, w, tid, f, c, life)
  {
  }

  lemma RecordingMatches(cfg: Settings, w: World, tid: nat, f: Approval, c: Choice, life: Life)
    requires f.HasExecuted? || (f.Holding? && !f.approved)
    requires life.Held? && life.res == ResolutionOf(tid, f) && life.snap == SnapOfPending(w, f.pending)
    ensures MovesTogether(cfg, w, tid, f, c, life)
  {
  }

  lemma ResolvingMatches(cfg: Settings, w: World, tid: nat, f: Approval, c: Choice, life: Life)
    requires f.Holding? || f.HasExecuted?
    requires life.Held? && life.res == ResolutionOf(tid, f) && life.snap == SnapOfPending(w, f.pending)
    ensures MovesTogether(cfg, w, tid, f, c, life)
  {
    if f.Holding? && f.approved {
      ExecutingMatches(cfg, w, tid, f, c, life);
    } else {
      RecordingMatches(cfg, w, tid, f, c, life);
    }
  }

  /** The step moves the resolution of the request to what the frame now stands for, and no other life. */
  lemma ResolveMovesLife(cfg: Settings, s: Sys, tid: nat, c: Choice)
    requires Inv(cfg, s) && Enabled(s, RunApproval(tid, c))
    requires s.apps[tid].Holding? || s.apps[tid].HasExecuted?
    ensures var s', f := Step(cfg, s, RunApproval(tid, c)), s.apps[tid];
            var id, f' := f.pending.requestId, s'.apps[tid];
            && s'.world.heap == s.world.heap && s'.subs == s.subs
            && HeldAs(cfg, s.world, f.pending, ResolutionOf(tid, f))
            && LifeAt(cfg, s'.world, id) == Some(LifeAt(cfg, s.world, id).value.(res := ResolutionOf(tid, f')))
            && (f'.HasExecuted? || f' == Over(RunFailed(id)) || f' == Over(ResolvedOk(id, f.HasExecuted?)))
            && (f'.HasExecuted? ==> f'.pending == f.pending && f'.approver == f.approver)
            && (forall x :: x != id ==> LifeAt(cfg, s'.world, x) == LifeAt(cfg, s.world, x))
  {
    var s', f := Step(cfg, s, RunApproval(tid, c)), s.apps[tid];
    var id := f.pending.requestId;
    assert AppOk(cfg, s.world, tid, f);
    var life := LifeAt(cfg, s.world, id).value;
    ResolvingEffect(cfg, s.world, tid, f, c);
    ResolvingMatches(cfg, s.world, tid, f, c, life);
    LifeStep(cfg, s.world, s'.world, id, ApprovalEvent(cfg, s.world, tid, f, c));
  }

  lemma ResolveMatches(cfg: Settings, s: Sys, tid: nat, c: Choice)
    requires Inv(cfg, s) && Enabled(s, RunApproval(tid, c))
    requires s.apps[tid].Holding? || s.apps[tid].HasExecuted?
    ensures var s', id := Step(cfg, s, RunApproval(tid, c)), s.apps[tid].pending.requestId;
            && SubOk(cfg, s', id) && ResOk(cfg, s', id) && AppOk(cfg, s'.world, tid, s'.apps[tid])
            && (forall x :: x != id ==> LifeAt(cfg, s'.world, x) == LifeAt(cfg, s.world, x))
  {
    ResolveMovesLife(cfg, s, tid, c);
    var s', id := Step(cfg, s, RunApproval(tid, c)), s.apps[tid].pending.requestId;
    assert SubOk(cfg, s, id);
    SubIgnoresResolution(cfg, s.world, s'.world, s.subs[id], LifeAt(cfg, s.world, id).value,
                         LifeAt(cfg, s'.world, id).value);
  }

  lemma ResolveStep(cfg: Settings, s: Sys, tid: nat, c: Choice)
    requires Inv(cfg, s) && Enabled(s, RunApproval(tid, c))
    requires s.apps[tid].Holding? || s.apps[tid].HasExecuted?
    ensures Inv(cfg, Step(cfg, s, RunApproval(tid, c)))
  {
    var s', f := Step(cfg, s, RunApproval(tid, c)), s.apps[tid];
    var id := f.pending.requestId;
    ResolveMatches(cfg, s, tid, c);
    ResolvingEffect(cfg, s.world, tid, f, c);
    OwnedNotQueued(cfg, s, tid);
    NotQueuedMembers(s.world.queue, id);
    forall t | t in s.apps && Owner(s.apps[t]) == Some(id)
      ensures t == tid
    {
      OneOwner(cfg, s, tid, t);
    }
    Preserved(cfg, s, s', id);
  }

  // ----- Every run -----

  lemma StepKeepsInv(cfg: Settings, s: Sys, m: Move)
    requires Inv(cfg, s) && Enabled(s, m)
    ensures Inv(cfg, Step(cfg, s, m))
  {
    match m
    case Submit(_, _, _, _, _) => SubmitKeepsInv(cfg, s, m);
    case Approve(_, _, _, _) => ApproveKeepsInv(cfg, s, m);
    case RunSubmission(id, c) =>
      var f := s.subs[id];
      if f.Verified? {
        AssessStep(cfg, s, id, c);
      } else if f.InQueue? {
        PendingNoteStep(cfg, s, id, c);
      } else if f.Ruled? && f.allowed && f.ctx.risk.level == Scorer.HIGH {
        EnqueueStep(cfg, s, id, c);
      } else {
        PlainStep(cfg, s, id, c);
      }
    case RunApproval(tid, c) =>
      var f := s.apps[tid];
      if f.Holding? || f.HasExecuted? {
        ResolveStep(cfg, s, tid, c);
      } else if f.Identified? && Find(s.world.queue, f.target).Some? {
        PopStep(cfg, s, tid, c);
      } else {
        IdleApproval(cfg, s, tid, c);
      }
  }

  lemma {:induction false} RunKeepsInv(cfg: Settings, moves: seq<Move>)
    ensures Inv(cfg, Run(cfg, moves))
  {
    if moves == [] {
    } else {
      var s, m := Run(cfg, moves[..|moves| - 1]), moves[|moves| - 1];
      RunKeepsInv(cfg, moves[..|moves| - 1]);
      if Enabled(s, m) {
        StepKeepsInv(cfg, s, m);
      }
    }
  }
}
