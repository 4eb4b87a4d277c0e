/** The gateway under the shipped policy: what can reach the cluster, and what can reach the queue, on any run. */
module Composition {
  import opened JsonValues
  import opened ApprovalQueues
  import opened AuditLogs
  import opened Lifecycle
  import opened Traces
  import opened Gateway
  import opened Safety
  import opened Guarantees
  import opened Classifiers
  import Conservation
  import K8sClient
  import Policy
  import Scorer
  import Text

  /** OPA serves the shipped policy: a 2xx answer carries the value of its `allow` rule on the input that was sent.
      Every other reply stays arbitrary. */
  predicate Serves(e: Event) {
    e.Answered? && IsSuccess(e.reply) && e.reply.body.Some? ==>
      Policy.Answers(e.input, e.reply.body.value)
  }

  ghost predicate PolicyServed(t: seq<(string, Event)>) {
    forall k :: 0 <= k < |t| ==> Serves(t[k].1)
  }

  /** The gateway reads such a reply as the policy meant it. */
  lemma ReplyIsAllow(cfg: Settings, input: Policy.Input, reply: OpaReply)
    requires Serves(Answered(input, reply)) && IsSuccess(reply) && reply.body.Some?
    ensures Allows(cfg, reply) <==> Policy.Allow(input)
  {
  }

  // ----- What entitled an execution -----

  lemma AttemptSnap(cfg: Settings, id: string, h: seq<Event>, e: Event) returns (snap: Snap)
    requires Lawful(cfg, id, h) && e in h && e.Attempt?
    ensures ClearedBy(cfg, Deeds(h), snap) && Faithful(cfg, snap, e)
    ensures snap.risk == RiskOf(cfg, snap)
  {
    LawfulDeeds(cfg, id, h);
    DeedsHold(h, e);
    var life := Live(cfg, id, h).value;
    AttemptInDeeds(cfg, id, life, Deeds(h), e);
    LawfulJudged(cfg, id, h);
    snap := life.snap;
  }

  lemma AttemptInDeeds(cfg: Settings, id: string, life: Life, deeds: seq<Event>, e: Event)
    requires DeedsOf(cfg, id, life, deeds) && e in deeds && e.Attempt?
    ensures HasSnap(life) && ClearedBy(cfg, deeds, life.snap) && Faithful(cfg, life.snap, e)
  {
    var i := IndexIn(deeds, e);
  }

  lemma HistoryLawful(cfg: Settings, moves: seq<Move>, id: string)
    ensures Lawful(cfg, id, Word(TraceOf(cfg, moves), id))
  {
    RunKeepsInv(cfg, moves);
    assert SubOk(cfg, Run(cfg, moves), id);
  }

  /** A request that OPA cleared is one that the policy allows. */
  lemma ClearedIsAllowed(cfg: Settings, moves: seq<Move>, id: string, snap: Snap)
    requires PolicyServed(TraceOf(cfg, moves))
    requires ClearedBy(cfg, Deeds(Word(TraceOf(cfg, moves), id)), snap)
    ensures Policy.Allow(InputOf(snap))
  {
    var t := TraceOf(cfg, moves);
    var e := Deeds(Word(t, id))[2];
    Conservation.DeedInHistory(Word(t, id), e);
    WordOnlyOf(t, id, e);
    var k :| 0 <= k < |t| && t[k] == (id, e);
    assert Serves(t[k].1);
    ReplyIsAllow(cfg, e.input, e.reply);
  }

  /** The API call came of a request judged under this id, which the policy allows; it is what that request dispatches
      to, and safe for it. */
  ghost predicate Justified(cfg: Settings, t: seq<(string, Event)>, id: string, snap: Snap, call: K8sClient.ApiCall) {
    && (id, Authenticated(snap.identity, snap.role)) in t
    && (id, Judged(snap, InputOf(snap))) in t
    && Policy.Allow(InputOf(snap))
    && K8sClient.CallOf(cfg, snap.action, snap.resource, snap.namespace, snap.params) == K8sClient.Returns(call)
    && SafeCall(snap, call)
  }

  lemma AttemptJustified(cfg: Settings, moves: seq<Move>, k: nat) returns (snap: Snap)
    requires PolicyServed(TraceOf(cfg, moves))
    requires k < |TraceOf(cfg, moves)| && TraceOf(cfg, moves)[k].1.Attempt?
    ensures var t := TraceOf(cfg, moves);
            && ClearedBy(cfg, Deeds(Word(t, t[k].0)), snap) && Faithful(cfg, snap, t[k].1)
            && forall call :: call in t[k].1.issued ==> Justified(cfg, t, t[k].0, snap, call)
  {
    var t := TraceOf(cfg, moves);
    var (id, e) := t[k];
    var h := Word(t, id);
    HistoryLawful(cfg, moves, id);
    WordHas(t, k);
    snap := AttemptSnap(cfg, id, h, e);
    ClearedIsAllowed(cfg, moves, id, snap);
    Conservation.DeedInHistory(h, Deeds(h)[0]);
    Conservation.DeedInHistory(h, Deeds(h)[1]);
    WordOnlyOf(t, id, Deeds(h)[0]);
    WordOnlyOf(t, id, Deeds(h)[1]);
    forall call | call in e.issued
      ensures Justified(cfg, t, id, snap, call)
    {
      AllowedCall(cfg, snap, call);
    }
  }

  lemma {:induction false} CallTraced(t: seq<(string, Event)>, call: K8sClient.ApiCall)
    requires call in IssuedCalls(t)
    ensures exists k :: 0 <= k < |t| && t[k].1.Attempt? && call in t[k].1.issued
  {
    var front := t[..|t| - 1];
    if call in IssuedCalls(front) {
      CallTraced(front, call);
      var k :| 0 <= k < |front| && front[k].1.Attempt? && call in front[k].1.issued;
      assert t[k] == front[k];
    } else {
      assert t[|t| - 1].1.Attempt? && call in t[|t| - 1].1.issued;
    }
  }

  /** The execution at position k issued the call, and the request it belongs to justifies it. */
  ghost predicate IssuedBy(cfg: Settings, t: seq<(string, Event)>, k: nat, snap: Snap, call: K8sClient.ApiCall) {
    && k < |t| && t[k].1.Attempt? && call in t[k].1.issued
    && Faithful(cfg, snap, t[k].1) && ClearedBy(cfg, Deeds(Word(t, t[k].0)), snap)
    && Justified(cfg, t, t[k].0, snap, call)
  }

  /** Cluster safety on every run, from either endpoint and whatever the approvers choose: every call the cluster has
      received was issued by an execution of a request that justifies it; it is a read, or a create or patch of a safe
      Deployment, granted by the gateway's ClusterRole and never a delete; it writes to a control-plane namespace only
      for a padded namespace; and admission rejects its body exactly for an empty image or a false limit. */
  lemma ClusterIsSafe(cfg: Settings, moves: seq<Move>, i: nat)
    requires PolicyServed(TraceOf(cfg, moves)) && i < |Run(cfg, moves).world.calls|
    ensures exists k, snap :: IssuedBy(cfg, TraceOf(cfg, moves), k, snap, Run(cfg, moves).world.calls[i])
  {
    var w := Run(cfg, moves).world;
    RunExplained(cfg, moves);
    CallTraced(w.trace, w.calls[i]);
    var k :| 0 <= k < |w.trace| && w.trace[k].1.Attempt? && w.calls[i] in w.trace[k].1.issued;
    var snap := AttemptJustified(cfg, moves, k);
    assert IssuedBy(cfg, w.trace, k, snap, w.calls[i]);
  }

  /** An id authenticated as readonly only ever reads. */
  lemma ReadonlyOnlyReads(cfg: Settings, moves: seq<Move>, j: nat, k: nat)
    requires PolicyServed(TraceOf(cfg, moves))
    requires j < |TraceOf(cfg, moves)| && k < |TraceOf(cfg, moves)|
    requires var t := TraceOf(cfg, moves);
             && t[j].0 == t[k].0 && t[k].1.Attempt?
             && t[j].1.Authenticated? && t[j].1.role == "readonly"
    ensures forall call :: call in TraceOf(cfg, moves)[k].1.issued ==> K8sClient.IsRead(call)
  {
    var t := TraceOf(cfg, moves);
    var h := Word(t, t[k].0);
    var snap := AttemptJustified(cfg, moves, k);
    HistoryLawful(cfg, moves, t[k].0);
    LawfulShape(cfg, t[k].0, h);
    WordHas(t, j);
    DeedsHold(h, t[j].1);
    FirstDeed(cfg, Deeds(h), IndexIn(Deeds(h), t[j].1));
    assert snap.role == "readonly";
  }

  lemma FirstDeed(cfg: Settings, d: seq<Event>, i: nat)
    requires Shaped(cfg, d) && i < |d| && d[i].Authenticated?
    ensures i == 0
  {
  }

  // ----- What can reach the queue -----

  /** An enqueue, or the audit write of one. */
  predicate OfQueue(e: Event) {
    e.Enqueued? || (e.Note? && e.record.decision == PENDING)
  }

  lemma QueueEventNeeds(cfg: Settings, id: string, life: Life, deeds: seq<Event>, e: Event)
    requires DeedsOf(cfg, id, life, deeds) && OfQueue(e) && Advance(cfg, id, life, e).Some?
    ensures life.Cleared? || life.Held?
    ensures ClearedBy(cfg, deeds, life.snap) && life.snap.risk.level == Scorer.HIGH
  {
  }

  lemma QueueEventSnap(cfg: Settings, id: string, past: seq<Event>, e: Event) returns (snap: Snap)
    requires Lawful(cfg, id, past + [e]) && OfQueue(e)
    ensures ClearedBy(cfg, Deeds(past), snap)
    ensures snap.risk == RiskOf(cfg, snap) && snap.risk.level == Scorer.HIGH
    ensures Judged(snap, InputOf(snap)) in past
  {
    assert (past + [e])[..|past|] == past;
    LawfulDeeds(cfg, id, past);
    var life := Live(cfg, id, past).value;
    QueueEventNeeds(cfg, id, life, Deeds(past), e);
    LawfulJudged(cfg, id, past);
    snap := life.snap;
  }

  ghost predicate QueuedFor(cfg: Settings, t: seq<(string, Event)>, id: string, snap: Snap) {
    && (id, Judged(snap, InputOf(snap))) in t
    && Policy.Allow(InputOf(snap))
    && Text.Lower(snap.action) !in Policy.READ_ONLY_ACTIONS && Residue(cfg, snap) >= 3
  }

  /** On every run, whatever is enqueued or recorded as pending is an allowed write with a residue of at least 3. */
  lemma QueueNeedsResidue(cfg: Settings, moves: seq<Move>, k: nat)
    requires InStep(cfg) && PolicyServed(TraceOf(cfg, moves))
    requires k < |TraceOf(cfg, moves)| && OfQueue(TraceOf(cfg, moves)[k].1)
    ensures var t := TraceOf(cfg, moves); exists snap :: QueuedFor(cfg, t, t[k].0, snap)
  {
    var t := TraceOf(cfg, moves);
    var (id, e) := t[k];
    var past := Word(t[..k], id);
    LawfulAt(cfg, moves, k);
    var snap := QueueEventSnap(cfg, id, past, e);
    PastDeeds(t, k, id);
    ClearedIsAllowed(cfg, moves, id, snap);
    AllowedIsHigh(cfg, snap);
    WordOnlyOf(t[..k], id, Judged(snap, InputOf(snap)));
    assert QueuedFor(cfg, t, id, snap);
  }

  lemma {:induction false} DeedsPrefix(h: seq<Event>, n: nat)
    requires n <= |h|
    ensures Deeds(h[..n]) <= Deeds(h)
  {
    if n == |h| {
      assert h[..n] == h;
    } else {
      assert h[..|h| - 1][..n] == h[..n];
      DeedsPrefix(h[..|h| - 1], n);
    }
  }

  lemma PastDeeds(t: seq<(string, Event)>, k: nat, id: string)
    requires k <= |t|
    ensures Deeds(Word(t[..k], id)) <= Deeds(Word(t, id))
  {
    WordPrefix(t, k, id);
    var past, h := Word(t[..k], id), Word(t, id);
    assert h[..|past|] == past;
    DeedsPrefix(h, |past|);
  }

  /** Every request judged on the run names its namespace and resource without surrounding whitespace and gives its
      image, if any, as a string. */
  ghost predicate AllUnadorned(t: seq<(string, Event)>) {
    forall k :: 0 <= k < |t| && t[k].1.Judged? ==> Unadorned(t[k].1.snap)
  }

  lemma ResidueIsAdornment(cfg: Settings, snap: Snap)
    requires InStep(cfg) && Policy.Allow(InputOf(snap)) && Residue(cfg, snap) >= 3
    requires Text.Lower(snap.action) !in Policy.READ_ONLY_ACTIONS
    ensures !Unadorned(snap)
  {
    AllowedIsHigh(cfg, snap);
    if Unadorned(snap) {
      Calibrated(cfg, snap);
    }
  }

  lemma QueuedIsAdorned(cfg: Settings, t: seq<(string, Event)>, id: string, snap: Snap)
    requires InStep(cfg) && QueuedFor(cfg, t, id, snap)
    ensures !AllUnadorned(t)
  {
    var j := PlaceOf(t, (id, Judged(snap, InputOf(snap))));
    assert t[j].1.Judged? && t[j].1.snap == snap;
    ResidueIsAdornment(cfg, snap);
  }

  ghost function PlaceOf(t: seq<(string, Event)>, x: (string, Event)): (j: nat)
    requires x in t
    ensures j < |t| && t[j] == x
  {
    var j :| 0 <= j < |t| && t[j] == x;
    j
  }

  lemma NothingQueued(cfg: Settings, moves: seq<Move>, k: nat)
    requires InStep(cfg) && PolicyServed(TraceOf(cfg, moves)) && AllUnadorned(TraceOf(cfg, moves))
    requires k < |TraceOf(cfg, moves)|
    ensures !OfQueue(TraceOf(cfg, moves)[k].1)
  {
    var t := TraceOf(cfg, moves);
    if OfQueue(t[k].1) {
      QueueNeedsResidue(cfg, moves, k);
      var snap :| QueuedFor(cfg, t, t[k].0, snap);
      QueuedIsAdorned(cfg, t, t[k].0, snap);
    }
  }

  /** On every run of such requests the approval queue stays empty and no pending-approval record is written. */
  lemma QueueStaysEmpty(cfg: Settings, moves: seq<Move>)
    requires InStep(cfg) && PolicyServed(TraceOf(cfg, moves)) && AllUnadorned(TraceOf(cfg, moves))
    ensures Run(cfg, moves).world.queue == []
    ensures forall r :: r in Run(cfg, moves).world.audit ==> r.decision != PENDING
  {
    var w := Run(cfg, moves).world;
    RunExplained(cfg, moves);
    PendingIsOrderedRemainder(cfg, moves);
    if EnqueuedBy(QueueOps(w.trace)) != [] {
      EnqueueTraced(w.trace, EnqueuedBy(QueueOps(w.trace))[0]);
      var k :| 0 <= k < |w.trace| && w.trace[k].1.Enqueued?;
      NothingQueued(cfg, moves, k);
    }
    forall r | r in w.audit
      ensures r.decision != PENDING
    {
      StoredTraced(w.trace, r);
      var k :| 0 <= k < |w.trace| && w.trace[k].1 == Note(r, true);
      NothingQueued(cfg, moves, k);
    }
  }
}
