/** What the audit log of one request could read if the handlers interleaved statement by statement, with only the locks
    to order them. */
module Interleavings {
  import opened JsonValues
  import opened AuditLogs
  import opened ApprovalQueues
  import opened Lifecycle
  import opened Traces
  import opened Gateway
  import opened Safety
  import opened Guarantees
  import opened EventLoop
  import Scorer

  /** What a request may leave when its resolution overtakes the pending record. */
  predicate Overtaken(word: seq<string>) {
    || word == [HUMAN_ALLOW]
    || word == [HUMAN_DENY]
    || word == [HUMAN_ALLOW, PENDING]
    || word == [HUMAN_DENY, PENDING]
  }

  lemma HeldWord(life: Life, word: seq<string>)
    requires life.Held? && NotesOf(life, word)
    ensures Documented(word) || Overtaken(word)
  {
    assert [PENDING] + [] == [PENDING];
  }

  /** Whatever the interleaving of statements, the audit writes of a request are documented but for those four words. */
  lemma StatementAuditLanguage(cfg: Settings, moves: seq<Move>, id: string)
    ensures var word := Decisions(Notes(Word(TraceOf(cfg, moves), id))); Documented(word) || Overtaken(word)
  {
    RunKeepsInv(cfg, moves);
    assert SubOk(cfg, Run(cfg, moves), id);
    var h := Word(TraceOf(cfg, moves), id);
    LawfulNotes(cfg, id, h);
    var life := Live(cfg, id, h).value;
    if life.Held? {
      HeldWord(life, Decisions(Notes(h)));
    }
  }

  lemma SubmissionMove(cfg: Settings, moves: seq<Move>, id: string, c: Choice)
    requires id in Run(cfg, moves).subs && !Run(cfg, moves).subs[id].Finished?
    ensures var s, s' := Run(cfg, moves), Run(cfg, moves + [RunSubmission(id, c)]);
            && s'.subs.Keys == s.subs.Keys && s'.apps == s.apps
            && (s'.world, s'.subs[id]) == StepSubmission(cfg, s.world, id, s.subs[id], c)
  {
    RunOneMore(cfg, moves, RunSubmission(id, c));
  }

  lemma ApprovalMove(cfg: Settings, moves: seq<Move>, tid: nat, c: Choice)
    requires tid in Run(cfg, moves).apps && !Run(cfg, moves).apps[tid].Over?
    ensures var s, s' := Run(cfg, moves), Run(cfg, moves + [RunApproval(tid, c)]);
            && s'.apps.Keys == s.apps.Keys && s'.subs == s.subs
            && (s'.world, s'.apps[tid]) == StepApproval(cfg, s.world, tid, s.apps[tid], c)
  {
    RunOneMore(cfg, moves, RunApproval(tid, c));
  }

  /** The way of a submission up to its query to OPA, and up to the statement between its enqueue and its audit call. */
  function WayToOpa(id: string, body: (string, string, string, Members), c: Choice): seq<Move> {
    var go := RunSubmission(id, c);
    [Submit(id, body.0, body.1, body.2, body.3)] + [go] + [go] + [go]
  }

  function WayToQueue(id: string, body: (string, string, string, Members), c: Choice): seq<Move> {
    var go := RunSubmission(id, c);
    WayToOpa(id, body, c) + [go] + [go]
  }

  lemma ReachesOpa(cfg: Settings, id: string, body: (string, string, string, Members), c: Choice)
    requires c.token.Some?
    ensures var s := Run(cfg, WayToOpa(id, body, c));
            && s.subs.Keys == {id} && s.subs[id].AwaitingOpa? && s.apps == map[]
            && s.subs[id].ctx.risk == Scorer.Assess(cfg, body.0, body.1, body.2, body.3)
            && s.world.queue == [] && s.world.audit == []
  {
    var m, go := Submit(id, body.0, body.1, body.2, body.3), RunSubmission(id, c);
    RunOneMore(cfg, [], m);
    assert [] + [m] == [m];
    assert Run(cfg, [m]).subs.Keys == {id};
    SubmissionMove(cfg, [m], id, c);
    SubmissionMove(cfg, [m] + [go], id, c);
    SubmissionMove(cfg, [m] + [go] + [go], id, c);
  }

  lemma RuledHigh(cfg: Settings, moves: seq<Move>, id: string, c: Choice)
    requires var s := Run(cfg, moves); id in s.subs && s.subs[id].AwaitingOpa?
    requires Allows(cfg, c.reply)
    ensures var s, s' := Run(cfg, moves), Run(cfg, moves + [RunSubmission(id, c)]);
            && s'.subs.Keys == s.subs.Keys && s'.apps == s.apps
            && s'.subs[id].Ruled? && s'.subs[id].allowed && s'.subs[id].ctx == s.subs[id].ctx
            && s'.world.queue == s.world.queue && s'.world.audit == s.world.audit
  {
    SubmissionMove(cfg, moves, id, c);
  }

  lemma ReachesQueue(cfg: Settings, id: string, body: (string, string, string, Members), c: Choice)
    requires c.token.Some? && Allows(cfg, c.reply)
    requires Scorer.Assess(cfg, body.0, body.1, body.2, body.3).level == Scorer.HIGH
    ensures var s := Run(cfg, WayToQueue(id, body, c));
            && s.subs.Keys == {id} && s.subs[id].InQueue? && s.apps == map[] && s.world.audit == []
            && s.world.queue == [PendingOf(id, s.subs[id].ctx, c.queuedAt)]
  {
    var way, go := WayToOpa(id, body, c), RunSubmission(id, c);
    ReachesOpa(cfg, id, body, c);
    RuledHigh(cfg, way, id, c);
    SubmissionMove(cfg, way + [go], id, c);
  }

  /** An approval that arrives there and runs to its end. */
  function Decide(id: string, tid: nat, approved: bool, c: Choice): seq<Move> {
    var go := RunApproval(tid, c);
    [Approve(tid, id, approved, "")] + [go] + [go] + [go] + [go]
  }

  function HumanDecision(approved: bool): string {
    if approved then HUMAN_ALLOW else HUMAN_DENY
  }

  lemma ApprovalPops(cfg: Settings, way: seq<Move>, id: string, tid: nat, approved: bool, c: Choice)
    requires var s := Run(cfg, way);
             && s.apps == map[] && s.world.audit == []
             && |s.world.queue| == 1 && s.world.queue[0].requestId == id
    requires c.token.Some?
    ensures var go := RunApproval(tid, c); var s := Run(cfg, way);
            var s' := Run(cfg, way + [Approve(tid, id, approved, "")] + [go] + [go]);
            && s'.subs == s.subs && s'.world.audit == []
            && tid in s'.apps && s'.apps[tid].Holding? && s'.apps[tid].approved == approved
            && s'.apps[tid].pending.requestId == id
  {
    var a, go := Approve(tid, id, approved, ""), RunApproval(tid, c);
    RunOneMore(cfg, way, a);
    ApprovalMove(cfg, way + [a], tid, c);
    ApprovalMove(cfg, way + [a] + [go], tid, c);
  }

  lemma ApprovalEnds(cfg: Settings, moves: seq<Move>, tid: nat, c: Choice)
    requires var s := Run(cfg, moves); tid in s.apps && s.apps[tid].Holding? && s.world.audit == []
    requires c.canOpen && c.env.config.Missing?
    ensures var go := RunApproval(tid, c); var s := Run(cfg, moves);
            var s', f := Run(cfg, moves + [go] + [go]), s.apps[tid];
            && s'.subs == s.subs
            && |s'.world.audit| == 1 && s'.world.audit[0].requestId == f.pending.requestId
            && s'.world.audit[0].decision == HumanDecision(f.approved)
  {
    var go := RunApproval(tid, c);
    ApprovalMove(cfg, moves, tid, c);
    RunOneMore(cfg, moves + [go], go);
  }

  lemma DecideInSteps(way: seq<Move>, id: string, tid: nat, approved: bool, c: Choice)
    ensures var a, go := Approve(tid, id, approved, ""), RunApproval(tid, c);
            way + Decide(id, tid, approved, c) == way + [a] + [go] + [go] + [go] + [go]
  {
  }

  lemma DecisionRuns(cfg: Settings, way: seq<Move>, id: string, tid: nat, approved: bool, c: Choice)
    requires var s := Run(cfg, way);
             && s.apps == map[] && s.world.audit == []
             && |s.world.queue| == 1 && s.world.queue[0].requestId == id
    requires c.token.Some? && c.canOpen && c.env.config.Missing?
    ensures var s, s' := Run(cfg, way), Run(cfg, way + Decide(id, tid, approved, c));
            && s'.subs == s.subs
            && |s'.world.audit| == 1 && s'.world.audit[0].requestId == id
            && s'.world.audit[0].decision == HumanDecision(approved)
  {
    var a, go := Approve(tid, id, approved, ""), RunApproval(tid, c);
    ApprovalPops(cfg, way, id, tid, approved, c);
    ApprovalEnds(cfg, way + [a] + [go] + [go], tid, c);
    DecideInSteps(way, id, tid, approved, c);
  }

  lemma PendingNoteRuns(cfg: Settings, moves: seq<Move>, id: string, c: Choice)
    requires var s := Run(cfg, moves); id in s.subs && s.subs[id].InQueue? && |s.world.audit| == 1
    requires c.canOpen
    ensures var s, s' := Run(cfg, moves), Run(cfg, moves + [RunSubmission(id, c)]);
            && |s'.world.audit| == 2 && s'.world.audit[0] == s.world.audit[0]
            && s'.world.audit[1].requestId == id && s'.world.audit[1].decision == PENDING
  {
    SubmissionMove(cfg, moves, id, c);
  }

  lemma LogOfOne(log: seq<Record>, id: string)
    requires |log| == 1 && log[0].requestId == id
    ensures LogOf(log, id) == [log[0].decision]
  {
    assert log[..0] == [];
  }

  lemma LogOfTwo(log: seq<Record>, id: string)
    requires |log| == 2 && log[0].requestId == id && log[1].requestId == id
    ensures LogOf(log, id) == [log[0].decision, log[1].decision]
  {
    LogOfOne(log[..1], id);
  }

  /** For every high-risk request that OPA allows, and for either choice of the approver, there is an interleaving of
      statements in which its log reads the approver's word alone, and then that word before pending-approval. So each
      of the four words occurs: the order of the log rests on the event loop, not on the locks. */
  lemma OvertakingPossible(cfg: Settings, id: string, body: (string, string, string, Members), c: Choice, tid: nat,
                           approved: bool)
    requires c.token.Some? && c.canOpen && c.env.config.Missing? && Allows(cfg, c.reply)
    requires Scorer.Assess(cfg, body.0, body.1, body.2, body.3).level == Scorer.HIGH
    ensures var moves := WayToQueue(id, body, c) + Decide(id, tid, approved, c);
            && LogOf(Run(cfg, moves).world.audit, id) == [HumanDecision(approved)]
            && LogOf(Run(cfg, moves + [RunSubmission(id, c)]).world.audit, id) == [HumanDecision(approved), PENDING]
  {
    var way := WayToQueue(id, body, c);
    ReachesQueue(cfg, id, body, c);
    DecisionRuns(cfg, way, id, tid, approved, c);
    LogOfOne(Run(cfg, way + Decide(id, tid, approved, c)).world.audit, id);
    PendingNoteRuns(cfg, way + Decide(id, tid, approved, c), id, c);
    LogOfTwo(Run(cfg, way + Decide(id, tid, approved, c) + [RunSubmission(id, c)]).world.audit, id);
  }
}
