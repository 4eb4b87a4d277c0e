/** No request is lost or counted twice: in every reachable state the submissions are split by what their events say
    happened to them, and the queue is exactly the part that waits. */
module Conservation {
  import opened JsonValues
  import opened ApprovalQueues
  import opened Lifecycle
  import opened Traces
  import opened Gateway
  import opened Safety

  /** `BeingResolved`: approved, but the execution has not ended yet. `OpaFailed`: OPA's 2xx body made the handler
      raise. */
  datatype Stage =
    | InFlight
    | NotAuthenticated
    | OpaFailed
    | DeniedByPolicy
    | ExecutedDirectly
    | RaisedDirectly
    | Pending
    | BeingResolved
    | HumanDenied
    | ApprovedAndExecuted
    | ApprovedButRaised

  const QUEUED_STAGES: set<Stage> := {Pending, BeingResolved, HumanDenied, ApprovedAndExecuted, ApprovedButRaised}

  const OTHER_STAGES: set<Stage> :=
    {InFlight, NotAuthenticated, OpaFailed, DeniedByPolicy, ExecutedDirectly, RaisedDirectly}

  /** What the deeds of a request say became of it. */
  function StageOf(cfg: Settings, deeds: seq<Event>): Stage {
    if deeds == [] then InFlight
    else
      var last := deeds[|deeds| - 1];
      match last
      case Rejected => NotAuthenticated
      case Answered(_, reply) =>
        if Interpret(cfg, reply).HandlerRaises? then OpaFailed
        else if Allows(cfg, reply) then InFlight
        else DeniedByPolicy
      case Enqueued(_, _) => Pending
      case Popped(_, _, approved) => if approved then BeingResolved else HumanDenied
      case Attempt(actor, _, _, _, _, _, outcome) =>
        if actor.Submitter? then (if Raises(outcome) then RaisedDirectly else ExecutedDirectly)
        else (if Raises(outcome) then ApprovedButRaised else ApprovedAndExecuted)
      case _ => InFlight
  }

  ghost function StageAt(cfg: Settings, s: Sys, id: string): Stage {
    StageOf(cfg, Deeds(Word(s.world.trace, id)))
  }

  ghost function Stages(cfg: Settings, s: Sys): map<string, Stage> {
    map id | id in s.subs :: StageAt(cfg, s, id)
  }

  ghost function Ids(m: map<string, Stage>, stage: Stage): set<string> {
    set id | id in m && m[id] == stage
  }

  ghost function IdsIn(m: map<string, Stage>, stages: set<Stage>): set<string> {
    set id | id in m && m[id] in stages
  }

  lemma OneMoreStage(m: map<string, Stage>, stages: set<Stage>, stage: Stage)
    requires stage !in stages
    ensures |IdsIn(m, stages + {stage})| == |IdsIn(m, stages)| + |Ids(m, stage)|
  {
    assert IdsIn(m, stages + {stage}) == IdsIn(m, stages) + Ids(m, stage);
    assert IdsIn(m, stages) !! Ids(m, stage);
  }

  // ----- The queue is the pending part -----

  ghost function QueueIds(q: Contents): set<string> {
    set p | p in q :: p.requestId
  }

  lemma {:induction false} QueueCount(q: Contents)
    requires DistinctIds(q)
    ensures |QueueIds(q)| == |q|
  {
    if q == [] {
    } else {
      var front, last := q[..|q| - 1], q[|q| - 1];
      assert q == front + [last];
      QueueCount(front);
      assert QueueIds(q) == QueueIds(front) + {last.requestId};
      assert last.requestId !in QueueIds(front);
    }
  }

  predicate ReachedQueue(stage: Stage) {
    stage.Pending? || stage.BeingResolved? || stage.HumanDenied? || stage.ApprovedAndExecuted?
    || stage.ApprovedButRaised?
  }

  lemma TwoParts(stage: Stage)
    ensures stage in QUEUED_STAGES <==> ReachedQueue(stage)
    ensures stage in OTHER_STAGES <==> !ReachedQueue(stage)
  {
  }

  /** The life of a request and the stage its deeds say. */
  lemma StageOfLife(cfg: Settings, id: string, life: Life, deeds: seq<Event>)
    requires DeedsOf(cfg, id, life, deeds)
    ensures StageOf(cfg, deeds) == Pending <==> life.Held? && life.res.Open?
    ensures ReachedQueue(StageOf(cfg, deeds)) <==> life.Held?
    ensures life.Held? <==> |deeds| > 3 && deeds[3].Enqueued?
  {
    if life.Held? {
      HeldStage(cfg, id, life, deeds);
    } else {
      EarlyStage(cfg, id, life, deeds);
    }
  }

  lemma HeldStage(cfg: Settings, id: string, life: Life, deeds: seq<Event>)
    requires DeedsOf(cfg, id, life, deeds) && life.Held?
    ensures StageOf(cfg, deeds) == Pending <==> life.res.Open?
    ensures ReachedQueue(StageOf(cfg, deeds)) && |deeds| > 3 && deeds[3].Enqueued?
  {
  }

  lemma UnansweredStage(cfg: Settings, id: string, life: Life, deeds: seq<Event>)
    requires DeedsOf(cfg, id, life, deeds) && (life.Unborn? || life.Unauthorized? || life.Known? || life.Asked?)
    ensures !ReachedQueue(StageOf(cfg, deeds)) && |deeds| < 3
  {
  }

  lemma AnsweredStage(cfg: Settings, deeds: seq<Event>, snap: Snap)
    requires |deeds| == 3 && AnsweredFor(deeds, snap)
    ensures !ReachedQueue(StageOf(cfg, deeds))
  {
  }

  lemma RunStage(cfg: Settings, deeds: seq<Event>, snap: Snap)
    requires OneRun(cfg, deeds, snap)
    ensures !ReachedQueue(StageOf(cfg, deeds)) && !deeds[3].Enqueued?
  {
  }

  lemma EarlyStage(cfg: Settings, id: string, life: Life, deeds: seq<Event>)
    requires DeedsOf(cfg, id, life, deeds) && !life.Held?
    ensures !ReachedQueue(StageOf(cfg, deeds)) && !(|deeds| > 3 && deeds[3].Enqueued?)
  {
    if life.Unborn? || life.Unauthorized? || life.Known? || life.Asked? {
      UnansweredStage(cfg, id, life, deeds);
    } else if life.Ran? || life.Failed? || (life.Closed? && life.decision == ALLOW) {
      RunStage(cfg, deeds, life.snap);
    } else {
      AnsweredStage(cfg, deeds, life.snap);
    }
  }

  lemma LifeAndStage(cfg: Settings, s: Sys, id: string)
    requires Inv(cfg, s)
    ensures LifeAt(cfg, s.world, id).Some?
    ensures var life, stage := LifeAt(cfg, s.world, id).value, StageAt(cfg, s, id);
            && (stage == Pending <==> life.Held? && life.res.Open?)
            && (ReachedQueue(stage) <==> life.Held?)
            && (life.Held? ==> id in s.subs)
  {
    assert SubOk(cfg, s, id);
    LawfulDeeds(cfg, id, Word(s.world.trace, id));
    StageOfLife(cfg, id, LifeAt(cfg, s.world, id).value, Deeds(Word(s.world.trace, id)));
  }

  /** The ids that were ever enqueued. */
  ghost function EverEnqueued(s: Sys): set<string> {
    set id | id in s.subs && exists e :: e in Word(s.world.trace, id) && e.Enqueued?
  }

  lemma EnqueueIsFourth(cfg: Settings, id: string, h: seq<Event>)
    requires Lawful(cfg, id, h)
    ensures (exists e :: e in h && e.Enqueued?) <==> |Deeds(h)| > 3 && Deeds(h)[3].Enqueued?
  {
    var d := Deeds(h);
    LawfulShape(cfg, id, h);
    if |d| > 3 && d[3].Enqueued? {
      DeedInHistory(h, d[3]);
    }
    if e :| e in h && e.Enqueued? {
      DeedsHold(h, e);
      EnqueueIndex(cfg, d, IndexIn(d, e));
    }
  }

  lemma EnqueueIndex(cfg: Settings, d: seq<Event>, i: nat)
    requires Shaped(cfg, d) && i < |d| && d[i].Enqueued?
    ensures i == 3
  {
  }

  lemma EnqueuedMeansReached(cfg: Settings, s: Sys, id: string)
    requires Inv(cfg, s)
    ensures ReachedQueue(StageAt(cfg, s, id)) <==> exists e :: e in Word(s.world.trace, id) && e.Enqueued?
  {
    assert SubOk(cfg, s, id);
    var h := Word(s.world.trace, id);
    LawfulDeeds(cfg, id, h);
    StageOfLife(cfg, id, LifeAt(cfg, s.world, id).value, Deeds(h));
    EnqueueIsFourth(cfg, id, h);
  }

  lemma {:induction false} DeedInHistory(h: seq<Event>, x: Event)
    requires x in Deeds(h)
    ensures x in h
  {
    var front := h[..|h| - 1];
    assert h == front + [h[|h| - 1]];
    if x in Deeds(front) {
      DeedInHistory(front, x);
    }
  }

  /** In every reachable state of every run: the ids in the queue are the pending ones; every id ever enqueued is
      pending, being resolved, denied by a human, executed on approval or raised on approval, each counted once; and
      the submissions are those plus the ones that never reached the queue. */
  lemma Conserved(cfg: Settings, moves: seq<Move>)
    ensures var s := Run(cfg, moves); var m := Stages(cfg, s);
            && QueueIds(s.world.queue) == Ids(m, Pending)
            && |s.world.queue| == |Ids(m, Pending)|
            && |EverEnqueued(s)| == |s.world.queue| + |Ids(m, BeingResolved)| + |Ids(m, HumanDenied)|
                                    + |Ids(m, ApprovedAndExecuted)| + |Ids(m, ApprovedButRaised)|
            && |s.subs.Keys| == |EverEnqueued(s)| + |Ids(m, InFlight)| + |Ids(m, NotAuthenticated)|
                                + |Ids(m, OpaFailed)| + |Ids(m, DeniedByPolicy)| + |Ids(m, ExecutedDirectly)|
                                + |Ids(m, RaisedDirectly)|
  {
    var s := Run(cfg, moves);
    RunKeepsInv(cfg, moves);
    var m := Stages(cfg, s);
    PendingIsQueue(cfg, s);
    EnqueuedAreStaged(cfg, s);
    FiveStages(m);
    SixStages(m);
    Halves(m);
    assert m.Keys == s.subs.Keys;
  }

  lemma Halves(m: map<string, Stage>)
    ensures |m.Keys| == |IdsIn(m, QUEUED_STAGES)| + |IdsIn(m, OTHER_STAGES)|
  {
    var q, o := IdsIn(m, QUEUED_STAGES), IdsIn(m, OTHER_STAGES);
    forall id | id in m
      ensures id in q <==> id !in o
    {
      TwoParts(m[id]);
    }
    assert m.Keys == q + o;
    assert q !! o;
  }

  lemma PendingIsQueue(cfg: Settings, s: Sys)
    requires Inv(cfg, s)
    ensures QueueIds(s.world.queue) == Ids(Stages(cfg, s), Pending)
    ensures |s.world.queue| == |QueueIds(s.world.queue)|
  {
    var q := s.world.queue;
    QueueCount(q);
    forall id
      ensures id in QueueIds(q) <==> id in Ids(Stages(cfg, s), Pending)
    {
      LifeAndStage(cfg, s, id);
      if id in QueueIds(q) {
        var p :| p in q && p.requestId == id;
        assert HeldAs(cfg, s.world, p, Open);
      }
      if id in Ids(Stages(cfg, s), Pending) {
        assert ResOk(cfg, s, id);
        var i :| 0 <= i < |q| && q[i].requestId == id;
        assert q[i] in q;
      }
    }
  }

  lemma EnqueuedAreStaged(cfg: Settings, s: Sys)
    requires Inv(cfg, s)
    ensures EverEnqueued(s) == IdsIn(Stages(cfg, s), QUEUED_STAGES)
  {
    forall id | id in s.subs
      ensures id in EverEnqueued(s) <==> id in IdsIn(Stages(cfg, s), QUEUED_STAGES)
    {
      EnqueuedMeansReached(cfg, s, id);
      TwoParts(StageAt(cfg, s, id));
    }
  }

  lemma FiveStages(m: map<string, Stage>)
    ensures |IdsIn(m, QUEUED_STAGES)| ==
              |Ids(m, Pending)| + |Ids(m, BeingResolved)| + |Ids(m, HumanDenied)|
              + |Ids(m, ApprovedAndExecuted)| + |Ids(m, ApprovedButRaised)|
  {
    assert IdsIn(m, {}) == {};
    OneMoreStage(m, {}, Pending);
    OneMoreStage(m, {} + {Pending}, BeingResolved);
    OneMoreStage(m, {} + {Pending} + {BeingResolved}, HumanDenied);
    OneMoreStage(m, {} + {Pending} + {BeingResolved} + {HumanDenied}, ApprovedAndExecuted);
    OneMoreStage(m, {} + {Pending} + {BeingResolved} + {HumanDenied} + {ApprovedAndExecuted}, ApprovedButRaised);
    assert {} + {Pending} + {BeingResolved} + {HumanDenied} + {ApprovedAndExecuted} + {ApprovedButRaised}
        == QUEUED_STAGES;
  }

  lemma SixStages(m: map<string, Stage>)
    ensures |IdsIn(m, OTHER_STAGES)| ==
              |Ids(m, InFlight)| + |Ids(m, NotAuthenticated)| + |Ids(m, OpaFailed)|
              + |Ids(m, DeniedByPolicy)| + |Ids(m, ExecutedDirectly)| + |Ids(m, RaisedDirectly)|
  {
    assert IdsIn(m, {}) == {};
    OneMoreStage(m, {}, InFlight);
    OneMoreStage(m, {} + {InFlight}, NotAuthenticated);
    OneMoreStage(m, {} + {InFlight} + {NotAuthenticated}, OpaFailed);
    OneMoreStage(m, {} + {InFlight} + {NotAuthenticated} + {OpaFailed}, DeniedByPolicy);
    OneMoreStage(m, {} + {InFlight} + {NotAuthenticated} + {OpaFailed} + {DeniedByPolicy}, ExecutedDirectly);
    OneMoreStage(m, {} + {InFlight} + {NotAuthenticated} + {OpaFailed} + {DeniedByPolicy} + {ExecutedDirectly},
                 RaisedDirectly);
    assert {} + {InFlight} + {NotAuthenticated} + {OpaFailed} + {DeniedByPolicy} + {ExecutedDirectly} + {RaisedDirectly}
        == OTHER_STAGES;
  }
}
