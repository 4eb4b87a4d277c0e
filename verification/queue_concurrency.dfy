/** The queue's methods called from many threads at once: every statement inside a method is a separate step, and
    only the lock of app/approval/queue.py orders them. */
module QueueConcurrency {
  import opened JsonValues
  import opened ApprovalQueues
  import opened Traces

  /** Where one call stands. `seen` is the list a `list_pending` has built so far; `done` is set once the body ran. */
  datatype Phase =
    | Calling(op: Op)
    | Inside(op: Op, seen: Contents, done: Option<Result>)
    | Leaving(op: Op, result: Result)
    | Returned(op: Op, result: Result)

  /** `Point` marks the release of the lock. */
  datatype Event = Invoke(op: Op) | Point(op: Op, result: Result) | Return(op: Op, result: Result)

  type History = seq<(nat, Event)>

  datatype State = State(calls: map<nat, Phase>, lock: Option<nat>, queue: Contents, history: History)

  const INITIAL := State(map[], None, [], [])

  /** A call is identified by a number of its own. */
  datatype Move = Begin(t: nat, op: Op) | Enter(t: nat) | Read(t: nat) | Act(t: nat) | Leave(t: nat) | Finish(t: nat)

  predicate BodyReady(s: State, p: Phase) {
    p.Inside? && p.done.None? && (p.op.List? ==> |p.seen| >= |s.queue|)
  }

  predicate Enabled(s: State, m: Move) {
    if m.Begin? then m.t !in s.calls
    else
      m.t in s.calls &&
      var p := s.calls[m.t];
      match m
      case Enter(_) => p.Calling? && s.lock == None
      case Read(_) => p.Inside? && p.done.None? && p.op.List? && |p.seen| < |s.queue|
      case Act(_) => BodyReady(s, p)
      case Leave(_) => p.Inside? && p.done.Some?
      case Finish(_) => p.Leaving?
  }

  /** One statement of one call. */
  function Step(s: State, m: Move): State
    requires Enabled(s, m)
  {
    match m
    case Begin(t, op) => s.(calls := s.calls[t := Calling(op)], history := s.history + [(t, Invoke(op))])
    case Enter(t) => s.(calls := s.calls[t := Inside(s.calls[t].op, [], None)], lock := Some(t))
    case Read(t) =>
      var p := s.calls[t];
      s.(calls := s.calls[t := Inside(p.op, p.seen + [s.queue[|p.seen|]], None)])
    case Act(t) =>
      var p := s.calls[t];
      var result := if p.op.List? then Listed(p.seen) else Answer(s.queue, p.op);
      s.(calls := s.calls[t := Inside(p.op, p.seen, Some(result))], queue := Effect(s.queue, p.op))
    case Leave(t) =>
      var p := s.calls[t];
      s.(calls := s.calls[t := Leaving(p.op, p.done.value)], lock := None,
         history := s.history + [(t, Point(p.op, p.done.value))])
    case Finish(t) =>
      var p := s.calls[t];
      s.(calls := s.calls[t := Returned(p.op, p.result)], history := s.history + [(t, Return(p.op, p.result))])
  }

  /** The state after any interleaving; a move that is not enabled changes nothing. */
  function Run(moves: seq<Move>): State {
    if moves == [] then INITIAL else
      var s, m := Run(moves[..|moves| - 1]), moves[|moves| - 1];
      if Enabled(s, m) then Step(s, m) else s
  }

  // ----- The sequential witness -----

  /** The operations in the order in which the lock was released. */
  function PointOps(h: History): seq<Op> {
    if h == [] then [] else
      var last := h[|h| - 1].1;
      PointOps(h[..|h| - 1]) + (if last.Point? then [last.op] else [])
  }

  /** Every recorded result is what the sequential queue answers at that point. */
  predicate Legal(h: History) {
    h == [] ||
    var front, last := h[..|h| - 1], h[|h| - 1].1;
    Legal(front) && (last.Point? ==> last.result == Answer(Replay(PointOps(front)), last.op))
  }

  /** The events of one call, by its phase. */
  function Expected(s: State, t: nat): seq<Event> {
    if t !in s.calls then [] else
      match s.calls[t]
      case Calling(op) => [Invoke(op)]
      case Inside(op, _, _) => [Invoke(op)]
      case Leaving(op, res) => [Invoke(op), Point(op, res)]
      case Returned(op, res) => [Invoke(op), Point(op, res), Return(op, res)]
  }

  /** What holds of the shared dict while a call is inside, relative to the sequential queue. */
  ghost predicate Protected(s: State) {
    var q := Replay(PointOps(s.history));
    match s.lock
    case None => s.queue == q
    case Some(t) =>
      && t in s.calls && s.calls[t].Inside?
      && var p := s.calls[t];
         if p.done.None? then s.queue == q && p.seen <= q
         else s.queue == Effect(q, p.op) && p.done.value == Answer(q, p.op)
  }

  ghost predicate Inv(s: State) {
    && (forall t :: t in s.calls && s.calls[t].Inside? ==> s.lock == Some(t))
    && Protected(s)
    && Legal(s.history)
    && (forall t :: Word(s.history, t) == Expected(s, t))
  }

  lemma HistoryGrows(h: History, t: nat, e: Event)
    ensures PointOps(h + [(t, e)]) == PointOps(h) + (if e.Point? then [e.op] else [])
    ensures Legal(h + [(t, e)]) <==> Legal(h) && (e.Point? ==> e.result == Answer(Replay(PointOps(h)), e.op))
  {
    assert (h + [(t, e)])[..|h|] == h;
  }

  lemma WordsFollow(s: State, s': State, t: nat, e: Event)
    requires forall u :: Word(s.history, u) == Expected(s, u)
    requires s'.history == s.history + [(t, e)] && Expected(s', t) == Expected(s, t) + [e]
    requires forall u :: u != t ==> Expected(s', u) == Expected(s, u)
    ensures forall u :: Word(s'.history, u) == Expected(s', u)
  {
    forall u
      ensures Word(s'.history, u) == Expected(s', u)
    {
      WordAppend(s.history, t, e, u);
    }
  }

  lemma BodyMeetsSpec(s: State, t: nat)
    requires Inv(s) && Enabled(s, Act(t))
    ensures Protected(Step(s, Act(t)))
  {
    var p := s.calls[t];
    if p.op.List? {
      assert p.seen == s.queue;
    }
  }

  lemma WordsStay(s: State, s': State, t: nat)
    requires forall u :: Word(s.history, u) == Expected(s, u)
    requires s'.history == s.history && Expected(s', t) == Expected(s, t)
    requires forall u :: u != t ==> Expected(s', u) == Expected(s, u)
    ensures forall u :: Word(s'.history, u) == Expected(s', u)
  {
  }

  lemma BeginKeepsInv(s: State, t: nat, op: Op)
    requires Inv(s) && Enabled(s, Begin(t, op))
    ensures Inv(Step(s, Begin(t, op)))
  {
    var s' := Step(s, Begin(t, op));
    HistoryGrows(s.history, t, Invoke(op));
    assert PointOps(s.history) + [] == PointOps(s.history);
    assert forall u :: u != t ==> Expected(s', u) == Expected(s, u);
    WordsFollow(s, s', t, Invoke(op));
  }

  lemma InsideKeepsInv(s: State, m: Move)
    requires Inv(s) && Enabled(s, m) && (m.Enter? || m.Read? || m.Act?)
    ensures Inv(Step(s, m))
  {
    var s' := Step(s, m);
    WordsStay(s, s', m.t);
    if m.Act? {
      BodyMeetsSpec(s, m.t);
    }
    assert Protected(s');
  }

  lemma LeaveIsLegal(s: State, t: nat)
    requires Inv(s) && Enabled(s, Leave(t))
    ensures var s' := Step(s, Leave(t)); Protected(s') && Legal(s'.history)
  {
    var p, ops := s.calls[t], PointOps(s.history);
    HistoryGrows(s.history, t, Point(p.op, p.done.value));
    ReplayMore(ops, p.op);
  }

  lemma ReplayMore(ops: seq<Op>, op: Op)
    ensures Replay(ops + [op]) == Effect(Replay(ops), op)
  {
    assert (ops + [op])[..|ops|] == ops;
  }

  lemma LeaveKeepsInv(s: State, t: nat)
    requires Inv(s) && Enabled(s, Leave(t))
    ensures Inv(Step(s, Leave(t)))
  {
    var s', p := Step(s, Leave(t)), s.calls[t];
    LeaveIsLegal(s, t);
    assert forall u :: u != t ==> Expected(s', u) == Expected(s, u);
    WordsFollow(s, s', t, Point(p.op, p.done.value));
  }

  lemma FinishKeepsInv(s: State, t: nat)
    requires Inv(s) && Enabled(s, Finish(t))
    ensures Inv(Step(s, Finish(t)))
  {
    var s', p := Step(s, Finish(t)), s.calls[t];
    HistoryGrows(s.history, t, Return(p.op, p.result));
    assert PointOps(s.history) + [] == PointOps(s.history);
    assert forall u :: u != t ==> Expected(s', u) == Expected(s, u);
    WordsFollow(s, s', t, Return(p.op, p.result));
  }

  lemma StepKeepsInv(s: State, m: Move)
    requires Inv(s) && Enabled(s, m)
    ensures Inv(Step(s, m))
  {
    match m
    case Begin(t, op) => BeginKeepsInv(s, t, op);
    case Leave(t) => LeaveKeepsInv(s, t);
    case Finish(t) => FinishKeepsInv(s, t);
    case _ => InsideKeepsInv(s, m);
  }

  lemma {:induction false} RunKeepsInv(moves: seq<Move>)
    ensures Inv(Run(moves))
  {
    if moves == [] {
    } else {
      var s, m := Run(moves[..|moves| - 1]), moves[|moves| - 1];
      RunKeepsInv(moves[..|moves| - 1]);
      if Enabled(s, m) {
        StepKeepsInv(s, m);
      }
    }
  }

  // ----- Linearizability -----

  /** An event of a call is preceded by all earlier events of that call and by nothing else of it. */
  lemma BeforeEvent(moves: seq<Move>, p: nat)
    requires p < |Run(moves).history|
    ensures var h := Run(moves).history;
            var past := Word(h[..p], h[p].0);
            && (h[p].1.Invoke? ==> past == [])
            && (h[p].1.Point? ==> past == [Invoke(h[p].1.op)])
            && (h[p].1.Return? ==> past == [Invoke(h[p].1.op), Point(h[p].1.op, h[p].1.result)])
  {
    RunKeepsInv(moves);
    var s := Run(moves);
    var t := s.history[p].0;
    WordAt(s.history, p);
    ExpectedShape(s, t, Word(s.history[..p], t), s.history[p].1);
  }

  lemma ExpectedShape(s: State, t: nat, past: seq<Event>, e: Event)
    requires past + [e] <= Expected(s, t)
    ensures e.Invoke? ==> past == []
    ensures e.Point? ==> past == [Invoke(e.op)]
    ensures e.Return? ==> past == [Invoke(e.op), Point(e.op, e.result)]
  {
    var all := Expected(s, t);
    assert past == all[..|past|] && e == all[|past|];
  }

  /** Of two events of one call, the one that comes later in the call comes later in the history. */
  lemma CallOrder(moves: seq<Move>, i: nat, p: nat)
    requires i < |Run(moves).history| && p < |Run(moves).history|
    requires var h := Run(moves).history;
             && h[i].0 == h[p].0 && h[p].1.Point?
    ensures Run(moves).history[i].1.Invoke? ==> i < p
    ensures Run(moves).history[i].1.Return? ==> p < i
  {
    var h := Run(moves).history;
    BeforeEvent(moves, i);
    BeforeEvent(moves, p);
    if h[i].1.Invoke? && p < i {
      WordHas(h[..i], p);
      assert false;
    }
    if h[i].1.Return? && i < p {
      WordHas(h[..p], i);
      assert false;
    }
  }

  /** Whatever the interleaving, releasing the lock orders the calls into a run of the sequential queue that
      explains every result, and a call that returned before another was made is ordered before it. */
  lemma Linearizable(moves: seq<Move>)
    ensures Legal(Run(moves).history)
    ensures Run(moves).lock == None ==> Run(moves).queue == Replay(PointOps(Run(moves).history))
    ensures forall i, j, p, r ::
              && 0 <= i < j < |Run(moves).history|
              && 0 <= p < |Run(moves).history| && 0 <= r < |Run(moves).history|
              && Run(moves).history[i].1.Return? && Run(moves).history[j].1.Invoke?
              && Run(moves).history[p].1.Point? && Run(moves).history[p].0 == Run(moves).history[i].0
              && Run(moves).history[r].1.Point? && Run(moves).history[r].0 == Run(moves).history[j].0
              ==> p < r
  {
    RunKeepsInv(moves);
    var h := Run(moves).history;
    forall i, j, p, r |
      && 0 <= i < j < |h| && 0 <= p < |h| && 0 <= r < |h|
      && h[i].1.Return? && h[j].1.Invoke?
      && h[p].1.Point? && h[p].0 == h[i].0 && h[r].1.Point? && h[r].0 == h[j].0
      ensures p < r
    {
      CallOrder(moves, i, p);
      CallOrder(moves, j, r);
    }
  }

  /** A finished call returned what it was given at its point. */
  lemma ReturnsItsPoint(moves: seq<Move>, i: nat)
    requires i < |Run(moves).history| && Run(moves).history[i].1.Return?
    ensures var h := Run(moves).history;
            (h[i].0, Point(h[i].1.op, h[i].1.result)) in h[..i]
  {
    var h := Run(moves).history;
    BeforeEvent(moves, i);
    assert Word(h[..i], h[i].0)[1] == Point(h[i].1.op, h[i].1.result);
    WordOnlyOf(h[..i], h[i].0, Point(h[i].1.op, h[i].1.result));
  }

  /** However many calls race to resolve one fresh id, at most one is handed the request. */
  lemma AtMostOneResolve(moves: seq<Move>)
    requires FreshIds(PointOps(Run(moves).history))
    ensures NoRepeats(HandedOut(PointOps(Run(moves).history)))
    ensures Run(moves).lock == None ==>
              var ops := PointOps(Run(moves).history);
              Run(moves).queue == Keep(EnqueuedBy(ops), HandedOut(ops))
  {
    RunKeepsInv(moves);
    QueueIsOrderedRemainder(PointOps(Run(moves).history));
  }
}
