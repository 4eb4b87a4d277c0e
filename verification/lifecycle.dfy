/** What may happen to one request, as a small automaton over the events that carry its id. This is the specification
    of the gateway: the histories it accepts are the only ones a request may have. */
module Lifecycle {
  import opened JsonValues
  import opened AuditLogs
  import opened ApprovalQueues
  import Scorer
  import K8sClient
  import Policy
  import Text

  /** A request by value, as it was scored and sent to OPA. */
  datatype Snap = Snap(
    identity: string,
    role: string,
    action: string,
    resource: string,
    namespace: string,
    params: Members,
    risk: Scorer.RiskScore)

  // ----- What OPA answers -----

  /** A transport error, or a response with a status code and, when the body is JSON, its value. */
  datatype OpaReply = Unreachable | Response(code: int, body: Option<Json>)

  datatype Verdict = Decision(allowed: bool, reason: string) | HandlerRaises

  /** How the gateway reads a reply: every transport or HTTP error is a denial; a 2xx body that is not an object with
      an object under `result` makes the handler raise. */
  function Interpret(cfg: Settings, reply: OpaReply): Verdict {
    match reply
    case Unreachable => Decision(false, "OPA sidecar unreachable \U{2014} failing closed for safety")
    case Response(code, body) =>
      if code < 200 || code >= 300 then
        Decision(false, "OPA returned HTTP " + cfg.strOf(Int(code)) + " \U{2014} failing closed")
      else if body.None? || !body.value.Obj? then HandlerRaises
      else
        var result := GetOr(body.value.members, "result", Obj([]));
        if !result.Obj? then HandlerRaises else
        Decision(
          Truthy(GetOr(result.members, "allow", Bool(false))),
          PyStr(cfg, GetOr(result.members, "reason", Str("OPA decision (no reason provided)"))))
  }

  /** The body of a reply is an object whose `result` is an object; an absent `result` reads as an empty one. */
  function ResultOf(body: Json): Option<Members> {
    if !body.Obj? then None
    else match Get(body.members, "result")
      case None => Some([])
      case Some(result) => if result.Obj? then Some(result.members) else None
  }

  predicate IsSuccess(reply: OpaReply) {
    reply.Response? && 200 <= reply.code < 300
  }

  predicate Allows(cfg: Settings, reply: OpaReply) {
    var v := Interpret(cfg, reply);
    v.Decision? && v.allowed
  }

  /** OPA allows only by a 2xx reply with a truthy `allow`; no other reply, and no failure to reply, allows. The handler
      raises exactly on a 2xx reply without a readable result. */
  lemma FailsClosed(cfg: Settings, reply: OpaReply)
    ensures Allows(cfg, reply) <==>
            && IsSuccess(reply) && reply.body.Some? && ResultOf(reply.body.value).Some?
            && var allow := Get(ResultOf(reply.body.value).value, "allow");
               allow.Some? && Truthy(allow.value)
    ensures Interpret(cfg, reply).HandlerRaises? <==>
            IsSuccess(reply) && (reply.body.None? || ResultOf(reply.body.value).None?)
  {
  }

  /** The reason that is read with a decision: OPA's own where there is one, and a fixed text elsewhere. */
  lemma ReasonRead(cfg: Settings, reply: OpaReply)
    requires Interpret(cfg, reply).Decision?
    ensures var reason := Interpret(cfg, reply).reason;
            if reply.Unreachable? then reason == "OPA sidecar unreachable \U{2014} failing closed for safety"
            else if !IsSuccess(reply) then
              reason == "OPA returned HTTP " + cfg.strOf(Int(reply.code)) + " \U{2014} failing closed"
            else
              match Get(ResultOf(reply.body.value).value, "reason")
              case None => reason == "OPA decision (no reason provided)"
              case Some(Str(text)) => reason == text
              case Some(other) => reason == cfg.strOf(other)
  {
  }

  /** The input document: the three strings are lower-cased, nothing is stripped. */
  function InputOf(snap: Snap): Policy.Input {
    Policy.Input(snap.identity, snap.role, Text.Lower(snap.action), Text.Lower(snap.resource),
                 Text.Lower(snap.namespace), snap.risk.level, snap.params)
  }

  /** What OPA is told: everything as judged, but verb, resource and namespace in lower case. */
  lemma InputTells(snap: Snap)
    ensures var i := InputOf(snap);
            && i.identity == snap.identity && i.role == snap.role
            && i.riskLevel == snap.risk.level && i.params == snap.params
            && Text.NoUpperCase(i.action) && Text.SameUpToCase(snap.action, i.action)
            && Text.NoUpperCase(i.resource) && Text.SameUpToCase(snap.resource, i.resource)
            && Text.NoUpperCase(i.namespace) && Text.SameUpToCase(snap.namespace, i.namespace)
  {
    Text.LowerLowers(snap.action);
    Text.LowerLowers(snap.resource);
    Text.LowerLowers(snap.namespace);
  }

  function RiskOf(cfg: Settings, snap: Snap): Scorer.RiskScore {
    Scorer.Assess(cfg, snap.action, snap.resource, snap.namespace, snap.params)
  }

  // ----- Events -----

  datatype Actor = Submitter | Approver(tid: nat)

  /** The events of one request. `Note` is an audit write; it is not stored when the file cannot be opened. */
  datatype Event =
    | Rejected
    | Authenticated(identity: string, role: string)
    | Judged(snap: Snap, input: Policy.Input)
    | Answered(input: Policy.Input, reply: OpaReply)
    | Enqueued(pending: PendingRequest, snap: Snap)
    | Popped(tid: nat, approver: string, approved: bool)
    | Attempt(actor: Actor, action: string, resource: string, namespace: string, params: Members,
              issued: seq<K8sClient.ApiCall>, outcome: K8sClient.Outcome)
    | Note(record: Record, stored: bool)

  /** An outcome that leaves the handler by an exception, before its audit call. */
  predicate Raises(outcome: K8sClient.Outcome) {
    outcome.ActionError? || outcome.BadRequest? || outcome.Crash?
  }

  const DENY := "deny"
  const ALLOW := "allow"
  const PENDING := "pending-approval"
  const HUMAN_ALLOW := "human-allow"
  const HUMAN_DENY := "human-deny"

  function NoteOf(now: string, id: string, snap: Snap, decision: string, reason: string): Record {
    Record(now, id, snap.identity, snap.role, snap.action, snap.resource, snap.namespace, snap.params,
           snap.risk.level, snap.risk.score, snap.risk.reasons, decision, Some(reason), None)
  }

  /** What the second record of a queued request says before the approver's own comment. */
  function HumanVerdict(cfg: Settings, approved: bool, approver: string): string {
    "Human " + (if approved then "approved" else "denied") + " by " + cfg.reprOf(approver) + ". Reason: "
  }

  function HumanReason(cfg: Settings, approved: bool, approver: string, comment: string): string {
    HumanVerdict(cfg, approved, approver) + (if comment == "" then "none" else comment)
  }

  /** The record is the one for this request, this decision and this explanation. */
  predicate IsNote(r: Record, id: string, snap: Snap, decision: string) {
    r.opaReason.Some? && r == NoteOf(r.timestamp, id, snap, decision, r.opaReason.value)
  }

  /** The record repeats the request: who asked for what, with which parameters and which risk. */
  predicate Repeats(r: Record, snap: Snap) {
    && r.identity == snap.identity
    && r.role == snap.role
    && r.action == snap.action
    && r.resource == snap.resource
    && r.namespace == snap.namespace
    && r.params == snap.params
    && r.riskLevel == snap.risk.level
    && r.riskScore == snap.risk.score
    && r.riskReasons == snap.risk.reasons
    && r.error == None
  }

  lemma NoteRepeats(r: Record, id: string, snap: Snap, decision: string)
    requires IsNote(r, id, snap, decision)
    ensures Repeats(r, snap) && r.requestId == id && r.decision == decision
  {
  }

  /** It names the approver and what the approver chose. */
  predicate IsHumanNote(cfg: Settings, r: Record, id: string, snap: Snap, approved: bool, approver: string) {
    && IsNote(r, id, snap, if approved then HUMAN_ALLOW else HUMAN_DENY)
    && HumanVerdict(cfg, approved, approver) <= r.opaReason.value
  }

  /** The execution uses exactly the judged strings and parameters, and issues what they dispatch to. */
  predicate Faithful(cfg: Settings, snap: Snap, e: Event) {
    && e.Attempt?
    && e.action == snap.action && e.resource == snap.resource && e.namespace == snap.namespace
    && e.params == snap.params
    && (e.issued == [] ||
        var call := K8sClient.CallOf(cfg, snap.action, snap.resource, snap.namespace, snap.params);
        call.Returns? && e.issued == [call.value])
    && (e.outcome in {K8sClient.Success, K8sClient.ActionError} ==> |e.issued| == 1)
    && (e.outcome == K8sClient.Unavailable ==> e.issued == [])
  }

  // ----- The automaton -----

  /** How far the human side of a queued request is. */
  datatype Resolution =
    | Open
    | Taken(tid: nat, approver: string, approved: bool)
    | Executed(tid: nat, approver: string)
    | Resolved(tid: nat, approved: bool)
    | Broken(tid: nat)

  /** `noted`: the pending record's write is over. `overtaken`: the request was taken before that. */
  datatype Life =
    | Unborn
    | Unauthorized
    | Known(identity: string, role: string)
    | Asked(snap: Snap)
    | Aborted(snap: Snap)
    | Barred(snap: Snap, reason: string)
    | Cleared(snap: Snap, reason: string)
    | Ran(snap: Snap, reason: string)
    | Failed(snap: Snap)
    | Closed(snap: Snap, decision: string)
    | Held(snap: Snap, reason: string, noted: bool, res: Resolution, overtaken: bool)

  function Advance(cfg: Settings, id: string, life: Life, e: Event): Option<Life> {
    match life
    case Unborn =>
      if e.Rejected? then Some(Unauthorized)
      else if e.Authenticated? then Some(Known(e.identity, e.role))
      else None
    case Known(identity, role) =>
      if e.Judged? && e.snap.identity == identity && e.snap.role == role
         && e.snap.risk == RiskOf(cfg, e.snap) && e.input == InputOf(e.snap)
      then Some(Asked(e.snap)) else None
    case Asked(snap) =>
      if e.Answered? && e.input == InputOf(snap) then
        match Interpret(cfg, e.reply)
        case HandlerRaises => Some(Aborted(snap))
        case Decision(allowed, reason) => Some(if allowed then Cleared(snap, reason) else Barred(snap, reason))
      else None
    case Barred(snap, reason) =>
      if e.Note? && IsNote(e.record, id, snap, DENY) && e.record.opaReason == Some(reason)
      then Some(Closed(snap, DENY)) else None
    case Cleared(snap, reason) =>
      if e.Enqueued? && snap.risk.level == Scorer.HIGH && e.snap == snap && e.pending.requestId == id
      then Some(Held(snap, reason, false, Open, false))
      else if snap.risk.level != Scorer.HIGH && Faithful(cfg, snap, e) && e.actor.Submitter?
      then Some(if Raises(e.outcome) then Failed(snap) else Ran(snap, reason))
      else None
    case Ran(snap, reason) =>
      if e.Note? && IsNote(e.record, id, snap, ALLOW) && e.record.opaReason == Some(reason)
      then Some(Closed(snap, ALLOW)) else None
    case Held(snap, reason, noted, res, overtaken) => AdvanceHeld(cfg, id, life, e)
    case _ => None
  }

  function AdvanceHeld(cfg: Settings, id: string, life: Life, e: Event): Option<Life>
    requires life.Held?
  {
    var snap := life.snap;
    if e.Note? && e.record.decision == PENDING then
      if !life.noted && IsNote(e.record, id, snap, PENDING) && e.record.opaReason == Some(life.reason)
      then Some(life.(noted := true)) else None
    else match life.res
      case Open =>
        if e.Popped? then Some(life.(res := Taken(e.tid, e.approver, e.approved), overtaken := !life.noted)) else None
      case Taken(tid, approver, approved) =>
        if approved && Faithful(cfg, snap, e) && e.actor == Approver(tid)
        then Some(life.(res := if Raises(e.outcome) then Broken(tid) else Executed(tid, approver)))
        else if !approved && e.Note? && IsHumanNote(cfg, e.record, id, snap, false, approver)
        then Some(life.(res := Resolved(tid, false)))
        else None
      case Executed(tid, approver) =>
        if e.Note? && IsHumanNote(cfg, e.record, id, snap, true, approver)
        then Some(life.(res := Resolved(tid, true))) else None
      case _ => None
  }

  /** The state after a history, `None` when the history is not allowed. */
  function Live(cfg: Settings, id: string, h: seq<Event>): Option<Life> {
    if h == [] then Some(Unborn) else
      match Live(cfg, id, h[..|h| - 1])
      case None => None
      case Some(life) => Advance(cfg, id, life, h[|h| - 1])
  }

  predicate Lawful(cfg: Settings, id: string, h: seq<Event>) {
    Live(cfg, id, h).Some?
  }

  lemma {:induction false} LawfulPrefix(cfg: Settings, id: string, h: seq<Event>, n: nat)
    requires n <= |h| && Lawful(cfg, id, h)
    ensures Lawful(cfg, id, h[..n])
  {
    if n == |h| {
      assert h[..n] == h;
    } else {
      assert h[..|h| - 1][..n] == h[..n];
      LawfulPrefix(cfg, id, h[..|h| - 1], n);
    }
  }

  // ----- What a lawful history looks like -----

  /** The events other than audit writes. */
  function Deeds(h: seq<Event>): seq<Event> {
    if h == [] then [] else
      var last := h[|h| - 1];
      Deeds(h[..|h| - 1]) + (if last.Note? then [] else [last])
  }

  /** The audit writes. */
  function Notes(h: seq<Event>): seq<Event> {
    if h == [] then [] else
      var last := h[|h| - 1];
      Notes(h[..|h| - 1]) + (if last.Note? then [last] else [])
  }

  /** The first three deeds of a request that OPA answered: its token was verified, it was judged, and OPA replied to
      that very input. */
  ghost predicate AnsweredFor(deeds: seq<Event>, snap: Snap) {
    && |deeds| >= 3
    && deeds[0] == Authenticated(snap.identity, snap.role)
    && deeds[1] == Judged(snap, InputOf(snap))
    && deeds[2].Answered? && deeds[2].input == InputOf(snap)
  }

  /** OPA's answer, as the gateway read it. */
  predicate OpaRuled(cfg: Settings, deeds: seq<Event>, allowed: bool, reason: string) {
    |deeds| >= 3 && deeds[2].Answered? && Interpret(cfg, deeds[2].reply) == Decision(allowed, reason)
  }

  ghost predicate ClearedBy(cfg: Settings, deeds: seq<Event>, snap: Snap) {
    AnsweredFor(deeds, snap) && Allows(cfg, deeds[2].reply)
  }

  ghost predicate RefusedBy(cfg: Settings, deeds: seq<Event>, snap: Snap) {
    |deeds| == 3 && AnsweredFor(deeds, snap) && !Allows(cfg, deeds[2].reply)
  }

  ghost predicate QueuedBy(cfg: Settings, deeds: seq<Event>, id: string, snap: Snap) {
    && |deeds| >= 4 && ClearedBy(cfg, deeds, snap)
    && snap.risk.level == Scorer.HIGH
    && deeds[3].Enqueued? && deeds[3].snap == snap && deeds[3].pending.requestId == id
  }

  /** The deeds of each state. */
  ghost predicate DeedsOf(cfg: Settings, id: string, life: Life, deeds: seq<Event>) {
    match life
    case Unborn => deeds == []
    case Unauthorized => deeds == [Rejected]
    case Known(identity, role) => deeds == [Authenticated(identity, role)]
    case Asked(snap) => deeds == [Authenticated(snap.identity, snap.role), Judged(snap, InputOf(snap))]
    case Aborted(snap) => RefusedBy(cfg, deeds, snap) && Interpret(cfg, deeds[2].reply).HandlerRaises?
    case Barred(snap, reason) => RefusedBy(cfg, deeds, snap) && OpaRuled(cfg, deeds, false, reason)
    case Cleared(snap, reason) => |deeds| == 3 && ClearedBy(cfg, deeds, snap) && OpaRuled(cfg, deeds, true, reason)
    case Ran(snap, reason) =>
      OneRun(cfg, deeds, snap) && !Raises(deeds[3].outcome) && OpaRuled(cfg, deeds, true, reason)
    case Failed(snap) => OneRun(cfg, deeds, snap) && Raises(deeds[3].outcome)
    case Closed(snap, decision) =>
      if decision == ALLOW then OneRun(cfg, deeds, snap) && !Raises(deeds[3].outcome)
      else RefusedBy(cfg, deeds, snap) && Interpret(cfg, deeds[2].reply).Decision?
    case Held(snap, reason, _, res, _) =>
      && QueuedBy(cfg, deeds, id, snap) && OpaRuled(cfg, deeds, true, reason)
      && match res
         case Open => |deeds| == 4
         case Taken(tid, approver, approved) => |deeds| == 5 && deeds[4] == Popped(tid, approver, approved)
         case Executed(tid, approver) =>
           ApprovedRun(cfg, deeds, snap, tid) && !Raises(deeds[5].outcome) && deeds[4].approver == approver
         case Resolved(tid, approved) =>
           if approved then ApprovedRun(cfg, deeds, snap, tid) && !Raises(deeds[5].outcome)
           else |deeds| == 5 && deeds[4].Popped? && deeds[4].tid == tid && !deeds[4].approved
         case Broken(tid) => ApprovedRun(cfg, deeds, snap, tid) && Raises(deeds[5].outcome)
  }

  ghost predicate OneRun(cfg: Settings, deeds: seq<Event>, snap: Snap) {
    && |deeds| == 4 && ClearedBy(cfg, deeds, snap)
    && snap.risk.level != Scorer.HIGH
    && Faithful(cfg, snap, deeds[3]) && deeds[3].actor.Submitter?
  }

  ghost predicate ApprovedRun(cfg: Settings, deeds: seq<Event>, snap: Snap, tid: nat) {
    && |deeds| == 6
    && deeds[4].Popped? && deeds[4].tid == tid && deeds[4].approved
    && Faithful(cfg, snap, deeds[5]) && deeds[5].actor == Approver(tid)
  }

  lemma DeedsGrow(h: seq<Event>, e: Event)
    ensures Deeds(h + [e]) == Deeds(h) + (if e.Note? then [] else [e])
    ensures Notes(h + [e]) == Notes(h) + (if e.Note? then [e] else [])
  {
    assert (h + [e])[..|h|] == h;
  }

  lemma HeldDeeds(cfg: Settings, id: string, life: Life, e: Event, deeds: seq<Event>)
    requires life.Held? && DeedsOf(cfg, id, life, deeds) && !e.Note? && AdvanceHeld(cfg, id, life, e).Some?
    ensures DeedsOf(cfg, id, AdvanceHeld(cfg, id, life, e).value, deeds + [e])
  {
  }

  lemma HeldNotes(cfg: Settings, id: string, life: Life, e: Event, deeds: seq<Event>)
    requires life.Held? && DeedsOf(cfg, id, life, deeds) && e.Note? && AdvanceHeld(cfg, id, life, e).Some?
    ensures DeedsOf(cfg, id, AdvanceHeld(cfg, id, life, e).value, deeds)
  {
  }

  lemma ClearedDeeds(cfg: Settings, id: string, life: Life, e: Event, deeds: seq<Event>)
    requires life.Cleared? && DeedsOf(cfg, id, life, deeds) && !e.Note? && Advance(cfg, id, life, e).Some?
    ensures DeedsOf(cfg, id, Advance(cfg, id, life, e).value, deeds + [e])
  {
  }

  lemma AskedDeeds(cfg: Settings, id: string, life: Life, e: Event, deeds: seq<Event>)
    requires life.Asked? && DeedsOf(cfg, id, life, deeds) && !e.Note? && Advance(cfg, id, life, e).Some?
    ensures DeedsOf(cfg, id, Advance(cfg, id, life, e).value, deeds + [e])
  {
  }

  lemma EarlyDeeds(cfg: Settings, id: string, life: Life, e: Event, deeds: seq<Event>)
    requires !life.Held? && DeedsOf(cfg, id, life, deeds) && !e.Note? && Advance(cfg, id, life, e).Some?
    ensures DeedsOf(cfg, id, Advance(cfg, id, life, e).value, deeds + [e])
  {
    if life.Cleared? {
      ClearedDeeds(cfg, id, life, e, deeds);
    } else if life.Asked? {
      AskedDeeds(cfg, id, life, e, deeds);
    }
  }

  lemma EarlyNotes(cfg: Settings, id: string, life: Life, e: Event, deeds: seq<Event>)
    requires !life.Held? && DeedsOf(cfg, id, life, deeds) && e.Note? && Advance(cfg, id, life, e).Some?
    ensures DeedsOf(cfg, id, Advance(cfg, id, life, e).value, deeds)
  {
  }

  lemma AdvanceDeeds(cfg: Settings, id: string, life: Life, e: Event, deeds: seq<Event>)
    requires DeedsOf(cfg, id, life, deeds) && Advance(cfg, id, life, e).Some?
    ensures DeedsOf(cfg, id, Advance(cfg, id, life, e).value, deeds + (if e.Note? then [] else [e]))
  {
    if e.Note? {
      assert deeds + [] == deeds;
      if life.Held? {
        HeldNotes(cfg, id, life, e, deeds);
      } else {
        EarlyNotes(cfg, id, life, e, deeds);
      }
    } else if life.Held? {
      HeldDeeds(cfg, id, life, e, deeds);
    } else {
      EarlyDeeds(cfg, id, life, e, deeds);
    }
  }

  lemma {:induction false} LawfulDeeds(cfg: Settings, id: string, h: seq<Event>)
    requires Lawful(cfg, id, h)
    ensures DeedsOf(cfg, id, Live(cfg, id, h).value, Deeds(h))
  {
    if h == [] {
    } else {
      var front, e := h[..|h| - 1], h[|h| - 1];
      LawfulDeeds(cfg, id, front);
      AdvanceDeeds(cfg, id, Live(cfg, id, front).value, e, Deeds(front));
    }
  }

  /** In a lawful history an execution comes after exactly the deeds that entitle it, and there is at most one. */
  ghost predicate Entitled(cfg: Settings, id: string, past: seq<Event>, e: Event)
    requires e.Attempt?
  {
    var deeds := Deeds(past);
    exists snap ::
      && Faithful(cfg, snap, e)
      && snap.risk == RiskOf(cfg, snap)
      && if snap.risk.level != Scorer.HIGH then
           |deeds| == 3 && ClearedBy(cfg, deeds, snap) && e.actor.Submitter?
         else
           && |deeds| == 5 && QueuedBy(cfg, deeds, id, snap)
           && deeds[4].Popped? && deeds[4].approved && e.actor == Approver(deeds[4].tid)
  }

  lemma AttemptNeeds(cfg: Settings, id: string, life: Life, e: Event)
    requires e.Attempt? && Advance(cfg, id, life, e).Some?
    ensures life.Cleared? || (life.Held? && life.res.Taken? && life.res.approved)
    ensures Faithful(cfg, life.snap, e)
    ensures life.Cleared? ==> life.snap.risk.level != Scorer.HIGH && e.actor.Submitter?
    ensures life.Held? ==> e.actor == Approver(life.res.tid)
  {
  }

  /** The kind of a deed is fixed by its place, and nothing follows a reply that does not allow. */
  ghost predicate Shaped(cfg: Settings, deeds: seq<Event>) {
    && |deeds| <= 6
    && (|deeds| > 0 ==> deeds[0].Authenticated? || deeds[0].Rejected?)
    && (|deeds| > 1 ==> deeds[1].Judged?)
    && (|deeds| > 2 ==> deeds[2].Answered?)
    && (|deeds| > 3 ==> (deeds[3].Enqueued? || deeds[3].Attempt?) && Allows(cfg, deeds[2].reply))
    && (|deeds| > 4 ==> deeds[3].Enqueued? && deeds[4].Popped?)
    && (|deeds| > 5 ==> deeds[5].Attempt?)
  }

  lemma DeedsShaped(cfg: Settings, id: string, life: Life, deeds: seq<Event>)
    requires DeedsOf(cfg, id, life, deeds)
    ensures Shaped(cfg, deeds)
  {
  }

  lemma LawfulShape(cfg: Settings, id: string, h: seq<Event>)
    requires Lawful(cfg, id, h)
    ensures Shaped(cfg, Deeds(h))
  {
    LawfulDeeds(cfg, id, h);
    DeedsShaped(cfg, id, Live(cfg, id, h).value, Deeds(h));
  }

  /** Of two deeds in order: no second execution, no second enqueue or pop, no enqueue after a pop. */
  predicate MayFollow(x: Event, e: Event) {
    && !(x.Attempt? && e.Attempt?)
    && !(x.Enqueued? && e.Enqueued?)
    && !(x.Popped? && e.Popped?)
    && !(x.Popped? && e.Enqueued?)
  }

  lemma ShapedOrder(cfg: Settings, d: seq<Event>, i: nat, j: nat)
    requires Shaped(cfg, d) && i < j < |d|
    ensures MayFollow(d[i], d[j])
  {
  }

  lemma DeedsAfter(cfg: Settings, id: string, past: seq<Event>, x: Event, e: Event)
    requires Lawful(cfg, id, past + [e]) && x in past
    ensures MayFollow(x, e)
  {
    LawfulShape(cfg, id, past + [e]);
    DeedsGrow(past, e);
    if !x.Note? && !e.Note? {
      DeedsHold(past, x);
      var d, i := Deeds(past), IndexIn(Deeds(past), x);
      ShapedOrder(cfg, d + [e], i, |d|);
    }
  }

  lemma EnqueueIsKeyed(cfg: Settings, id: string, past: seq<Event>, e: Event)
    requires Lawful(cfg, id, past + [e]) && e.Enqueued?
    ensures e.pending.requestId == id && e.snap.risk.level == Scorer.HIGH
  {
    assert (past + [e])[..|past|] == past;
  }

  ghost function IndexIn(d: seq<Event>, x: Event): (i: nat)
    requires x in d
    ensures i < |d| && d[i] == x
  {
    var i :| 0 <= i < |d| && d[i] == x;
    i
  }

  lemma ShapedRefusal(cfg: Settings, d: seq<Event>, i: nat, j: nat)
    requires Shaped(cfg, d) && i < |d| && j < |d|
    requires d[i].Answered? && !Allows(cfg, d[i].reply)
    ensures !d[j].Attempt? && !d[j].Enqueued?
  {
  }

  /** A history in which OPA's reply did not allow holds no execution and no enqueue. */
  lemma RefusedHasNone(cfg: Settings, id: string, h: seq<Event>, x: Event, e: Event)
    requires Lawful(cfg, id, h) && x in h && e in h
    requires x.Answered? && !Allows(cfg, x.reply)
    ensures !e.Attempt? && !e.Enqueued?
  {
    if !e.Note? {
      LawfulShape(cfg, id, h);
      DeedsHold(h, x);
      DeedsHold(h, e);
      var d := Deeds(h);
      ShapedRefusal(cfg, d, IndexIn(d, x), IndexIn(d, e));
    }
  }

  lemma AttemptIsEntitled(cfg: Settings, id: string, past: seq<Event>, e: Event)
    requires e.Attempt? && Lawful(cfg, id, past + [e])
    ensures Entitled(cfg, id, past, e)
  {
    assert (past + [e])[..|past|] == past;
    var life := Live(cfg, id, past).value;
    LawfulDeeds(cfg, id, past);
    AttemptNeeds(cfg, id, life, e);
    LawfulJudged(cfg, id, past);
    assert Faithful(cfg, life.snap, e);
  }

  lemma {:induction false} DeedsHold(h: seq<Event>, x: Event)
    requires x in h && !x.Note?
    ensures x in Deeds(h)
  {
    var front, last := h[..|h| - 1], h[|h| - 1];
    assert h == front + [last];
    if x in front {
      DeedsHold(front, x);
    }
  }

  // ----- The audit word -----

  /** The decisions recorded, in order, stored or not. */
  function Decisions(notes: seq<Event>): seq<string> {
    if notes == [] then [] else
      var last := notes[|notes| - 1];
      Decisions(notes[..|notes| - 1]) + (if last.Note? then [last.record.decision] else [])
  }

  function HumanWord(res: Resolution): seq<string> {
    if res.Resolved? then [if res.approved then HUMAN_ALLOW else HUMAN_DENY] else []
  }

  /** The audit word of each state. */
  ghost predicate NotesOf(life: Life, word: seq<string>) {
    match life
    case Closed(_, decision) => word == [decision] && decision in {DENY, ALLOW}
    case Held(_, _, noted, res, overtaken) =>
      var pending := if noted then [PENDING] else [];
      && (overtaken ==> !res.Open?)
      && (!overtaken && !res.Open? ==> noted)
      && if overtaken then word == pending + HumanWord(res) || word == HumanWord(res) + pending
         else word == pending + HumanWord(res)
    case _ => word == []
  }

  lemma DecisionsGrow(h: seq<Event>, e: Event)
    ensures Decisions(Notes(h + [e])) == Decisions(Notes(h)) + (if e.Note? then [e.record.decision] else [])
  {
    DeedsGrow(h, e);
    if e.Note? {
      assert (Notes(h) + [e])[..|Notes(h)|] == Notes(h);
    } else {
      assert Notes(h) + [] == Notes(h);
    }
  }

  lemma EarlyAdvanceNotes(cfg: Settings, id: string, life: Life, e: Event, word: seq<string>)
    requires !life.Held? && NotesOf(life, word) && Advance(cfg, id, life, e).Some?
    ensures NotesOf(Advance(cfg, id, life, e).value, word + (if e.Note? then [e.record.decision] else []))
  {
    assert word + [] == word;
  }

  lemma HeldAdvanceNotes(cfg: Settings, id: string, life: Life, e: Event, word: seq<string>)
    requires life.Held? && NotesOf(life, word) && AdvanceHeld(cfg, id, life, e).Some?
    ensures NotesOf(AdvanceHeld(cfg, id, life, e).value, word + (if e.Note? then [e.record.decision] else []))
  {
    assert word + [] == word;
    var pending := if life.noted then [PENDING] else [];
    assert pending + [] == pending && [] + pending == pending;
  }

  lemma AdvanceNotes(cfg: Settings, id: string, life: Life, e: Event, word: seq<string>)
    requires NotesOf(life, word) && Advance(cfg, id, life, e).Some?
    ensures NotesOf(Advance(cfg, id, life, e).value, word + (if e.Note? then [e.record.decision] else []))
  {
    if life.Held? {
      HeldAdvanceNotes(cfg, id, life, e, word);
    } else {
      EarlyAdvanceNotes(cfg, id, life, e, word);
    }
  }

  lemma {:induction false} LawfulNotes(cfg: Settings, id: string, h: seq<Event>)
    requires Lawful(cfg, id, h)
    ensures NotesOf(Live(cfg, id, h).value, Decisions(Notes(h)))
  {
    if h == [] {
    } else {
      var front, e := h[..|h| - 1], h[|h| - 1];
      assert h == front + [e];
      LawfulNotes(cfg, id, front);
      AdvanceNotes(cfg, id, Live(cfg, id, front).value, e, Decisions(Notes(front)));
      DecisionsGrow(front, e);
    }
  }

  /** Every record a lawful history writes describes the request that was judged. */
  ghost predicate Describes(r: Record, id: string, snap: Snap) {
    IsNote(r, id, snap, r.decision)
  }

  /** What had happened to the request when the record was written: its decision is the one that was taken, and its
      reason is the one OPA gave, or names the approver. */
  ghost predicate Evidence(cfg: Settings, id: string, deeds: seq<Event>, snap: Snap, r: Record)
    requires r.opaReason.Some?
  {
    var reason := r.opaReason.value;
    if r.decision == DENY then RefusedBy(cfg, deeds, snap) && OpaRuled(cfg, deeds, false, reason)
    else if r.decision == ALLOW then
      OneRun(cfg, deeds, snap) && !Raises(deeds[3].outcome) && OpaRuled(cfg, deeds, true, reason)
    else if r.decision == PENDING then QueuedBy(cfg, deeds, id, snap) && OpaRuled(cfg, deeds, true, reason)
    else if r.decision == HUMAN_ALLOW then
      && |deeds| == 6 && QueuedBy(cfg, deeds, id, snap) && deeds[4].Popped?
      && ApprovedRun(cfg, deeds, snap, deeds[4].tid) && !Raises(deeds[5].outcome)
      && "Human approved by " + cfg.reprOf(deeds[4].approver) + ". Reason: " <= reason
    else
      && r.decision == HUMAN_DENY
      && |deeds| == 5 && QueuedBy(cfg, deeds, id, snap) && deeds[4].Popped? && !deeds[4].approved
      && "Human denied by " + cfg.reprOf(deeds[4].approver) + ". Reason: " <= reason
  }

  lemma EarlyEvidence(cfg: Settings, id: string, life: Life, e: Event, deeds: seq<Event>)
    requires e.Note? && !life.Held? && DeedsOf(cfg, id, life, deeds) && Advance(cfg, id, life, e).Some?
    ensures HasSnap(life) && Describes(e.record, id, life.snap) && Evidence(cfg, id, deeds, life.snap, e.record)
  {
  }

  lemma PendingEvidence(cfg: Settings, id: string, life: Life, e: Event, deeds: seq<Event>)
    requires e.Note? && e.record.decision == PENDING
    requires life.Held? && DeedsOf(cfg, id, life, deeds) && AdvanceHeld(cfg, id, life, e).Some?
    ensures Describes(e.record, id, life.snap) && Evidence(cfg, id, deeds, life.snap, e.record)
  {
  }

  lemma VerdictTexts(cfg: Settings, approver: string)
    ensures HumanVerdict(cfg, true, approver) == "Human approved by " + cfg.reprOf(approver) + ". Reason: "
    ensures HumanVerdict(cfg, false, approver) == "Human denied by " + cfg.reprOf(approver) + ". Reason: "
  {
    assert "Human " + "approved" + " by " == "Human approved by ";
    assert "Human " + "denied" + " by " == "Human denied by ";
  }

  lemma AllowEvidence(cfg: Settings, id: string, life: Life, e: Event, deeds: seq<Event>)
    requires e.Note? && e.record.decision != PENDING
    requires life.Held? && life.res.Executed? && DeedsOf(cfg, id, life, deeds) && AdvanceHeld(cfg, id, life, e).Some?
    ensures Describes(e.record, id, life.snap) && Evidence(cfg, id, deeds, life.snap, e.record)
  {
    VerdictTexts(cfg, life.res.approver);
  }

  lemma DenyEvidence(cfg: Settings, id: string, life: Life, e: Event, deeds: seq<Event>)
    requires e.Note? && e.record.decision != PENDING
    requires life.Held? && life.res.Taken? && DeedsOf(cfg, id, life, deeds) && AdvanceHeld(cfg, id, life, e).Some?
    ensures Describes(e.record, id, life.snap) && Evidence(cfg, id, deeds, life.snap, e.record)
  {
    VerdictTexts(cfg, life.res.approver);
  }

  lemma HeldEvidence(cfg: Settings, id: string, life: Life, e: Event, deeds: seq<Event>)
    requires e.Note? && life.Held? && DeedsOf(cfg, id, life, deeds) && AdvanceHeld(cfg, id, life, e).Some?
    ensures Describes(e.record, id, life.snap) && Evidence(cfg, id, deeds, life.snap, e.record)
  {
    if e.record.decision == PENDING {
      PendingEvidence(cfg, id, life, e, deeds);
    } else if life.res.Executed? {
      AllowEvidence(cfg, id, life, e, deeds);
    } else {
      DenyEvidence(cfg, id, life, e, deeds);
    }
  }

  lemma NoteDescribes(cfg: Settings, id: string, past: seq<Event>, e: Event)
    requires e.Note? && Lawful(cfg, id, past + [e])
    ensures exists snap :: Judged(snap, InputOf(snap)) in past && snap.risk == RiskOf(cfg, snap)
                           && Describes(e.record, id, snap)
                           && Evidence(cfg, id, Deeds(past), snap, e.record)
  {
    assert (past + [e])[..|past|] == past;
    var life := Live(cfg, id, past).value;
    LawfulDeeds(cfg, id, past);
    if life.Held? {
      HeldEvidence(cfg, id, life, e, Deeds(past));
    } else {
      EarlyEvidence(cfg, id, life, e, Deeds(past));
    }
    LawfulJudged(cfg, id, past);
  }

  predicate HasSnap(life: Life) {
    !life.Unborn? && !life.Unauthorized? && !life.Known?
  }

  lemma SnapKept(cfg: Settings, id: string, life: Life, e: Event)
    requires Advance(cfg, id, life, e).Some? && HasSnap(Advance(cfg, id, life, e).value)
    ensures var life' := Advance(cfg, id, life, e).value;
            if HasSnap(life) then life'.snap == life.snap
            else e == Judged(life'.snap, InputOf(life'.snap)) && life'.snap.risk == RiskOf(cfg, life'.snap)
  {
  }

  lemma {:induction false} LawfulJudged(cfg: Settings, id: string, h: seq<Event>)
    requires Lawful(cfg, id, h) && HasSnap(Live(cfg, id, h).value)
    ensures var snap := Live(cfg, id, h).value.snap;
            Judged(snap, InputOf(snap)) in h && snap.risk == RiskOf(cfg, snap)
  {
    var front, e := h[..|h| - 1], h[|h| - 1];
    assert h == front + [e];
    var before := Live(cfg, id, front).value;
    SnapKept(cfg, id, before, e);
    if HasSnap(before) {
      LawfulJudged(cfg, id, front);
    }
  }
}
