# A verified model of the AI-agent Kubernetes gateway

The gateway stands between an AI agent and a cluster. A submission is authenticated, scored, put to OPA, and then
denied, executed, or queued for a human; an approval takes a queued request out and executes or refuses it; every
decision goes to an append-only JSONL log. This project models that protocol, the two classifiers that judge a request
(the Rego policy and the risk scorer), the dispatcher and manifest builder, and the Gatekeeper templates, and proves
what holds of them together.

## How the model is built

**Values and text.** `text.dfy` and `numerals.dfy` are the Python string and number operations the code uses.
`json_values.dfy` is a JSON value with its three readings: Python truth and `str()`, Python `int()`, and Rego's order
across types. `json_text.dfy` writes and reads JSON text (sections 2 to 9 of RFC 8259), and `json_torn.dfy` says what a
reader makes of a text that was cut off and is followed by the next one.

**Components.** `scorer.dfy`, `policy.dfy`, `k8s_client.dfy`, `admission.dfy`, `approval_queue.dfy` and `audit_log.dfy`
follow one source file each. What the source does by changing state is a class whose methods are proved against a
specification function: the score against a ledger of charges, the queue (an insertion-ordered dict) against an ordered
sequence, the log file against the lines of its records, the dispatcher against the call of a request.
`queue_concurrency.dfy` and `audit_concurrency.dfy` run the methods of queue and logger from any number of threads,
statement by statement, with only the lock to order them; a log write may also fail after any part of its line.

**The protocol, three times.** `lifecycle.dfy` says, as an automaton over the events of one request, what may ever
happen to it. `gateway.dfy` is the machine of the statements: any number of submissions and approvals are in flight, one
move runs one statement of one handler, and OPA's replies, execution outcomes, token checks, approver choices and
failures to open the log are arbitrary. `event_loop.dfy` is the coarser machine of the event loop, in which a handler
gives up control only while it awaits OPA. `handlers.dfy` holds the handlers themselves as methods over the shared
queue, log and cluster, and proves that each call is exactly one turn of that machine, and that serving any list of
turns ends in the machine's state. A ghost trace keeps every event.

**What follows.** `safety.dfy` proves the invariant that ties every frame in flight, the queue and the trace to the
automaton. `guarantees.dfy`, `conservation.dfy` and `event_loop.dfy` draw the theorems for every run and every OPA, and
`interleavings.dfy` shows what the event loop adds to the locks.
`classifiers.dfy` relates policy, scorer, dispatcher and builder on one request, and `composition.dfy` puts the shipped
policy in OPA's place: a 2xx answer carries the value of `allow` on the input that was sent, and every other reply stays
arbitrary. `audit_coverage.dfy` says exactly which requests leave a record in the log.

**Where it is pinned down.** `provenance.dfy` traces every event of a run back to the submission, the verified token, the
approver's choice and the clock reading that brought it in. `turn_effects.dfy` states what each turn of the event loop
does in terms of the turn and the states around it: the response, the calls sent, the change of the queue, and each field
of the record written.

## Where the code and its documentation part

* The diagram says that a queued request is answered with 202; the route declares 200. Only the decision is modelled.
* The documentation says that every request leaves an audit record. A submission ends without one exactly when its token
  is refused, OPA's 2xx answer is unreadable, the log cannot be opened at its audit call, or the request is allowed, is
  not high-risk, and its direct execution raises (`AuditCoverage.ReplyRecorded` and `RefusalUnrecorded`). A queued
  request whose approved execution raises gets no second record (`AuditCoverage.ApprovalRecorded`).
  Two requests that the shipped policy allows and that leave an empty log are `AuditCoverage.NamelessGetUnrecorded` and
  `AuditCoverage.FailedCreateUnrecorded`; in the second the call has reached the cluster.
* The logger's lock is said to keep partial writes apart. It does, but a write that fails half-way leaves its part in the
  file, and unless that part ends in the line break the next record is unreadable (`AuditConcurrency.SurvivingRecords`).
* `PendingRequest` is documented as a snapshot, but `params` is held by reference. The model keeps the params dicts in a
  heap of cells; `Guarantees.QueueIsTruthful` holds because no statement writes a cell.
* The control-plane rule of the policy compares a namespace that is lower-cased but not stripped, and the dispatcher
  strips it. `Classifiers.ControlPlaneGate` states exactly for which namespaces the rule holds.

## Model

| member | source | states |
|---|---|---|
| Text.LowerFolds | app/main.py:143-145 | two texts are lower-cased alike exactly when they agree up to the case of letters |
| Text.LowerLowers | app/main.py:143-145 | the lower-cased text has no upper-case letter and differs in case only |
| Text.SpaceTable | app/risk/scorer.py:156-158 | what is stripped is white space in Python's sense, character by character |
| Text.StripExactly | app/k8s/client.py:129-131 | the stripped text is the one unpadded core that the text holds between white space |
| Text.NormalFolds | app/risk/scorer.py:156-158 | the normalisation identifies exactly the respellings of one word, in other cases and with other padding |
| Text.NormalIdempotent | app/risk/scorer.py:156-158 | the normal form is the one respelling in lower case without padding, and normalising it again changes nothing |
| Text.StripFixes | app/k8s/client.py:129-131 | stripping changes a string exactly when it has surrounding whitespace |
| Text.PrefixSurvivesStrip | app/risk/scorer.py:224-225 | a plain prefix of a string is still a prefix after the string is stripped |
| Numerals.ChargeReadsBack | app/risk/scorer.py:163 | the points at the end of a reason text read back as the points charged |
| Numerals.TruncDivBound | app/risk/scorer.py:234 | truncation towards zero of a fraction is at most k exactly when the fraction is below k + 1 |
| Numerals.TruncatesTowardZero | app/k8s/client.py:304-305 | the quotient never lies further from zero, and leaves less than the divisor |
| JsonValues.IntWithinRegoBound | policies/agent_actions.rego:200-208 | a value that Rego does not find greater than k >= 1 converts by `int()` to at most k, and the only one that does not convert is null |
| JsonValues.IntExceedsRegoBound | policies/agent_actions.rego:200-208 | a number whose `int()` exceeds k is one that Rego finds greater than k |
| JsonValues.IntRaises | app/risk/scorer.py:233-236 | `int()` raises TypeError exactly on null, arrays and objects, and ValueError exactly on strings that are no integer literal between white space |
| JsonValues.IntReads | app/risk/scorer.py:233-236 | what `int()` makes of every kind of value: truth values count 0 or 1, floats are cut off toward zero, strings are the signed number their digits write |
| JsonValues.RegoOrder | policies/agent_actions.rego:200-208 | Rego finds greater than a number every string, array and object, no null and no boolean, and of the numbers exactly the greater ones |
| JsonValues.Falsy | app/k8s/client.py:274-275 | the values Python counts as false are null, false, zero and the empty string, list and dict |
| JsonValues.GetFindsKeys | app/k8s/client.py:274 | a key is found exactly when some member has it |
| JsonText.LoadsDumps | app/audit/logger.py:87 | reading what was written returns the value, for every nested JSON value |
| JsonText.DumpsPrintable | app/audit/logger.py:87-94 | the written text is printable ASCII, so holds no line break whatever the strings inside it hold |
| JsonText.Layout | app/audit/logger.py:87 | a blank after every comma and colon and none elsewhere |
| JsonText.SetKeySets | demo/agent_client.py:551 | of members with one key the last wins, and the others stay |
| JsonTorn.ValueCut | app/audit/logger.py:87-94 | a value cut off anywhere and followed by the next object leaves the reader with nothing, or where no document can go on |
| JsonTorn.TornIsUnreadable | app/audit/logger.py:87-94 | an object cut off anywhere and followed by the next one is no document |
| Scorer.ScoreParams | app/risk/scorer.py:206-243 | the loop and branches move bucket and reasons together by exactly the ledger of the charged parameters |
| Scorer.ScoreTarget | app/risk/scorer.py:160-175 | total and reasons move together by the ledger of verb, namespace and resource |
| Scorer.Score | app/risk/scorer.py:132-191 | level, score and reasons are the band, the sum and the texts of one ledger |
| Scorer.AssessBalances | app/risk/scorer.py:160-191 | adding up the points that the reason texts end with gives exactly the score, and the level is its band |
| Scorer.ScoreInPoints | app/risk/scorer.py:160-191 | the score in closed form: verb weight plus namespace, resource and inspected parameter points |
| Scorer.WeightTable | app/risk/scorer.py:54-65 | the weight of each of the ten verbs, and 1 for any other |
| Scorer.BandOrder | app/risk/scorer.py:183-189 | low below 2, medium below 4, high from 4 on |
| Scorer.ImageRead | app/risk/scorer.py:224-225 | the image point is charged exactly when the image without its padding is non-empty and has no trusted prefix, for absent, string and other values |
| Scorer.ReplicasRead | app/risk/scorer.py:233-238 | the count is 1 where there is none or it cannot be read, and the point is charged above the threshold |
| Scorer.OnlyWritesAreInspected | app/risk/scorer.py:178 | parameters count only for the five writing verbs |
| Scorer.ReasonsInOrder | app/risk/scorer.py:160-243 | the reasons come in the order of the checks |
| Scorer.TargetTexts | app/risk/scorer.py:163-175 | the reasons of verb, namespace and resource, word by word |
| Scorer.ParamTexts | app/risk/scorer.py:217-243 | the reasons of the parameters, word by word |
| Scorer.SpellingIrrelevant | app/risk/scorer.py:156-158 | respelling any of the three strings in another case or with other padding never changes the assessment |
| Scorer.FieldOrderIrrelevant | app/risk/scorer.py:217-221 | any order of visiting the dangerous fields charges the same points |
| Scorer.ScoreMonotone | app/risk/scorer.py:217-221 | setting further dangerous fields never lowers the score |
| Scorer.ScoreBounds | app/risk/scorer.py:54-100 | no request scores above 18, and none with a read verb above 3 |
| Scorer.WorstScore | app/risk/scorer.py:54-100 | 18 is attained |
| Policy.CleanMeansNoViolation | policies/agent_actions.rego:164-208 | a write has no payload violation exactly when its payload meets the six conditions |
| Policy.AllowExactly | policies/agent_actions.rego:87-107 | read verbs for both roles; for the deployer writes outside the protected namespaces and resources with a clean payload; nothing else |
| Policy.FlagViolations | policies/agent_actions.rego:164-186 | each flag is a violation exactly when it is true |
| Policy.ImageViolation | policies/agent_actions.rego:188-198 | an image is a violation exactly when it is neither null nor empty and no string with a trusted prefix |
| Policy.ReplicaViolation | policies/agent_actions.rego:200-208 | a replica count is a violation exactly when Rego finds it greater than 10 |
| Policy.VerbReason | policies/agent_actions.rego:113-119 | deletes, replaces and execs are explained, for every role |
| Policy.NamespaceReason | policies/agent_actions.rego:121-128 | writes in a protected namespace are explained, for every role |
| Policy.ReadonlyReason | policies/agent_actions.rego:130-137 | a readonly verb that does not read is explained |
| Policy.ResourceReason | policies/agent_actions.rego:139-147 | a deployer's write to a sensitive resource is explained |
| Policy.RoleReason | policies/agent_actions.rego:149-155 | an unknown role is explained |
| Policy.PayloadReason | policies/agent_actions.rego:211-213 | the violations of the payload are reasons, and no others of their kind |
| Policy.AllowHasNoReason | policies/agent_actions.rego:87-157 | an allowed input has no deny reason |
| Policy.UnexplainedDenial | policies/agent_actions.rego:87-157 | a denial has no deny reason exactly for a deployer verb outside the ten known ones |
| Policy.ReasonIsUnique | policies/agent_actions.rego:219-229 | the three bodies of `reason` always yield exactly one value, and the allowing one exactly on allow |
| K8sClient.BuiltTemplate | app/k8s/client.py:302-352 | a built Deployment is never privileged, never escalates and runs as nobody, and its replicas, port, name, image, requests and limits are those of the parameters or the defaults |
| K8sClient.BuildFails | app/k8s/client.py:302-347 | building raises TypeError or ValueError exactly on the first offending parameter: a replica count or port that is null, an array or an object, or a string that is no integer literal; then a null name |
| K8sClient.Cluster.ExecuteAction | app/k8s/client.py:103-149 | at most one call is sent, the one the normalised request dispatches to; a success and an error of the API come only of a sent call, and without a configuration nothing is sent |
| K8sClient.AnswersNeedCalls | app/k8s/client.py:141-149 | the same of every environment and request, with the errors before and after sending |
| K8sClient.OutcomeTable | app/k8s/client.py:127-149 | exactly which environments and requests end in success, API error, unavailability and bad request |
| K8sClient.RequestedCall | app/k8s/client.py:129-142 | the call of a request in any spelling is that of its plain verb and resource, in the namespace without padding or the default one |
| K8sClient.VerbDecidesCall | app/k8s/client.py:176-254 | the kind of call is fixed by the verb, and a sent Deployment is the built one in the given namespace |
| K8sClient.CallAnswersRequest | app/k8s/client.py:176-254 | the call is authorised as the requested verb on the requested resource, in the requested namespace and under the requested name; update is sent as patch |
| K8sClient.DispatchSucceeds | app/k8s/client.py:176-259 | dispatching succeeds exactly for the eleven supported pairs, given a name and a buildable manifest where needed |
| K8sClient.RoleCoversAllButDeletes | k8s/gateway/deployment.yaml:104-124 | the ClusterRole grants a call of the dispatch table exactly when it is not a delete |
| Admission.ShippedReposCover | k8s/gatekeeper/constraints/allowed-repos.yaml:39-50 | every prefix the policy trusts is admitted by the shipped repo list |
| Admission.CleanBuildAdmitted | k8s/gatekeeper/templates/allowed-repos-template.yaml:44-68 | a Deployment built from a payload the policy accepts violates one of the three templates exactly when its image is the empty string or a limit is false |
| Admission.Admitted | k8s/gatekeeper/templates/no-privileged-template.yaml:34-70 | a pod passes the three templates exactly when it shares no host namespace and every named container is unprivileged, takes its image from the repos and has both limits |
| ApprovalQueues.ApprovalQueue.Enqueue | app/approval/queue.py:98-110 | a new id goes to the end, a present one keeps its place |
| ApprovalQueues.ApprovalQueue.ListPending | app/approval/queue.py:112-120 | the snapshot holds the dict of every waiting request, in order |
| ApprovalQueues.ToDictInjective | app/approval/queue.py:71-85 | two requests with the same dict are the same request |
| ApprovalQueues.ApprovalQueue.Resolve | app/approval/queue.py:122-131 | returns the request if it waits, and leaves exactly the others |
| ApprovalQueues.ApprovalQueue.Peek | app/approval/queue.py:133-136 | returns the request if it waits and changes nothing |
| ApprovalQueues.ApprovalQueue.Size | app/approval/queue.py:138-142 | the number of waiting requests |
| ApprovalQueues.QueueIsOrderedRemainder | app/approval/queue.py:98-142 | over any history with fresh ids the queue is the enqueue order without the ids handed out, and no id is handed out twice |
| QueueConcurrency.Linearizable | app/approval/queue.py:108-142 | every interleaving of statements is explained by one sequential history, in lock order, that respects real time |
| QueueConcurrency.ReturnsItsPoint | app/approval/queue.py:108-142 | every call returns the answer the sequential queue gave at its point |
| QueueConcurrency.AtMostOneResolve | app/approval/queue.py:130-131 | however many calls race for one id, one at most is handed the request |
| AuditLogs.AuditLog.Log | app/audit/logger.py:68-95 | appends exactly one line, or nothing when the file cannot be opened, and never fails |
| AuditLogs.ToJsonInjective | app/audit/logger.py:68-83 | two records with the same JSON form are the same record |
| AuditLogs.WhoAndWhat | app/audit/logger.py:68-83 | the JSON object of a record has the record's own value under each of its first eight keys |
| AuditLogs.RiskAndDecision | app/audit/logger.py:68-83 | and under the keys of risk, decision, reason and error |
| AuditLogs.ReasonsInOrder | app/audit/logger.py:79 | and the risk reasons in order |
| AuditLogs.LogReadsBack | demo/agent_client.py:533-551 | splitting the file into lines and decoding each returns exactly the appended records in order |
| AuditLogs.ReadersAgree | demo/agent_client.py:549-572 | the reader that skips unreadable lines and the one that needs them all agree exactly when none is skipped |
| AuditConcurrency.NoPartialWritesMix | app/audit/logger.py:89-94 | at every moment of every interleaving of chunked and failing writes the file is what each writer left, in one piece and in lock order, followed by the part the lock holder has sent |
| AuditConcurrency.LogRoundTrip | app/audit/logger.py:89-94 | whenever nobody holds the lock, the reader of all lines gets exactly the written records in lock order if and only if no write failed half-way |
| AuditConcurrency.SurvivingRecords | app/audit/logger.py:93-95 | however many writes failed half-way, the skipping reader gets exactly the records written from a line start to their break, and a whole one at the end of the file |
| AuditConcurrency.LogSurvives | demo/agent_client.py:549-572 | so it does after every interleaving |
| AuditConcurrency.TornWriteLosesNextRecord | app/audit/logger.py:93-95 | any non-empty part of one line, and even all of it without the break, makes the next record unreadable |
| AuditConcurrency.NoCarriageReturn | demo/agent_client.py:533-534 | the file holds no carriage return, so every reader splits it alike |
| Lifecycle.FailsClosed | app/main.py:155-172 | a reply allows exactly when it is a 2xx whose result object has a truthy `allow`, and the handler raises exactly on a 2xx without a readable result |
| Lifecycle.ReasonRead | app/main.py:159-172 | the reason read with a decision is OPA's own where it gives one, and a fixed text elsewhere |
| Lifecycle.InputTells | app/main.py:139-150 | OPA is told what was judged, with verb, resource and namespace in lower case |
| Lifecycle.LawfulDeeds | app/main.py:239-370 | the events of a request, audit writes aside, are those of its stage and no others |
| Lifecycle.AttemptIsEntitled | app/k8s/client.py:4-9 | an execution comes after exactly the events that entitle it |
| Safety.StepKeepsInv | app/main.py:229-467 | every statement of every handler keeps frames, queue, params and trace in agreement with the automaton |
| Safety.RunKeepsInv | app/main.py:229-467 | so does every interleaving of any number of handlers |
| Guarantees.GateSafety | app/main.py:241-346 | on every run an execution belongs to a request whose token verified, whose very strings and params were judged, whose input OPA allowed, and whose level was not high or which was enqueued once, popped once and approved by the approval that executes |
| Guarantees.SuccessWasSent | app/k8s/client.py:141-149 | on every run an execution that succeeds has sent the call its request dispatches to, and the cluster has received it |
| Guarantees.RefusalIsFinal | app/main.py:155-172 | a request whose reply did not allow is never executed and never enqueued |
| Guarantees.AtMostOneExecution | app/main.py:417-430 | no request is executed twice, however many approvals race |
| Guarantees.PoppedOnceForAll | app/approval/queue.py:122-131 | a request leaves the queue at most once and never returns |
| Guarantees.RunExplained | app/main.py:273-457 | queue, log and cluster hold exactly what the events put there |
| Guarantees.PendingIsOrderedRemainder | app/main.py:387-392 | GET /pending lists the requests enqueued so far, in order, without those handed to an approval |
| Guarantees.QueueIsTruthful | app/approval/queue.py:37-69 | a waiting request is, by value, one that was judged under its id, allowed by OPA and high-risk |
| Guarantees.AuditIsTruthful | app/main.py:275-287 | every stored record has, field by field, identity, role, action, resource, namespace, params and risk of a request judged under its id, and no error; its score is the sum of its own reasons and its level the band; its decision is the one that had been taken when it was written, and its reason is the one OPA gave or names the approver |
| Guarantees.LogFileReadsBack | demo/agent_client.py:533-551 | the reader of the log file of any run gets back exactly the records of that run |
| Conservation.Conserved | app/main.py:274-370 | ever-enqueued ids are pending, being resolved, denied, executed or raised, each counted once; all submissions are those plus the stages that never reach the queue; the queue is exactly the pending part |
| EventLoop.PlayIsRun | app/main.py:155-157 | every state of the event loop is a state of the statement machine, so all theorems above hold of it |
| EventLoop.PlayTidy | app/main.py:155-157 | between two turns every handler awaits OPA or has returned, and no resolution overtook a pending record |
| EventLoop.AuditTellsStage | app/main.py:273-457 | the audit writes of a request, stored or lost, are exactly the word of what became of it |
| EventLoop.AuditLanguage | app/main.py:417-457 | with successful writes the log of one id is one of six words, and is `pending-approval` alone exactly when the id is queued or its approved execution raised |
| EventLoop.ConservedBetweenTurns | app/main.py:417-457 | between two turns every id ever enqueued is pending, executed, denied by a human or raised on approval, each counted once |
| AuditCoverage.EmptyLog | app/audit/logger.py:89-95 | the log holds nothing of an id exactly when its outcome is not recorded at all or every record of it was lost |
| AuditCoverage.ReplyRecorded | app/main.py:263-361 | once OPA has answered, the log of the request reads the decision, or nothing exactly when the answer is unreadable, the log cannot be opened, or a direct execution raises |
| AuditCoverage.DirectRunUnrecorded | app/main.py:344-361 | a direct execution goes unrecorded exactly when the configuration cannot be loaded, or is there and the call cannot be dispatched or is not accepted |
| AuditCoverage.RefusalUnrecorded | app/main.py:241-244 | a refused token leaves nothing |
| AuditCoverage.ApprovalRecorded | app/main.py:427-457 | an approval adds the approver's word to the log, or nothing exactly when the log cannot be opened or the approved execution raises |
| AuditCoverage.NamelessGetUnrecorded | app/k8s/client.py:274-279 | a concrete request that the shipped policy allows and that leaves no record |
| AuditCoverage.FailedCreateUnrecorded | app/main.py:210-214 | another one, whose call the cluster received |
| Interleavings.StatementAuditLanguage | app/main.py:313-328 | if handlers interleaved statement by statement, no words but four further ones could occur |
| Interleavings.OvertakingPossible | app/main.py:313-328 | each of the four occurs, for every high-risk allowed request: the order of the log rests on the event loop, not on the locks |
| Handlers.Application.AgentAction | app/main.py:239-271 | the handler up to its request to OPA is that segment of the machine, and the document it sends is the judged one with its three strings lower-cased |
| Handlers.Application.AgentActionResumed | app/main.py:155-297 | the handler from OPA's reply on is that segment, including the failures |
| Handlers.Application.QueueOrExecute | app/main.py:299-370 | queue-and-record or execute-and-record, with the exception cutting the record off |
| Handlers.Application.ListPending | app/main.py:378-392 | an authenticated caller gets the count and one JSON object for every waiting request, in order, with that request's own value under each of the eleven keys and its params by value |
| Handlers.ListingIsTruthful | app/approval/queue.py:71-85 | on every run each object shows the request that was judged under its id, allowed by OPA and high-risk |
| Handlers.Application.ApproveAction | app/main.py:400-425 | the approval handler is the approval segment of the machine, whose effects the rows of TurnEffects state |
| TurnEffects.ApprovalRefused | app/main.py:414 | an approval without a verified token changes nothing and is refused |
| TurnEffects.ApprovalOfNothing | app/main.py:417-425 | an approval of a request that does not wait changes nothing and is not found |
| TurnEffects.ApprovalEffect | app/main.py:414-467 | an authenticated approval takes out exactly the request named, for the token's subject and with the caller's choice; a denial is recorded; an approval sends the waiting request's call and is recorded unless that raises; the record's fields and reason are stated one by one |
| TurnEffects.RequestEffect | app/main.py:239-271 | a refused token ends the request; otherwise it waits for OPA with the strings and params submitted, the token's identity and role, and their assessment |
| TurnEffects.ReplyEffect | app/main.py:273-370 | an unreadable answer changes nothing; a denial is recorded; a high-risk request goes to the end of the queue and is recorded; any other is executed and recorded unless it raises; with the record's fields stated one by one |
| Provenance.JudgedWasSubmitted | app/main.py:239-271 | whatever is judged was submitted under its id with those strings and params, for the identity and role of a token verified for it |
| Provenance.AuthenticatedByToken | app/main.py:242-244 | whatever is authenticated is so by a verified token |
| Provenance.PoppedByVerifiedApprover | app/main.py:414-417 | on every interleaving whoever takes a request out called that approval for it with that choice, and is the subject of a token verified for it |
| Provenance.NoteIsTimed | app/audit/logger.py:69 | a record carries the clock's reading at its own write, and is stored exactly when the log opened there |
| Provenance.QueuedIsTimed | app/approval/queue.py:69 | a queued request carries the clock's reading at its enqueue |
| Provenance.HumanNoteSaysWhoAndWhy | app/main.py:453-456 | the second record names a verified approver and repeats the comment of the approval |
| Handlers.Application.Settle | app/main.py:427-467 | the rest of it, once the request has been taken out |
| Handlers.TurnIsHandlerCall | app/main.py:229-467 | after any turns the handlers may be called, and the next turn is exactly one call of them |
| Handlers.Application.Serve | app/main.py:229-467 | calling the handlers over any list of turns ends in the state of the machine |
| Classifiers.ControlPlaneGate | policies/agent_actions.rego:100-107 | of the clean writes aimed at a control-plane namespace the policy refuses exactly those whose namespace has no surrounding whitespace |
| Classifiers.PaddedNamespaceIsDispatched | app/k8s/client.py:129-131 | a concrete write on which the rule does not hold |
| Classifiers.AllowedCall | app/k8s/client.py:129-254 | what an allowed request dispatches to: never a delete, always granted, a read for readonly, a safe manifest in an admissible namespace for a deployer |
| Classifiers.CaseIsIrrelevant | app/main.py:143-145 | requests that differ in the case of letters are scored alike, allowed alike and dispatched alike |
| Classifiers.TablesAgree | app/risk/scorer.py:67-86 | scorer and policy name the same namespaces and resources |
| Classifiers.AllowedWriteScore | app/risk/scorer.py:156-191 | the score of an allowed write is 1 plus four named residues |
| Classifiers.AllowedIsHigh | app/risk/scorer.py:183-189 | an allowed request is high-risk exactly when it is a write with a residue of at least 3 |
| Classifiers.Calibrated | demo/agent_client.py:293-298 | with plain namespace and resource and an image absent or a string, what the policy allows scores at most 3 |
| Classifiers.AdornedIsHigh | demo/agent_client.py:293-298 | outside that condition an allowed request can be high-risk |
| Classifiers.ReplicasAgree | app/risk/scorer.py:233-243 | the replica point is charged exactly when the Deployment that is built exceeds the threshold |
| Classifiers.ImagesAgree | app/risk/scorer.py:224-230 | the image point is charged exactly when the image that is built is a non-empty untrusted string |
| Composition.ClusterIsSafe | policies/agent_actions.rego:87-107 | under the shipped policy every call the cluster receives on any run was issued by an execution of an allowed request judged under its id, is never a delete, is granted by the ClusterRole, and carries at most ten replicas and no privilege; admission rejects it exactly as above |
| Composition.ReadonlyOnlyReads | policies/agent_actions.rego:87-90 | an id authenticated as readonly only ever reads |
| Composition.QueueNeedsResidue | app/main.py:299-328 | on every run whatever is enqueued or recorded as pending is an allowed write with a residue of at least 3 |
| Composition.QueueStaysEmpty | demo/agent_client.py:293-298 | on every run of plainly written requests the queue stays empty and no pending record is written |

## Left out

- JWT signing and verification: a token is an arbitrary choice of refused, or accepted with an identity and a role.
- HTTP, FastAPI and httpx: status codes, headers and response bodies other than the kind of response; a reply of OPA is a transport error or a status code with a JSON body.
- The OPA engine: the policy is a function of the input document, and the texts of its reasons are constructors with the values they mention.
- Text: case folding and digits are those of ASCII; lone surrogates in strings are not modelled.
- Numbers: a float is an exact decimal, so rounding, negative zero and literals beyond the range of a float (`1e400`, on which the scorer's `int()` raises an OverflowError that nothing catches, before OPA and without a record) are outside the model; its text form is mantissa and exponent.
- `str()` of a value that is not a string and `repr()` of a string: arbitrary functions of the value.
- The Kubernetes SDK: that it refuses a null container name is modelled; its other client-side validation, which may end a call with a ValueError before or after sending, is an arbitrary answer, and the reshaping of responses is left out.
- Labels, selectors and API versions of the built manifest, which no property here reads.
- Scope of the Gatekeeper constraints: the templates are judged on the pod of the built Deployment wherever it is.
- Clocks: the time stamp of a record and the time a request was queued are arbitrary strings.
- uuid4: a submission is assumed to draw an id not drawn before in the process.
- Torn log writes: they occur in `AuditConcurrency` only; in the protocol a record is stored whole or not at all.
- The summary's table of records: only which records the reader gets is modelled, not how it prints them.
- Cancellation of a handler while it awaits OPA, and more than one process: each process has a queue of its own.
- Method boundaries: the scorer's target part, and the halves of the two handlers, are methods of their own here.
- `ai_agent_client.py`, the demo, the structured logger, Falco rules, the Helm chart and the copies of the policy in it.
