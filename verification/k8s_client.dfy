/** The only module that talks to the Kubernetes API (app/k8s/client.py). */
module K8sClient {
  import opened JsonValues
  import Text

  // ----- Manifests, as the SDK objects that are sent -----

  /** `privileged` and `allowPrivilegeEscalation` are the two fields of the container security context. */
  datatype Container = Container(
    name: Option<Json>,
    image: Option<Json>,
    port: int,
    requests: Members,
    limits: Members,
    privileged: Option<Json>,
    allowPrivilegeEscalation: bool)

  datatype PodSpec = PodSpec(
    containers: seq<Container>,
    initContainers: seq<Container>,
    hostNetwork: Option<Json>,
    hostPID: Option<Json>,
    hostIPC: Option<Json>,
    runAsNonRoot: bool,
    runAsUser: int)

  datatype Deployment = Deployment(name: Json, replicas: int, template: PodSpec)

  // ----- Calls and their outcomes -----

  datatype ApiCall =
    | ListPods(namespace: string)
    | ReadPod(name: string, namespace: string)
    | DeletePod(name: string, namespace: string)
    | ListDeployments(namespace: string)
    | ReadDeployment(name: string, namespace: string)
    | CreateDeployment(namespace: string, body: Deployment)
    | PatchDeployment(name: string, namespace: string, body: Deployment)
    | DeleteDeployment(name: string, namespace: string)
    | ListSecrets(namespace: string)
    | ListNamespaces
    | ListConfigMaps(namespace: string)

  /** A computation that may raise. */
  datatype Raising<+T> = Returns(value: T) | RaisesValueError | RaisesTypeError

  function Require(cfg: Settings, ps: Members, key: string): Raising<string> {
    var value := GetOr(ps, key, Str(""));
    if Truthy(value) then Returns(PyStr(cfg, value)) else RaisesValueError
  }

  function ToInt(j: Json): Raising<int> {
    match PyInt(j)
    case Value(n) => Returns(n)
    case ValueError => RaisesValueError
    case TypeError => RaisesTypeError
  }

  /** A None attribute of an SDK object is left out of the request. */
  function Attribute(j: Json): Option<Json> {
    if j == Null then None else Some(j)
  }

  function PodTemplate(ps: Members, port: int): PodSpec {
    var container := Container(
      Attribute(GetOr(ps, "name", Str("gateway-managed-app"))),
      Attribute(GetOr(ps, "image", Str("nginx:alpine"))),
      port,
      [("cpu", GetOr(ps, "cpu_request", Str("50m"))), ("memory", GetOr(ps, "memory_request", Str("64Mi")))],
      [("cpu", GetOr(ps, "cpu_limit", Str("200m"))), ("memory", GetOr(ps, "memory_limit", Str("128Mi")))],
      Some(Bool(false)),
      false);
    PodSpec([container], [], None, None, None, true, 65534)
  }

  /** The SDK refuses a container whose name is None. */
  function Manifest(ps: Members, replicas: int, port: int): Raising<Deployment> {
    var name := GetOr(ps, "name", Str("gateway-managed-app"));
    if name == Null then RaisesValueError else Returns(Deployment(name, replicas, PodTemplate(ps, port)))
  }

  function BuildDeployment(ps: Members): Raising<Deployment> {
    match ToInt(GetOr(ps, "replicas", Int(1)))
    case RaisesValueError => RaisesValueError
    case RaisesTypeError => RaisesTypeError
    case Returns(replicas) =>
      match ToInt(GetOr(ps, "container_port", Int(80)))
      case RaisesValueError => RaisesValueError
      case RaisesTypeError => RaisesTypeError
      case Returns(port) => Manifest(ps, replicas, port)
  }

  function Named(cfg: Settings, ps: Members, call: string -> ApiCall): Raising<ApiCall> {
    match Require(cfg, ps, "name")
    case Returns(name) => Returns(call(name))
    case RaisesValueError => RaisesValueError
    case RaisesTypeError => RaisesTypeError
  }

  function Patch(cfg: Settings, ps: Members, ns: string): Raising<ApiCall> {
    match Require(cfg, ps, "name")
    case RaisesValueError => RaisesValueError
    case RaisesTypeError => RaisesTypeError
    case Returns(name) =>
      match BuildDeployment(ps)
      case RaisesValueError => RaisesValueError
      case RaisesTypeError => RaisesTypeError
      case Returns(body) => Returns(PatchDeployment(name, ns, body))
  }

  function Create(ps: Members, ns: string): Raising<ApiCall> {
    match BuildDeployment(ps)
    case RaisesValueError => RaisesValueError
    case RaisesTypeError => RaisesTypeError
    case Returns(body) => Returns(CreateDeployment(ns, body))
  }

  /** The dispatch table: (action, resource) to the SDK call that is issued. */
  function Dispatch(cfg: Settings, action: string, resource: string, ns: string, ps: Members): Raising<ApiCall> {
    if resource == "pods" || resource == "pod" then
      if action == "list" then Returns(ListPods(ns))
      else if action == "get" then Named(cfg, ps, name => ReadPod(name, ns))
      else if action == "delete" then Named(cfg, ps, name => DeletePod(name, ns))
      else RaisesValueError
    else if resource == "deployments" || resource == "deployment" then
      if action == "list" then Returns(ListDeployments(ns))
      else if action == "get" then Named(cfg, ps, name => ReadDeployment(name, ns))
      else if action == "create" then Create(ps, ns)
      else if action == "update" || action == "patch" then Patch(cfg, ps, ns)
      else if action == "delete" then Named(cfg, ps, name => DeleteDeployment(name, ns))
      else RaisesValueError
    else if resource == "secrets" || resource == "secret" then
      if action == "list" then Returns(ListSecrets(ns)) else RaisesValueError
    else if resource == "namespaces" || resource == "namespace" then
      if action == "list" then Returns(ListNamespaces) else RaisesValueError
    else if resource == "configmaps" || resource == "configmap" then
      if action == "list" then Returns(ListConfigMaps(ns)) else RaisesValueError
    else RaisesValueError
  }

  /** What the dispatcher makes of the request strings. */
  function CleanNamespace(namespace: string): string {
    var ns := Text.Strip(namespace);
    if ns == "" then "default" else ns
  }

  function CallOf(cfg: Settings, action: string, resource: string, namespace: string, ps: Members): Raising<ApiCall> {
    Dispatch(cfg, Text.Normal(action), Text.Normal(resource), CleanNamespace(namespace), ps)
  }

  // ----- Executing -----

  /** What loading the configuration gives; `Unloadable` is any failure other than its absence. */
  datatype Config = Loaded | Missing | Unloadable

  /** How the SDK answers a call. `InvalidValue` is a ValueError, `OtherException` anything but a ValueError and an
      ApiException; both may come before the call is sent, or after. */
  datatype ApiAnswer = Accepted | ApiException | InvalidValue(sent: bool) | OtherException(sent: bool)

  datatype Environment = Environment(config: Config, answer: ApiAnswer)

  predicate Sends(answer: ApiAnswer) {
    match answer
    case InvalidValue(sent) => sent
    case OtherException(sent) => sent
    case _ => true
  }

  /** How `execute_action` ends. */
  datatype Outcome = Success | Unavailable | ActionError | BadRequest | Crash

  function OutcomeOf(env: Environment, call: Raising<ApiCall>): Outcome {
    match env.config
    case Missing => Unavailable
    case Unloadable => Crash
    case Loaded =>
      match call
      case RaisesValueError => BadRequest
      case RaisesTypeError => Crash
      case Returns(_) =>
        match env.answer
        case Accepted => Success
        case ApiException => ActionError
        case InvalidValue(_) => BadRequest
        case OtherException(_) => Crash
  }

  /** The calls the cluster receives: none without a configuration, none when dispatching raises or the SDK refuses to
      send, else exactly one. */
  function Issued(env: Environment, call: Raising<ApiCall>): seq<ApiCall> {
    if env.config.Loaded? && call.Returns? && Sends(env.answer) then [call.value] else []
  }

  /** A success, and an error that the API reports, come only of a call that was sent; nothing is sent without a
      configuration or without a call to send, nor when the SDK refuses it. */
  lemma AnswersNeedCalls(env: Environment, call: Raising<ApiCall>)
    ensures OutcomeOf(env, call) in {Success, ActionError} ==> call.Returns? && Issued(env, call) == [call.value]
    ensures OutcomeOf(env, call) == Unavailable ==> Issued(env, call) == []
    ensures !env.config.Loaded? || !call.Returns? ==> Issued(env, call) == []
    ensures env.config.Loaded? && call.Returns? ==>
              match env.answer
              case InvalidValue(sent) => Issued(env, call) == if sent then [call.value] else []
              case OtherException(sent) => Issued(env, call) == if sent then [call.value] else []
              case _ => Issued(env, call) == [call.value]
  {
  }

  /** Which outcome each environment and request ends in. */
  lemma OutcomeTable(env: Environment, call: Raising<ApiCall>)
    ensures OutcomeOf(env, call) == Success <==> env.config.Loaded? && call.Returns? && env.answer.Accepted?
    ensures OutcomeOf(env, call) == ActionError <==> env.config.Loaded? && call.Returns? && env.answer.ApiException?
    ensures OutcomeOf(env, call) == Unavailable <==> env.config.Missing?
    ensures OutcomeOf(env, call) == BadRequest <==>
              env.config.Loaded? && (call.RaisesValueError? || (call.Returns? && env.answer.InvalidValue?))
  {
  }

  /** The cluster as the gateway sees it: the API calls it has received. */
  class Cluster {
    var calls: seq<ApiCall>

    constructor ()
      ensures calls == []
    {
      calls := [];
    }

    method ExecuteAction(cfg: Settings, action: string, resource: string, namespace: string, ps: Members,
                         env: Environment)
      returns (outcome: Outcome)
      modifies this
      ensures var call := CallOf(cfg, action, resource, namespace, ps);
              outcome == OutcomeOf(env, call) && calls == old(calls) + Issued(env, call)
      ensures outcome in {Success, ActionError} ==>
                var call := CallOf(cfg, action, resource, namespace, ps);
                call.Returns? && calls == old(calls) + [call.value]
      ensures outcome == Unavailable ==> calls == old(calls)
    {
      match env.config {
        case Missing => return Unavailable;
        case Unloadable => return Crash;
        case Loaded =>
      }
      var actionLower := Text.Strip(Text.Lower(action));
      var resourceLower := Text.Strip(Text.Lower(resource));
      var namespaceClean := Text.Strip(namespace);
      if namespaceClean == "" {
        namespaceClean := "default";
      }
      var call := Dispatch(cfg, actionLower, resourceLower, namespaceClean, ps);
      match call {
        case RaisesValueError => outcome := BadRequest;
        case RaisesTypeError => outcome := Crash;
        case Returns(issued) =>
          if Sends(env.answer) {
            calls := calls + [issued];
          }
          match env.answer {
            case Accepted => outcome := Success;
            case ApiException => outcome := ActionError;
            case InvalidValue(_) => outcome := BadRequest;
            case OtherException(_) => outcome := Crash;
          }
      }
    }
  }

  // ----- What the dispatch table can issue -----

  predicate IsRead(call: ApiCall) {
    call.ListPods? || call.ReadPod? || call.ListDeployments? || call.ReadDeployment?
    || call.ListSecrets? || call.ListNamespaces? || call.ListConfigMaps?
  }

  predicate IsDelete(call: ApiCall) {
    call.DeletePod? || call.DeleteDeployment?
  }

  predicate IsDeploymentWrite(call: ApiCall) {
    call.CreateDeployment? || call.PatchDeployment?
  }

  /** The kind of call is fixed by the verb. */
  lemma VerbDecidesCall(cfg: Settings, action: string, resource: string, ns: string, ps: Members)
    requires Dispatch(cfg, action, resource, ns, ps).Returns?
    ensures var call := Dispatch(cfg, action, resource, ns, ps).value;
            && (IsRead(call) <==> action in {"get", "list"})
            && (IsDelete(call) <==> action == "delete")
            && (IsDeploymentWrite(call) <==> action in {"create", "update", "patch"})
            && (IsDeploymentWrite(call) ==>
                  call.namespace == ns && BuildDeployment(ps) == Returns(call.body))
            && (call.CreateDeployment? <==> action == "create")
  {
  }

  /** The defaults that make a built template safe whatever the parameters are, and where the parameters go. */
  lemma BuiltTemplate(ps: Members)
    requires BuildDeployment(ps).Returns?
    ensures var d := BuildDeployment(ps).value;
            && d.replicas == PyInt(GetOr(ps, "replicas", Int(1))).n
            && d.name == GetOr(ps, "name", Str("gateway-managed-app")) && d.name != Null
            && |d.template.containers| == 1 && d.template.initContainers == []
            && d.template.runAsNonRoot
    ensures var c := BuildDeployment(ps).value.template.containers[0];
            && c.name.Some? && c.privileged == Some(Bool(false)) && !c.allowPrivilegeEscalation
            && c.image == Attribute(GetOr(ps, "image", Str("nginx:alpine")))
            && c.port == PyInt(GetOr(ps, "container_port", Int(80))).n
    ensures var pod := BuildDeployment(ps).value.template; var c := pod.containers[0];
            && Get(c.requests, "cpu") == Some(GetOr(ps, "cpu_request", Str("50m")))
            && Get(c.requests, "memory") == Some(GetOr(ps, "memory_request", Str("64Mi")))
            && Get(c.limits, "cpu") == Some(GetOr(ps, "cpu_limit", Str("200m")))
            && Get(c.limits, "memory") == Some(GetOr(ps, "memory_limit", Str("128Mi")))
            && pod.runAsUser == 65534 && pod.hostNetwork == pod.hostPID == pod.hostIPC == None
  {
    TwoMembers(GetOr(ps, "cpu_request", Str("50m")), GetOr(ps, "memory_request", Str("64Mi")));
    TwoMembers(GetOr(ps, "cpu_limit", Str("200m")), GetOr(ps, "memory_limit", Str("128Mi")));
  }

  lemma TwoMembers(cpu: Json, memory: Json)
    ensures var ms: Members := [("cpu", cpu), ("memory", memory)];
            Get(ms, "cpu") == Some(cpu) && Get(ms, "memory") == Some(memory)
  {
    var ms: Members := [("cpu", cpu), ("memory", memory)];
    assert ms[1..] == [("memory", memory)];
  }

  /** Building fails exactly on the first of these: a replica count or port that is null, an array or an object, for a
      TypeError, or a string that is no numeral, for a ValueError; then a null name. */
  lemma BuildFails(ps: Members)
    ensures var replicas, port := GetOr(ps, "replicas", Int(1)), GetOr(ps, "container_port", Int(80));
            && (BuildDeployment(ps).RaisesTypeError? <==>
                  NotScalar(replicas) || (!NotNumeral(replicas) && NotScalar(port)))
            && (BuildDeployment(ps).RaisesValueError? <==>
                  || NotNumeral(replicas)
                  || (!NotScalar(replicas) && NotNumeral(port))
                  || (!NotScalar(replicas) && !NotScalar(port) && Get(ps, "name") == Some(Null)))
  {
    IntRaises(GetOr(ps, "replicas", Int(1)));
    IntRaises(GetOr(ps, "container_port", Int(80)));
  }

  // ----- The gateway's ClusterRole -----

  datatype Rule = Rule(apiGroup: string, resources: set<string>, verbs: set<string>)

  const CLUSTER_ROLE: seq<Rule> := [
    Rule("", {"pods"}, {"get", "list", "watch"}),
    Rule("apps", {"deployments"}, {"get", "list", "watch", "create", "update", "patch"}),
    Rule("", {"secrets"}, {"list"}),
    Rule("", {"namespaces", "configmaps"}, {"list"})
  ]

  predicate Granted(apiGroup: string, resource: string, verb: string) {
    exists i :: 0 <= i < |CLUSTER_ROLE|
      && CLUSTER_ROLE[i].apiGroup == apiGroup
      && resource in CLUSTER_ROLE[i].resources
      && verb in CLUSTER_ROLE[i].verbs
  }

  /** The API group, resource and verb an SDK call is authorised as. */
  function Authorisation(call: ApiCall): (string, string, string) {
    match call
    case ListPods(_) => ("", "pods", "list")
    case ReadPod(_, _) => ("", "pods", "get")
    case DeletePod(_, _) => ("", "pods", "delete")
    case ListDeployments(_) => ("apps", "deployments", "list")
    case ReadDeployment(_, _) => ("apps", "deployments", "get")
    case CreateDeployment(_, _) => ("apps", "deployments", "create")
    case PatchDeployment(_, _, _) => ("apps", "deployments", "patch")
    case DeleteDeployment(_, _) => ("apps", "deployments", "delete")
    case ListSecrets(_) => ("", "secrets", "list")
    case ListNamespaces => ("", "namespaces", "list")
    case ListConfigMaps(_) => ("", "configmaps", "list")
  }

  predicate CallGranted(call: ApiCall) {
    var (group, resource, verb) := Authorisation(call);
    Granted(group, resource, verb)
  }

  /** The role covers the whole dispatch table except the deletes, and grants no delete. */
  lemma RoleCoversAllButDeletes(call: ApiCall)
    ensures CallGranted(call) <==> !IsDelete(call)
  {
    var (group, resource, verb) := Authorisation(call);
    if IsDelete(call) {
      assert forall i :: 0 <= i < |CLUSTER_ROLE| ==> verb !in CLUSTER_ROLE[i].verbs;
    } else {
      var i := if group == "apps" then 1
               else if resource == "pods" then 0
               else if resource == "secrets" then 2 else 3;
      assert resource in CLUSTER_ROLE[i].resources && verb in CLUSTER_ROLE[i].verbs;
    }
  }

  // ----- The call answers the request -----

  /** The (resource, verb) pairs of the dispatch table. */
  const SUPPORTED: set<(string, string)> := {
    ("pods", "list"), ("pods", "get"), ("pods", "delete"),
    ("deployments", "list"), ("deployments", "get"), ("deployments", "create"), ("deployments", "patch"),
    ("deployments", "delete"), ("secrets", "list"), ("namespaces", "list"), ("configmaps", "list")
  }

  function Plural(resource: string): string {
    if resource == "pod" then "pods"
    else if resource == "deployment" then "deployments"
    else if resource == "secret" then "secrets"
    else if resource == "namespace" then "namespaces"
    else if resource == "configmap" then "configmaps"
    else resource
  }

  /** The API verb of a request verb: an update is sent as a patch. */
  function ApiVerb(action: string): string {
    if action == "update" then "patch" else action
  }

  predicate TakesName(verb: string) {
    verb in {"get", "patch", "delete"}
  }

  function NameOf(call: ApiCall): Option<string> {
    match call
    case ReadPod(name, _) => Some(name)
    case DeletePod(name, _) => Some(name)
    case ReadDeployment(name, _) => Some(name)
    case PatchDeployment(name, _, _) => Some(name)
    case DeleteDeployment(name, _) => Some(name)
    case _ => None
  }

  predicate InNamespace(call: ApiCall, ns: string) {
    match call
    case ListPods(n) => n == ns
    case ReadPod(_, n) => n == ns
    case DeletePod(_, n) => n == ns
    case ListDeployments(n) => n == ns
    case ReadDeployment(_, n) => n == ns
    case CreateDeployment(n, _) => n == ns
    case PatchDeployment(_, n, _) => n == ns
    case DeleteDeployment(_, n) => n == ns
    case ListSecrets(n) => n == ns
    case ListNamespaces => true
    case ListConfigMaps(n) => n == ns
  }

  /** The call that is issued is authorised as the requested verb on the requested resource, in the requested namespace
      and under the requested name. */
  lemma CallAnswersRequest(cfg: Settings, action: string, resource: string, ns: string, ps: Members)
    requires Dispatch(cfg, action, resource, ns, ps).Returns?
    ensures var call := Dispatch(cfg, action, resource, ns, ps).value;
            && Authorisation(call).1 == Plural(resource) && Authorisation(call).2 == ApiVerb(action)
            && InNamespace(call, ns)
            && NameOf(call) == if TakesName(ApiVerb(action)) then Some(PyStr(cfg, GetOr(ps, "name", Str("")))) else None
  {
  }

  /** Dispatching succeeds exactly for a pair of the table, given a name where one is taken and a Deployment that can be
      built where one is sent. */
  lemma DispatchSucceeds(cfg: Settings, action: string, resource: string, ns: string, ps: Members)
    ensures Dispatch(cfg, action, resource, ns, ps).Returns? <==>
            && (Plural(resource), ApiVerb(action)) in SUPPORTED
            && (TakesName(ApiVerb(action)) ==> Truthy(GetOr(ps, "name", Str(""))))
            && (ApiVerb(action) in {"create", "patch"} ==> BuildDeployment(ps).Returns?)
  {
    var kind, verb := Plural(resource), ApiVerb(action);
    if kind == "pods" {
      assert (kind, verb) in SUPPORTED <==> verb in {"list", "get", "delete"};
    } else if kind == "deployments" {
      assert (kind, verb) in SUPPORTED <==> verb in {"list", "get", "create", "patch", "delete"};
    } else {
      assert (kind, verb) in SUPPORTED <==> kind in {"secrets", "namespaces", "configmaps"} && verb == "list";
    }
  }

  /** The call of a request: the dispatcher reads verb and resource in any case and with any padding, and takes white
      space around the namespace away; a namespace of nothing but white space is the default one. */
  lemma RequestedCall(cfg: Settings, action: string, resource: string, namespace: string, ps: Members,
                      verb: string, kind: string, ns: string)
    requires Text.Respelled(action, verb) && Text.NoUpperCase(verb) && Text.Unpadded(verb)
    requires Text.Respelled(resource, kind) && Text.NoUpperCase(kind) && Text.Unpadded(kind)
    requires Text.PaddedWith(namespace, ns) && Text.Unpadded(ns)
    ensures CallOf(cfg, action, resource, namespace, ps)
         == Dispatch(cfg, verb, kind, if ns == "" then "default" else ns, ps)
    ensures var call := CallOf(cfg, action, resource, namespace, ps);
            call.Returns? ==>
              && Authorisation(call.value).1 == Plural(kind) && Authorisation(call.value).2 == ApiVerb(verb)
              && InNamespace(call.value, if ns == "" then "default" else ns)
  {
    Text.NormalIdempotent(action, verb);
    Text.NormalIdempotent(resource, kind);
    Text.StripExactly(namespace, ns);
    if Dispatch(cfg, verb, kind, if ns == "" then "default" else ns, ps).Returns? {
      CallAnswersRequest(cfg, verb, kind, if ns == "" then "default" else ns, ps);
    }
  }
}
