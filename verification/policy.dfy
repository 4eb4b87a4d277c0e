/** The authorization policy as Rego rules over one input document (policies/agent_actions.rego). */
module Policy {
  import opened JsonValues

  datatype Input = Input(
    identity: string,
    role: string,
    action: string,
    resource: string,
    namespace: string,
    riskLevel: string,
    params: Members)

  const READ_ONLY_ACTIONS: set<string> := {"get", "list", "watch"}
  const WRITE_ACTIONS: set<string> := {"create", "update", "patch", "apply"}
  const DELETE_ACTIONS: set<string> := {"delete", "replace", "exec"}

  const PRIVILEGED_NAMESPACES: set<string> := {"kube-system", "kube-public", "kube-node-lease"}

  const SENSITIVE_RESOURCES: set<string> := {
    "secret", "secrets", "role", "roles", "rolebinding", "rolebindings",
    "clusterrole", "clusterroles", "clusterrolebinding", "clusterrolebindings",
    "serviceaccount", "serviceaccounts"
  }

  const TRUSTED_PREFIXES: seq<string> :=
    ["nginx:", "python:", "alpine:", "busybox:", "gcr.io/", "quay.io/", "registry.k8s.io/"]

  const MAX_REPLICAS: nat := 10

  // ----- Layer 4: the payload -----

  datatype Violation =
    | Privileged
    | HostNetwork
    | HostPID
    | HostIPC
    | UntrustedImage(image: Json)
    | TooManyReplicas(replicas: Json)

  /** A partial-set rule: its element when the body holds, nothing otherwise. */
  function Contains<T(==)>(body: bool, msg: T): set<T> {
    if body then {msg} else {}
  }

  predicate IsTrue(ps: Members, field: string) {
    Get(ps, field) == Some(Bool(true))
  }

  /** `startswith` is undefined on a value that is not a string, so such an image is not trusted. */
  predicate TrustedImage(image: Json) {
    image.Str? && exists i :: 0 <= i < |TRUSTED_PREFIXES| && TRUSTED_PREFIXES[i] <= image.s
  }

  predicate BadImage(image: Json) {
    image != Str("") && image != Null && !TrustedImage(image)
  }

  function ImageViolations(ps: Members): set<Violation> {
    match Get(ps, "image")
    case Some(image) => Contains(BadImage(image), UntrustedImage(image))
    case None => {}
  }

  function ReplicaViolations(ps: Members): set<Violation> {
    match Get(ps, "replicas")
    case Some(r) => Contains(RegoGreater(r, MAX_REPLICAS), TooManyReplicas(r))
    case None => {}
  }

  function PayloadViolations(i: Input): set<Violation> {
    if i.action in WRITE_ACTIONS then
      Contains(IsTrue(i.params, "privileged"), Privileged)
      + Contains(IsTrue(i.params, "hostNetwork"), HostNetwork)
      + Contains(IsTrue(i.params, "hostPID"), HostPID)
      + Contains(IsTrue(i.params, "hostIPC"), HostIPC)
      + ImageViolations(i.params)
      + ReplicaViolations(i.params)
    else {}
  }

  /** What a payload without violations looks like. */
  predicate CleanPayload(ps: Members) {
    && !IsTrue(ps, "privileged")
    && !IsTrue(ps, "hostNetwork")
    && !IsTrue(ps, "hostPID")
    && !IsTrue(ps, "hostIPC")
    && (Get(ps, "image").Some? ==> !BadImage(Get(ps, "image").value))
    && (Get(ps, "replicas").Some? ==> !RegoGreater(Get(ps, "replicas").value, MAX_REPLICAS))
  }

  lemma CleanMeansNoViolation(i: Input)
    requires i.action in WRITE_ACTIONS
    ensures PayloadViolations(i) == {} <==> CleanPayload(i.params)
  {
    var ps := i.params;
    if !CleanPayload(ps) {
      assert exists v :: v in PayloadViolations(i) by {
        if IsTrue(ps, "privileged") { assert Privileged in PayloadViolations(i); }
        else if IsTrue(ps, "hostNetwork") { assert HostNetwork in PayloadViolations(i); }
        else if IsTrue(ps, "hostPID") { assert HostPID in PayloadViolations(i); }
        else if IsTrue(ps, "hostIPC") { assert HostIPC in PayloadViolations(i); }
        else if Get(ps, "image").Some? && BadImage(Get(ps, "image").value) {
          assert UntrustedImage(Get(ps, "image").value) in PayloadViolations(i);
        } else {
          assert TooManyReplicas(Get(ps, "replicas").value) in PayloadViolations(i);
        }
      }
    }
  }

  // ----- The decision -----

  predicate Allow(i: Input) {
    || (i.role in {"readonly"} && i.action in READ_ONLY_ACTIONS)
    || (i.role in {"deployer"} && i.action in READ_ONLY_ACTIONS)
    || (&& i.role in {"deployer"}
        && i.action in WRITE_ACTIONS
        && i.namespace !in PRIVILEGED_NAMESPACES
        && i.resource !in SENSITIVE_RESOURCES
        && PayloadViolations(i) == {})
  }

  datatype DenyReason =
    | NeverPermitted(action: string)
    | ControlPlane(namespace: string)
    | ReadonlyVerb(action: string)
    | SensitiveResource(resource: string)
    | UnknownRole(role: string)
    | Payload(violation: Violation)

  function DenyReasons(i: Input): set<DenyReason> {
    Contains(i.action in DELETE_ACTIONS, NeverPermitted(i.action))
    + Contains(i.namespace in PRIVILEGED_NAMESPACES && i.action in WRITE_ACTIONS, ControlPlane(i.namespace))
    + Contains(i.role == "readonly" && i.action !in READ_ONLY_ACTIONS, ReadonlyVerb(i.action))
    + Contains(i.role == "deployer" && i.action in WRITE_ACTIONS && i.resource in SENSITIVE_RESOURCES,
               SensitiveResource(i.resource))
    + Contains(i.role !in {"readonly", "deployer"}, UnknownRole(i.role))
    + (set v | v in PayloadViolations(i) :: Payload(v))
  }

  datatype Reason = AllowedByPolicy | Joined(reasons: set<DenyReason>) | DefaultDeny

  /** The complete rule `reason`: every value one of its three bodies yields. */
  function ReasonValues(i: Input): set<Reason> {
    Contains(Allow(i), AllowedByPolicy)
    + Contains(!Allow(i) && |DenyReasons(i)| > 0, Joined(DenyReasons(i)))
    + Contains(!Allow(i) && |DenyReasons(i)| == 0, DefaultDeny)
  }

  // ----- Explanations are sound and complete -----

  /** Each reason is given exactly when its layer objects. */
  lemma VerbReason(i: Input, text: string)
    ensures NeverPermitted(text) in DenyReasons(i) <==> text == i.action && text in {"delete", "replace", "exec"}
  {
  }

  lemma NamespaceReason(i: Input, text: string)
    ensures ControlPlane(text) in DenyReasons(i) <==>
              text == i.namespace && text in PRIVILEGED_NAMESPACES && i.action in {"create", "update", "patch", "apply"}
  {
  }

  lemma ResourceReason(i: Input, text: string)
    ensures SensitiveResource(text) in DenyReasons(i) <==>
              && text == i.resource && text in SENSITIVE_RESOURCES
              && i.role == "deployer" && i.action in {"create", "update", "patch", "apply"}
  {
  }

  lemma ReadonlyReason(i: Input, text: string)
    ensures ReadonlyVerb(text) in DenyReasons(i) <==>
              text == i.action && i.role == "readonly" && text !in {"get", "list", "watch"}
  {
  }

  lemma RoleReason(i: Input, text: string)
    ensures UnknownRole(text) in DenyReasons(i) <==> text == i.role && text != "readonly" && text != "deployer"
  {
  }

  lemma PayloadReason(i: Input, v: Violation)
    ensures Payload(v) in DenyReasons(i) <==> v in PayloadViolations(i)
  {
  }

  /** Each violation is found exactly where the payload has it, and carries the offending value. */
  lemma FlagViolations(i: Input)
    requires i.action in WRITE_ACTIONS
    ensures Privileged in PayloadViolations(i) <==> Get(i.params, "privileged") == Some(Bool(true))
    ensures HostNetwork in PayloadViolations(i) <==> Get(i.params, "hostNetwork") == Some(Bool(true))
    ensures HostPID in PayloadViolations(i) <==> Get(i.params, "hostPID") == Some(Bool(true))
    ensures HostIPC in PayloadViolations(i) <==> Get(i.params, "hostIPC") == Some(Bool(true))
  {
  }

  lemma ImageViolation(i: Input, j: Json)
    requires i.action in WRITE_ACTIONS
    ensures UntrustedImage(j) in PayloadViolations(i) <==>
              && Get(i.params, "image") == Some(j) && j != Null && j != Str("")
              && !(j.Str? && exists k :: 0 <= k < |TRUSTED_PREFIXES| && TRUSTED_PREFIXES[k] <= j.s)
  {
  }

  lemma ReplicaViolation(i: Input, j: Json)
    requires i.action in WRITE_ACTIONS
    ensures TooManyReplicas(j) in PayloadViolations(i) <==> Get(i.params, "replicas") == Some(j) && RegoGreater(j, 10)
  {
  }

  /** The whole decision: read verbs for both roles, clean writes outside the protected places for the deployer. */
  lemma AllowExactly(i: Input)
    ensures Allow(i) <==>
            || (i.role in {"readonly", "deployer"} && i.action in {"get", "list", "watch"})
            || (&& i.role == "deployer" && i.action in {"create", "update", "patch", "apply"}
                && i.namespace !in PRIVILEGED_NAMESPACES && i.resource !in SENSITIVE_RESOURCES
                && CleanPayload(i.params))
  {
    if i.action in WRITE_ACTIONS {
      CleanMeansNoViolation(i);
    }
  }

  lemma AllowHasNoReason(i: Input)
    requires Allow(i)
    ensures DenyReasons(i) == {}
  {
    if i.action in READ_ONLY_ACTIONS {
      assert i.action !in WRITE_ACTIONS && i.action !in DELETE_ACTIONS;
    } else {
      assert i.action !in DELETE_ACTIONS;
    }
  }

  /** A denial is left unexplained exactly for a deployer verb outside the ten known ones. */
  lemma UnexplainedDenial(i: Input)
    ensures !Allow(i) && DenyReasons(i) == {} <==>
            i.role == "deployer" && i.action !in READ_ONLY_ACTIONS + WRITE_ACTIONS + DELETE_ACTIONS
  {
    if i.role !in {"readonly", "deployer"} {
      assert UnknownRole(i.role) in DenyReasons(i);
    } else if i.action in READ_ONLY_ACTIONS {
      assert Allow(i);
    } else if i.role == "readonly" {
      assert ReadonlyVerb(i.action) in DenyReasons(i);
    } else if i.action in DELETE_ACTIONS {
      assert NeverPermitted(i.action) in DenyReasons(i);
    } else if i.action in WRITE_ACTIONS {
      if !Allow(i) {
        DeniedWriteIsExplained(i);
      }
    } else {
      assert PayloadViolations(i) == {};
    }
  }

  lemma DeniedWriteIsExplained(i: Input)
    requires i.role == "deployer" && i.action in WRITE_ACTIONS && !Allow(i)
    ensures DenyReasons(i) != {}
  {
    if i.namespace in PRIVILEGED_NAMESPACES {
      assert ControlPlane(i.namespace) in DenyReasons(i);
    } else if i.resource in SENSITIVE_RESOURCES {
      assert SensitiveResource(i.resource) in DenyReasons(i);
    } else {
      var v :| v in PayloadViolations(i);
      assert Payload(v) in DenyReasons(i);
    }
  }

  /** The three bodies of `reason` never disagree and never all fail. */
  lemma ReasonIsUnique(i: Input)
    ensures exists r :: ReasonValues(i) == {r} && (r == AllowedByPolicy <==> Allow(i))
  {
    var r := if Allow(i) then AllowedByPolicy
             else if |DenyReasons(i)| > 0 then Joined(DenyReasons(i)) else DefaultDeny;
    assert ReasonValues(i) == {r};
  }

  // ----- The policy as an answering service -----

  /** A 2xx answer of the service carries the value of `allow`, which has a default and so is always defined. */
  predicate Answers(i: Input, body: Json) {
    && body.Obj?
    && Get(body.members, "result").Some?
    && Get(body.members, "result").value.Obj?
    && Get(Get(body.members, "result").value.members, "allow") == Some(Bool(Allow(i)))
  }
}
