/** The policy and the scorer read one request differently: the policy lower-cases and compares across types, the scorer
    also strips and converts. The dispatcher and the builder read it a third way. These lemmas relate the readings. */
module Classifiers {
  import opened JsonValues
  import opened K8sClient
  import opened Lifecycle
  import Admission
  import Policy
  import Scorer
  import Text

  // ----- Verbs and namespaces -----

  lemma PlainWords()
    ensures forall v :: v in Policy.READ_ONLY_ACTIONS + Policy.WRITE_ACTIONS ==> Text.Unpadded(v)
    ensures forall n :: n in Policy.PRIVILEGED_NAMESPACES ==> Text.Unpadded(n) && Text.Lower(n) == n
  {
    assert Text.Lower("kube-system") == "kube-system";
    assert Text.Lower("kube-public") == "kube-public";
    assert Text.Lower("kube-node-lease") == "kube-node-lease";
  }

  /** An allowed verb carries no whitespace, so policy, scorer and dispatcher see the same verb. */
  lemma AllowedVerb(snap: Snap)
    requires Policy.Allow(InputOf(snap))
    ensures Text.Normal(snap.action) == Text.Lower(snap.action)
    ensures Text.Lower(snap.action) in Policy.READ_ONLY_ACTIONS + Policy.WRITE_ACTIONS
    ensures Text.Lower(snap.action) in Policy.READ_ONLY_ACTIONS || Policy.CleanPayload(snap.params)
  {
    PlainWords();
    Text.StripFixes(Text.Lower(snap.action));
    if Text.Lower(snap.action) in Policy.WRITE_ACTIONS {
      Policy.CleanMeansNoViolation(InputOf(snap));
      assert "get" !in Policy.WRITE_ACTIONS && "list" !in Policy.WRITE_ACTIONS && "watch" !in Policy.WRITE_ACTIONS;
    }
  }

  /** The tables of policy and scorer name the same namespaces and resources. */
  lemma TablesAgree()
    ensures Policy.PRIVILEGED_NAMESPACES == Scorer.HIGH_RISK_NAMESPACES
         == {"kube-system", "kube-public", "kube-node-lease"}
    ensures Policy.SENSITIVE_RESOURCES == Scorer.SENSITIVE_RESOURCES
  {
  }

  /** The same request in another case: `other` differs from `snap` in the case of letters of verb, resource and
      namespace at most. */
  predicate Recased(snap: Snap, other: Snap) {
    && other == snap.(action := other.action, resource := other.resource, namespace := other.namespace)
    && Text.SameUpToCase(snap.action, other.action)
    && Text.SameUpToCase(snap.resource, other.resource)
    && Text.SameUpToCase(snap.namespace, other.namespace)
  }

  lemma RecasedIsRespelled(s: string, t: string)
    requires Text.SameUpToCase(s, t)
    ensures Text.Respelled(s, t)
  {
    Text.LowerFolds(s, t);
    Text.NormalFolds(s, t);
  }

  /** Scorer and policy judge both alike, and the dispatcher makes the same call of both but for the namespace, whose
      case it keeps. */
  lemma CaseIsIrrelevant(cfg: Settings, snap: Snap, other: Snap)
    requires Recased(snap, other)
    ensures RiskOf(cfg, snap) == RiskOf(cfg, other)
    ensures Policy.Allow(InputOf(snap)) <==> Policy.Allow(InputOf(other))
    ensures CallOf(cfg, snap.action, snap.resource, snap.namespace, snap.params)
         == CallOf(cfg, other.action, other.resource, snap.namespace, snap.params)
  {
    Text.LowerFolds(snap.action, other.action);
    Text.LowerFolds(snap.resource, other.resource);
    Text.LowerFolds(snap.namespace, other.namespace);
    RecasedIsRespelled(snap.action, other.action);
    RecasedIsRespelled(snap.resource, other.resource);
    RecasedIsRespelled(snap.namespace, other.namespace);
    Scorer.SpellingIrrelevant(cfg, snap.action, snap.resource, snap.namespace,
                              other.action, other.resource, other.namespace, snap.params);
    Text.NormalFolds(snap.action, other.action);
    Text.NormalFolds(snap.resource, other.resource);
  }

  /** The namespace as the dispatcher and the scorer see it is a control-plane namespace, in some spelling. */
  predicate ControlPlane(namespace: string) {
    Text.Lower(Text.Strip(namespace)) in Policy.PRIVILEGED_NAMESPACES
  }

  predicate CleanWrite(snap: Snap) {
    && snap.role == "deployer"
    && Text.Lower(snap.action) in Policy.WRITE_ACTIONS
    && Text.Lower(snap.resource) !in Policy.SENSITIVE_RESOURCES
    && Policy.CleanPayload(snap.params)
  }

  /** The control-plane rule holds exactly for a namespace without surrounding whitespace: of the otherwise clean
      writes aimed at a control-plane namespace, the policy allows those whose namespace is padded and no others. */
  lemma ControlPlaneGate(snap: Snap)
    requires CleanWrite(snap) && ControlPlane(snap.namespace)
    ensures Policy.Allow(InputOf(snap)) <==> !Text.Unpadded(snap.namespace)
  {
    PlainWords();
    Policy.CleanMeansNoViolation(InputOf(snap));
    assert Text.Lower(snap.action) !in Policy.READ_ONLY_ACTIONS;
    Text.LowerKeepsPadding(snap.namespace);
    Text.StripFixes(snap.namespace);
  }

  const PADDED := Snap("agent", "deployer", "create", "deployments", " kube-system", [],
                       Scorer.RiskScore("", 0, []))

  const ADORNED := PADDED.(params := [("hostPath", Bool(true))])

  lemma PaddedName()
    ensures Text.Strip(" kube-system") == "kube-system" == Text.Lower("kube-system")
    ensures Text.Normal(" kube-system") == "kube-system" && !Text.Unpadded(" kube-system")
  {
    var ns := " kube-system";
    assert ns[1..] == "kube-system";
    assert Text.LStrip(ns) == "kube-system";
    Text.StripLower(ns);
    assert Text.Lower("kube-system") == "kube-system";
  }

  lemma PaddedIsClean()
    ensures CleanWrite(PADDED) && CleanWrite(ADORNED)
    ensures Text.Normal("create") == Text.Lower("create") == "create"
    ensures Text.Normal("deployments") == "deployments"
  {
    assert Text.Lower("create") == "create" && Text.Lower("deployments") == "deployments";
    Scorer.AlreadyNormal("create");
    Scorer.AlreadyNormal("deployments");
  }

  lemma PaddedIsAllowed()
    ensures Policy.Allow(InputOf(PADDED)) && Policy.Allow(InputOf(ADORNED))
  {
    PaddedName();
    PaddedIsClean();
    ControlPlaneGate(PADDED);
    ControlPlaneGate(ADORNED);
  }

  lemma CreateDefault(cfg: Settings, ns: string)
    ensures var call := Dispatch(cfg, "create", "deployments", ns, []);
            call.Returns? && call.value.CreateDeployment? && call.value.namespace == ns
  {
  }

  /** One such write: it is allowed, and dispatched to the namespace without the blank. */
  lemma PaddedNamespaceIsDispatched(cfg: Settings)
    ensures Policy.Allow(InputOf(PADDED))
    ensures var call := CallOf(cfg, PADDED.action, PADDED.resource, PADDED.namespace, PADDED.params);
            call.Returns? && call.value.CreateDeployment? && call.value.namespace == "kube-system"
  {
    PaddedIsAllowed();
    PaddedName();
    PaddedIsClean();
    CreateDefault(cfg, "kube-system");
  }

  // ----- The policy and the dispatcher -----

  /** A Deployment no request allowed by the policy may exceed. */
  predicate SafeManifest(d: Deployment) {
    && d.replicas <= Policy.MAX_REPLICAS
    && |d.template.containers| == 1 && d.template.initContainers == []
    && d.template.containers[0].privileged == Some(Bool(false))
    && !d.template.containers[0].allowPrivilegeEscalation
  }

  /** What an allowed request dispatches to. */
  ghost predicate SafeCall(snap: Snap, call: ApiCall) {
    && (IsRead(call) || IsDeploymentWrite(call)) && !IsDelete(call)
    && CallGranted(call)
    && (snap.role == "readonly" ==> IsRead(call))
    && (IsDeploymentWrite(call) ==>
          && snap.role == "deployer"
          && SafeManifest(call.body)
          && (Text.Unpadded(snap.namespace) ==> Text.Lower(call.namespace) !in Policy.PRIVILEGED_NAMESPACES)
          && (Admission.Rejected(Admission.SHIPPED_REPOS, call.body.template) <==> Admission.Unadmittable(snap.params)))
  }

  lemma CleanManifest(ps: Members)
    requires Policy.CleanPayload(ps) && BuildDeployment(ps).Returns?
    ensures SafeManifest(BuildDeployment(ps).value)
    ensures Admission.Rejected(Admission.SHIPPED_REPOS, BuildDeployment(ps).value.template)
            <==> Admission.Unadmittable(ps)
  {
    BuiltTemplate(ps);
    Admission.ShippedReposCover();
    Admission.CleanBuildAdmitted(Admission.SHIPPED_REPOS, ps);
    var replicas := GetOr(ps, "replicas", Int(1));
    assert !RegoGreater(replicas, Policy.MAX_REPLICAS);
    IntWithinRegoBound(replicas, Policy.MAX_REPLICAS);
  }

  lemma WriteNamespace(snap: Snap)
    requires Policy.Allow(InputOf(snap)) && Text.Lower(snap.action) in Policy.WRITE_ACTIONS
    requires Text.Unpadded(snap.namespace)
    ensures Text.Lower(CleanNamespace(snap.namespace)) !in Policy.PRIVILEGED_NAMESPACES
  {
    PlainWords();
    Text.StripFixes(snap.namespace);
    assert |Text.Lower("default")| == 7;
  }

  lemma AllowedCall(cfg: Settings, snap: Snap, call: ApiCall)
    requires Policy.Allow(InputOf(snap))
    requires CallOf(cfg, snap.action, snap.resource, snap.namespace, snap.params) == Returns(call)
    ensures SafeCall(snap, call)
  {
    AllowedVerb(snap);
    var verb := Text.Normal(snap.action);
    VerbDecidesCall(cfg, verb, Text.Normal(snap.resource), CleanNamespace(snap.namespace), snap.params);
    RoleCoversAllButDeletes(call);
    if IsDeploymentWrite(call) {
      assert verb in Policy.WRITE_ACTIONS && verb !in Policy.READ_ONLY_ACTIONS;
      CleanManifest(snap.params);
      if Text.Unpadded(snap.namespace) {
        WriteNamespace(snap);
      }
    }
  }

  // ----- The policy and the scorer -----

  /** The settings are in step with the policy: everything the policy trusts the scorer trusts, and the scorer's replica
      threshold is not below the policy's. */
  predicate InStep(cfg: Settings) {
    && (forall i :: 0 <= i < |Policy.TRUSTED_PREFIXES| ==>
          exists k :: 0 <= k < |cfg.trustedImagePrefixes| && cfg.trustedImagePrefixes[k] <= Policy.TRUSTED_PREFIXES[i])
    && cfg.maxReplicasThreshold >= Policy.MAX_REPLICAS
  }

  lemma PrefixesPlain()
    ensures forall i :: 0 <= i < |Policy.TRUSTED_PREFIXES| ==>
              Policy.TRUSTED_PREFIXES[i] != "" && Text.Unpadded(Policy.TRUSTED_PREFIXES[i])
  {
  }

  /** An image the policy trusts is trusted by the scorer, which strips it first. */
  lemma TrustCarriesOver(cfg: Settings, image: Json)
    requires InStep(cfg) && Policy.TrustedImage(image)
    ensures Scorer.TrustedImage(cfg, Text.Strip(image.s))
  {
    var i :| 0 <= i < |Policy.TRUSTED_PREFIXES| && Policy.TRUSTED_PREFIXES[i] <= image.s;
    var k :| 0 <= k < |cfg.trustedImagePrefixes| && cfg.trustedImagePrefixes[k] <= Policy.TRUSTED_PREFIXES[i];
    PrefixesPlain();
    Text.PrefixSurvivesStrip(Policy.TRUSTED_PREFIXES[i], image.s);
  }

  /** An image given as null, whose rendering the scorer does not trust. */
  predicate NullImage(cfg: Settings, ps: Members) {
    Get(ps, "image") == Some(Null) && Scorer.ImageCharged(cfg, ps)
  }

  lemma CleanImage(cfg: Settings, ps: Members)
    requires InStep(cfg) && Policy.CleanPayload(ps)
    ensures Scorer.ImageCharged(cfg, ps) <==> NullImage(cfg, ps)
  {
    var image := GetOr(ps, "image", Str(""));
    if image.Str? {
      if image.s == "" {
        assert Text.Strip("") == "";
      } else {
        TrustCarriesOver(cfg, image);
      }
    }
  }

  lemma CleanReplicas(cfg: Settings, ps: Members)
    requires InStep(cfg) && Policy.CleanPayload(ps)
    ensures !Scorer.ReplicasCharged(cfg, ps)
  {
    var replicas := GetOr(ps, "replicas", Int(1));
    assert !RegoGreater(replicas, Policy.MAX_REPLICAS);
    IntWithinRegoBound(replicas, Policy.MAX_REPLICAS);
  }

  /** What the scorer can still find in a request that the policy allows: a control-plane namespace or a sensitive
      resource that the policy did not recognise because it is padded, a host path, a null image. */
  function Residue(cfg: Settings, snap: Snap): nat {
    Scorer.Points(Text.Normal(snap.namespace) in Scorer.HIGH_RISK_NAMESPACES, 2)
    + Scorer.Points(Text.Normal(snap.resource) in Scorer.SENSITIVE_RESOURCES, 1)
    + Scorer.Points(Scorer.IsTrue(snap.params, "hostPath"), 2)
    + Scorer.Points(NullImage(cfg, snap.params), 1)
  }

  lemma CleanParamPoints(cfg: Settings, ps: Members)
    requires InStep(cfg) && Policy.CleanPayload(ps)
    ensures Scorer.ParamPoints(cfg, ps) ==
              Scorer.Points(Scorer.IsTrue(ps, "hostPath"), 2) + Scorer.Points(NullImage(cfg, ps), 1)
  {
    Scorer.FivePoints(ps);
    CleanImage(cfg, ps);
    CleanReplicas(cfg, ps);
  }

  /** The score of an allowed write is 1 plus that residue. */
  lemma AllowedWriteScore(cfg: Settings, snap: Snap)
    requires InStep(cfg) && Policy.Allow(InputOf(snap)) && Text.Lower(snap.action) !in Policy.READ_ONLY_ACTIONS
    ensures RiskOf(cfg, snap).score == 1 + Residue(cfg, snap)
  {
    AllowedVerb(snap);
    var verb, ps := Text.Normal(snap.action), snap.params;
    Scorer.ScoreInPoints(cfg, snap.action, snap.resource, snap.namespace, ps);
    CleanParamPoints(cfg, ps);
    assert verb in Scorer.WRITE_VERBS && Scorer.ActionWeight(verb) == 1;
  }

  /** An allowed request is high-risk exactly when it is a write whose residue is at least 3. */
  lemma AllowedIsHigh(cfg: Settings, snap: Snap)
    requires InStep(cfg) && Policy.Allow(InputOf(snap))
    ensures RiskOf(cfg, snap).level == Scorer.HIGH <==>
            Text.Lower(snap.action) !in Policy.READ_ONLY_ACTIONS && Residue(cfg, snap) >= 3
  {
    AllowedVerb(snap);
    if Text.Lower(snap.action) in Policy.READ_ONLY_ACTIONS {
      Scorer.ScoreBounds(cfg, snap.action, snap.resource, snap.namespace, snap.params);
    } else {
      AllowedWriteScore(cfg, snap);
    }
  }

  /** Namespace and resource without surrounding whitespace, image absent or a string. */
  predicate Unadorned(snap: Snap) {
    && Text.Unpadded(snap.namespace) && Text.Unpadded(snap.resource)
    && (Get(snap.params, "image").Some? ==> Get(snap.params, "image").value.Str?)
  }

  lemma UnadornedNames(snap: Snap)
    requires Unadorned(snap)
    ensures Text.Normal(snap.namespace) == Text.Lower(snap.namespace)
    ensures Text.Normal(snap.resource) == Text.Lower(snap.resource)
  {
    Text.StripLower(snap.namespace);
    Text.StripLower(snap.resource);
    Text.StripFixes(snap.namespace);
    Text.StripFixes(snap.resource);
  }

  /** Where names are plain, the policy has already refused what the scorer would charge for them. */
  lemma UnadornedResidue(cfg: Settings, snap: Snap)
    requires Policy.Allow(InputOf(snap)) && Text.Lower(snap.action) !in Policy.READ_ONLY_ACTIONS && Unadorned(snap)
    ensures Residue(cfg, snap) <= 2
  {
    UnadornedNames(snap);
  }

  /** For such requests the classifiers are calibrated: what the policy allows scores at most 3, so is never high. */
  lemma Calibrated(cfg: Settings, snap: Snap)
    requires InStep(cfg) && Policy.Allow(InputOf(snap)) && Unadorned(snap)
    ensures RiskOf(cfg, snap).score <= 3 && RiskOf(cfg, snap).level != Scorer.HIGH
  {
    AllowedVerb(snap);
    if Text.Lower(snap.action) in Policy.READ_ONLY_ACTIONS {
      Scorer.ScoreBounds(cfg, snap.action, snap.resource, snap.namespace, snap.params);
    } else {
      AllowedWriteScore(cfg, snap);
      UnadornedResidue(cfg, snap);
    }
  }

  /** Outside them an allowed request can be high-risk, and so reach the queue. */
  lemma AdornedIsHigh(cfg: Settings)
    requires InStep(cfg)
    ensures Policy.Allow(InputOf(ADORNED)) && RiskOf(cfg, ADORNED).level == Scorer.HIGH
  {
    PaddedIsAllowed();
    PaddedName();
    PaddedIsClean();
    assert "create" !in Policy.READ_ONLY_ACTIONS;
    AllowedIsHigh(cfg, ADORNED);
  }

  // ----- The scorer and the builder -----

  /** The replica point is charged exactly when the Deployment that is built exceeds the threshold. */
  lemma ReplicasAgree(cfg: Settings, verb: string, ps: Members)
    requires verb in {"create", "update", "patch"} && cfg.maxReplicasThreshold >= 1
    requires BuildDeployment(ps).Returns?
    ensures Scorer.Inspected(verb, ps) && Scorer.ReplicasCharged(cfg, ps) <==>
            BuildDeployment(ps).value.replicas > cfg.maxReplicasThreshold
  {
    BuiltTemplate(ps);
    assert verb in Scorer.WRITE_VERBS;
  }

  /** The image point is charged exactly when the image that is built is a non-empty untrusted string. */
  lemma ImagesAgree(cfg: Settings, verb: string, ps: Members, image: string)
    requires verb in {"create", "update", "patch"} && Get(ps, "image") == Some(Str(image)) && Text.Unpadded(image)
    requires BuildDeployment(ps).Returns?
    ensures BuildDeployment(ps).value.template.containers[0].image == Some(Str(image))
    ensures Scorer.Inspected(verb, ps) && Scorer.ImageCharged(cfg, ps) <==>
            image != "" && !Scorer.TrustedImage(cfg, image)
  {
    BuiltTemplate(ps);
    Text.StripFixes(image);
    assert ps != [] && verb in Scorer.WRITE_VERBS;
  }
}
