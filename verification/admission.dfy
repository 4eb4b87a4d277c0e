/** The three Gatekeeper constraint templates over the pods of a built Deployment (k8s/gatekeeper/). */
module Admission {
  import opened JsonValues
  import opened K8sClient
  import Policy

  /** The `repos` parameter of the shipped allowed-repos constraint. */
  const SHIPPED_REPOS: seq<string> :=
    ["nginx", "python", "alpine", "busybox", "gcr.io/", "quay.io/", "registry.k8s.io/"]

  // A rule whose message mentions an attribute yields nothing when that attribute is undefined: a container without a
  // name breaks no rule that names it, and one without an image does not break the image rule.

  // ----- K8sAllowedRepos -----

  predicate HasPrefixIn(repos: seq<string>, text: string) {
    exists k :: 0 <= k < |repos| && repos[k] <= text
  }

  /** `startswith` is undefined on a value that is not a string. */
  predicate TrustedImage(repos: seq<string>, image: Json) {
    image.Str? && HasPrefixIn(repos, image.s)
  }

  predicate UntrustedContainer(repos: seq<string>, c: Container) {
    c.name.Some? && c.image.Some? && !TrustedImage(repos, c.image.value)
  }

  predicate ViolatesAllowedRepos(repos: seq<string>, pod: PodSpec) {
    || (exists i :: 0 <= i < |pod.containers| && UntrustedContainer(repos, pod.containers[i]))
    || (exists i :: 0 <= i < |pod.initContainers| && UntrustedContainer(repos, pod.initContainers[i]))
  }

  // ----- K8sNoPrivilegedContainer -----

  predicate PrivilegedContainer(c: Container) {
    c.name.Some? && c.privileged == Some(Bool(true))
  }

  predicate ViolatesNoPrivileged(pod: PodSpec) {
    || (exists i :: 0 <= i < |pod.containers| && PrivilegedContainer(pod.containers[i]))
    || (exists i :: 0 <= i < |pod.initContainers| && PrivilegedContainer(pod.initContainers[i]))
    || pod.hostNetwork == Some(Bool(true))
    || pod.hostPID == Some(Bool(true))
    || pod.hostIPC == Some(Bool(true))
  }

  // ----- K8sRequireLimits -----

  /** Rego's `not container.resources.limits.key`: the value is undefined or false. */
  predicate LacksLimit(c: Container, key: string) {
    c.name.Some? && Get(c.limits, key) in {None, Some(Bool(false))}
  }

  predicate ViolatesRequireLimits(pod: PodSpec) {
    exists i :: 0 <= i < |pod.containers|
      && (LacksLimit(pod.containers[i], "memory") || LacksLimit(pod.containers[i], "cpu"))
  }

  predicate Rejected(repos: seq<string>, pod: PodSpec) {
    ViolatesAllowedRepos(repos, pod) || ViolatesNoPrivileged(pod) || ViolatesRequireLimits(pod)
  }

  /** What is admitted: no host namespace is shared, and every named container is unprivileged, takes its image, if it
      has one, from a repo of the list, and, unless it is an init container, has both limits. */
  predicate FromRepo(repos: seq<string>, image: Json) {
    image.Str? && exists k :: 0 <= k < |repos| && repos[k] <= image.s
  }

  predicate Acceptable(repos: seq<string>, c: Container) {
    c.name.Some? ==>
      && c.privileged != Some(Bool(true))
      && (c.image.Some? ==> FromRepo(repos, c.image.value))
  }

  predicate HasLimit(c: Container, key: string) {
    c.name.Some? ==> Get(c.limits, key).Some? && Get(c.limits, key).value != Bool(false)
  }

  lemma Admitted(repos: seq<string>, pod: PodSpec)
    ensures !Rejected(repos, pod) <==>
            && pod.hostNetwork != Some(Bool(true)) && pod.hostPID != Some(Bool(true)) && pod.hostIPC != Some(Bool(true))
            && (forall i :: 0 <= i < |pod.containers| ==>
                  && Acceptable(repos, pod.containers[i])
                  && HasLimit(pod.containers[i], "memory") && HasLimit(pod.containers[i], "cpu"))
            && (forall i :: 0 <= i < |pod.initContainers| ==> Acceptable(repos, pod.initContainers[i]))
  {
    forall c: Container
      ensures Acceptable(repos, c) <==> !UntrustedContainer(repos, c) && !PrivilegedContainer(c)
      ensures HasLimit(c, "memory") <==> !LacksLimit(c, "memory")
      ensures HasLimit(c, "cpu") <==> !LacksLimit(c, "cpu")
    {
      AcceptableMeans(repos, c);
      LimitMeans(c, "memory");
      LimitMeans(c, "cpu");
    }
  }

  lemma AcceptableMeans(repos: seq<string>, c: Container)
    ensures Acceptable(repos, c) <==> !UntrustedContainer(repos, c) && !PrivilegedContainer(c)
  {
    if c.image.Some? {
      RepoMeans(repos, c.image.value);
    }
  }

  lemma RepoMeans(repos: seq<string>, image: Json)
    ensures FromRepo(repos, image) <==> TrustedImage(repos, image)
  {
    if FromRepo(repos, image) {
      var k :| 0 <= k < |repos| && repos[k] <= image.s;
      assert HasPrefixIn(repos, image.s);
    }
    if TrustedImage(repos, image) {
      var k :| 0 <= k < |repos| && repos[k] <= image.s;
    }
  }

  lemma LimitMeans(c: Container, key: string)
    ensures HasLimit(c, key) <==> !LacksLimit(c, key)
  {
    match Get(c.limits, key)
    case None => assert Get(c.limits, key) == None;
    case Some(v) => assert Get(c.limits, key) == Some(Bool(false)) <==> v == Bool(false);
  }

  // ----- The gateway refines admission -----

  /** Every prefix the policy trusts is covered by a repo of the constraint. */
  predicate Covers(repos: seq<string>, prefixes: seq<string>) {
    forall i :: 0 <= i < |prefixes| ==> HasPrefixIn(repos, prefixes[i])
  }

  /** Repo by repo, the constraint writes what the policy writes, without the tag separator. */
  lemma RepoUnderPrefix(k: nat)
    requires k < |SHIPPED_REPOS|
    ensures SHIPPED_REPOS[k] != "" && SHIPPED_REPOS[k] <= Policy.TRUSTED_PREFIXES[k]
  {
    match k
    case 0 => assert "nginx" <= "nginx:";
    case 1 => assert "python" <= "python:";
    case 2 => assert "alpine" <= "alpine:";
    case 3 => assert "busybox" <= "busybox:";
    case 4 => assert SHIPPED_REPOS[4] == "gcr.io/" == Policy.TRUSTED_PREFIXES[4];
    case 5 => assert SHIPPED_REPOS[5] == "quay.io/" == Policy.TRUSTED_PREFIXES[5];
    case 6 => assert SHIPPED_REPOS[6] == "registry.k8s.io/" == Policy.TRUSTED_PREFIXES[6];
  }

  lemma ShippedReposCover()
    ensures Covers(SHIPPED_REPOS, Policy.TRUSTED_PREFIXES)
    ensures forall k :: 0 <= k < |SHIPPED_REPOS| ==> SHIPPED_REPOS[k] != ""
  {
    var repos, prefixes := SHIPPED_REPOS, Policy.TRUSTED_PREFIXES;
    assert |repos| == |prefixes|;
    forall i | 0 <= i < |prefixes|
      ensures repos[i] != "" && HasPrefixIn(repos, prefixes[i])
    {
      RepoUnderPrefix(i);
    }
  }

  lemma PolicyTrustIsAdmitted(repos: seq<string>, image: Json)
    requires Covers(repos, Policy.TRUSTED_PREFIXES) && Policy.TrustedImage(image)
    ensures TrustedImage(repos, image)
  {
    var i :| 0 <= i < |Policy.TRUSTED_PREFIXES| && Policy.TRUSTED_PREFIXES[i] <= image.s;
    assert HasPrefixIn(repos, Policy.TRUSTED_PREFIXES[i]);
    var k :| 0 <= k < |repos| && repos[k] <= Policy.TRUSTED_PREFIXES[i];
    assert repos[k] <= image.s;
  }

  /** What can be checked before the call: the image is the empty string, or a limit is false. */
  predicate Unadmittable(ps: Members) {
    || Get(ps, "image") == Some(Str(""))
    || Get(ps, "cpu_limit") == Some(Bool(false))
    || Get(ps, "memory_limit") == Some(Bool(false))
  }

  /** A Deployment built from a clean payload is rejected exactly for those parameters. */
  lemma CleanBuildAdmitted(repos: seq<string>, ps: Members)
    requires Covers(repos, Policy.TRUSTED_PREFIXES) && forall k :: 0 <= k < |repos| ==> repos[k] != ""
    requires Policy.CleanPayload(ps) && BuildDeployment(ps).Returns?
    ensures Rejected(repos, BuildDeployment(ps).value.template) <==> Unadmittable(ps)
  {
    var pod := BuildDeployment(ps).value.template;
    var c := pod.containers[0];
    LimitsOf(ps, c.port);
    ImageAdmission(repos, ps);
    assert pod == PodTemplate(ps, c.port);
    assert ViolatesAllowedRepos(repos, pod) <==> UntrustedContainer(repos, c);
    assert ViolatesRequireLimits(pod) <==> LacksLimit(c, "memory") || LacksLimit(c, "cpu");
  }

  lemma LimitsOf(ps: Members, port: int)
    ensures var c := PodTemplate(ps, port).containers[0];
            && Get(c.limits, "cpu") == Some(GetOr(ps, "cpu_limit", Str("200m")))
            && Get(c.limits, "memory") == Some(GetOr(ps, "memory_limit", Str("128Mi")))
  {
    var c := PodTemplate(ps, port).containers[0];
    assert c.limits[1..] == [("memory", GetOr(ps, "memory_limit", Str("128Mi")))];
  }

  lemma ImageAdmission(repos: seq<string>, ps: Members)
    requires Covers(repos, Policy.TRUSTED_PREFIXES) && forall k :: 0 <= k < |repos| ==> repos[k] != ""
    requires Policy.CleanPayload(ps)
    ensures var image := GetOr(ps, "image", Str("nginx:alpine"));
            image != Null && !TrustedImage(repos, image) <==> Get(ps, "image") == Some(Str(""))
  {
    match Get(ps, "image")
    case None =>
      assert Policy.TRUSTED_PREFIXES[0] <= "nginx:alpine";
      PolicyTrustIsAdmitted(repos, Str("nginx:alpine"));
    case Some(image) =>
      if Policy.TrustedImage(image) {
        PolicyTrustIsAdmitted(repos, image);
        var i :| 0 <= i < |Policy.TRUSTED_PREFIXES| && Policy.TRUSTED_PREFIXES[i] <= image.s;
        assert Policy.TRUSTED_PREFIXES[i] != "";
      }
  }
}
