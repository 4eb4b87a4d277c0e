/** The rule-based risk scorer (app/risk/scorer.py). */
module Scorer {
  import opened JsonValues
  import opened Numerals
  import Text

  const LOW := "low"
  const MEDIUM := "medium"
  const HIGH := "high"

  const HIGH_RISK_NAMESPACES: set<string> := {"kube-system", "kube-public", "kube-node-lease"}

  const SENSITIVE_RESOURCES: set<string> := {
    "secret", "secrets", "role", "roles", "rolebinding", "rolebindings",
    "clusterrole", "clusterroles", "clusterrolebinding", "clusterrolebindings",
    "serviceaccount", "serviceaccounts"
  }

  const PRIVILEGED_FIELDS: seq<(string, nat)> :=
    [("privileged", 3), ("hostNetwork", 2), ("hostPID", 2), ("hostIPC", 2), ("hostPath", 2)]

  const WRITE_VERBS: set<string> := {"create", "update", "patch", "apply", "replace"}

  datatype RiskScore = RiskScore(level: string, score: int, reasons: seq<string>)

  function ActionWeight(verb: string): nat {
    if verb in {"get", "list", "watch"} then 0
    else if verb in {"delete", "replace", "exec"} then 2
    else 1
  }

  function Band(total: int): string {
    if total <= 1 then LOW else if total <= 3 then MEDIUM else HIGH
  }

  /** The weight of every known verb, and of any other. */
  lemma WeightTable(verb: string)
    ensures ActionWeight("get") == ActionWeight("list") == ActionWeight("watch") == 0
    ensures ActionWeight("create") == ActionWeight("update") == ActionWeight("patch") == ActionWeight("apply") == 1
    ensures ActionWeight("delete") == ActionWeight("replace") == ActionWeight("exec") == 2
    ensures verb !in {"get", "list", "watch", "create", "update", "patch", "apply", "delete", "replace", "exec"} ==>
              ActionWeight(verb) == 1
  {
  }

  /** The three levels are different, and every score has the one of its band. */
  lemma BandOrder(total: int)
    ensures LOW != MEDIUM && MEDIUM != HIGH && LOW != HIGH
    ensures Band(total) == LOW <==> total < 2
    ensures Band(total) == MEDIUM <==> 2 <= total < 4
    ensures Band(total) == HIGH <==> 4 <= total
    ensures LOW == "low" && MEDIUM == "medium" && HIGH == "high"
  {
    assert |LOW| == 3 && |MEDIUM| == 6 && |HIGH| == 4;
  }

  // ----- What is charged: the specification of a score is a ledger of charges -----

  datatype Entry = Entry(text: string, points: nat) {
    function Reason(): string {
      Charge(text, points)
    }
  }

  type Ledger = seq<Entry>

  function Total(ledger: Ledger): nat {
    if ledger == [] then 0 else Total(ledger[..|ledger| - 1]) + ledger[|ledger| - 1].points
  }

  function Reasons(ledger: Ledger): seq<string> {
    seq(|ledger|, i requires 0 <= i < |ledger| => ledger[i].Reason())
  }

  function When(charged: bool, entry: Entry): Ledger {
    if charged then [entry] else []
  }

  predicate IsTrue(ps: Members, field: string) {
    Get(ps, field) == Some(Bool(true))
  }

  predicate TrustedImage(cfg: Settings, image: string) {
    exists i :: 0 <= i < |cfg.trustedImagePrefixes| && cfg.trustedImagePrefixes[i] <= image
  }

  function ImageOf(cfg: Settings, ps: Members): string {
    Text.Strip(PyStr(cfg, GetOr(ps, "image", Str(""))))
  }

  predicate ImageCharged(cfg: Settings, ps: Members) {
    ImageOf(cfg, ps) != "" && !TrustedImage(cfg, ImageOf(cfg, ps))
  }

  function ReplicasOf(ps: Members): int {
    match PyInt(GetOr(ps, "replicas", Int(1)))
    case Value(n) => n
    case _ => 1
  }

  predicate ReplicasCharged(cfg: Settings, ps: Members) {
    ReplicasOf(ps) > cfg.maxReplicasThreshold
  }

  // The reason texts.

  function FieldEntry(field: string, pts: nat): Entry {
    Entry("params." + field + "=true grants host-level access ", pts)
  }

  function ImageEntry(cfg: Settings, image: string): Entry {
    Entry("image '" + image + "' is not from a trusted registry (trusted prefixes: " + cfg.prefixesText + ") ", 1)
  }

  function ReplicasEntry(cfg: Settings, replicas: int): Entry {
    Entry("replicas=" + IntText(replicas) + " exceeds gateway threshold of "
          + IntText(cfg.maxReplicasThreshold) + " ", 1)
  }

  function ActionEntry(verb: string): Entry {
    Entry("action '" + verb + "' ", ActionWeight(verb))
  }

  function NamespaceEntry(ns: string): Entry {
    Entry("namespace '" + ns + "' is a privileged system namespace ", 2)
  }

  function ResourceEntry(res: string): Entry {
    Entry("resource '" + res + "' stores credentials or RBAC grants ", 1)
  }

  function FieldLedger(fields: seq<(string, nat)>, ps: Members): Ledger {
    if fields == [] then [] else
      var (field, pts) := fields[|fields| - 1];
      FieldLedger(fields[..|fields| - 1], ps) + When(IsTrue(ps, field), FieldEntry(field, pts))
  }

  function ParamLedger(cfg: Settings, ps: Members): Ledger {
    FieldLedger(PRIVILEGED_FIELDS, ps)
    + When(ImageCharged(cfg, ps), ImageEntry(cfg, ImageOf(cfg, ps)))
    + When(ReplicasCharged(cfg, ps), ReplicasEntry(cfg, ReplicasOf(ps)))
  }

  function TargetLedger(verb: string, res: string, ns: string): Ledger {
    When(true, ActionEntry(verb))
    + When(ns in HIGH_RISK_NAMESPACES, NamespaceEntry(ns))
    + When(res in SENSITIVE_RESOURCES, ResourceEntry(res))
  }

  predicate Inspected(verb: string, ps: Members) {
    ps != [] && verb in WRITE_VERBS
  }

  /** Everything a request is charged for, in order. */
  function RequestLedger(cfg: Settings, action: string, resource: string, namespace: string, ps: Members): Ledger {
    var verb := Text.Normal(action);
    TargetLedger(verb, Text.Normal(resource), Text.Normal(namespace))
    + (if Inspected(verb, ps) then ParamLedger(cfg, ps) else [])
  }

  function Assess(cfg: Settings, action: string, resource: string, namespace: string, ps: Members): RiskScore {
    var ledger := RequestLedger(cfg, action, resource, namespace, ps);
    RiskScore(Band(Total(ledger)), Total(ledger), Reasons(ledger))
  }

  // ----- The scorer itself -----

  /** The mutable sub-score that helpers accumulate into. */
  class ScoreBucket {
    var value: int

    constructor (initial: int)
      ensures value == initial
    {
      value := initial;
    }
  }

  /** The list of reasons, shared by reference between `score` and its helper. */
  class ReasonList {
    var items: seq<string>

    constructor ()
      ensures items == []
    {
      items := [];
    }
  }

  lemma {:induction false} TotalAppends(a: Ledger, b: Ledger)
    ensures Total(a + b) == Total(a) + Total(b)
  {
    if b == [] {
      assert a + b == a;
    } else {
      assert (a + b)[..|a + b| - 1] == a + b[..|b| - 1];
      TotalAppends(a, b[..|b| - 1]);
    }
  }

  lemma ReasonsAppend(a: Ledger, b: Ledger)
    ensures Reasons(a + b) == Reasons(a) + Reasons(b)
  {
  }

  lemma WhenAppends(a: Ledger, charged: bool, e: Entry)
    ensures Total(a + When(charged, e)) == Total(a) + (if charged then e.points else 0)
    ensures Reasons(a + When(charged, e)) == Reasons(a) + (if charged then [e.Reason()] else [])
  {
    TotalAppends(a, When(charged, e));
    assert When(true, e)[..0] == When(false, e);
  }

  /** A running total and list of reasons that have grown by exactly this ledger. */
  ghost predicate Records(total: int, items: seq<string>, total0: int, items0: seq<string>, ledger: Ledger) {
    total == total0 + Total(ledger) && items == items0 + Reasons(ledger)
  }

  lemma Charges(total: int, items: seq<string>, total0: int, items0: seq<string>, ledger: Ledger, e: Entry)
    requires Records(total, items, total0, items0, ledger)
    ensures Records(total + e.points, items + [e.Reason()], total0, items0, ledger + When(true, e))
    ensures Records(total, items, total0, items0, ledger + When(false, e))
  {
    WhenAppends(ledger, true, e);
    WhenAppends(ledger, false, e);
  }

  lemma Joins(total: int, items: seq<string>, value: int, more: seq<string>, total0: int, items0: seq<string>,
              a: Ledger, b: Ledger)
    requires Records(total, items, total0, items0, a) && Records(value, more, 0, items, b)
    ensures Records(total + value, more, total0, items0, a + b)
  {
    TotalAppends(a, b);
    ReasonsAppend(a, b);
  }

  lemma FieldLedgerStep(fields: seq<(string, nat)>, i: nat, ps: Members)
    requires i < |fields|
    ensures FieldLedger(fields[..i + 1], ps) ==
              FieldLedger(fields[..i], ps) + When(IsTrue(ps, fields[i].0), FieldEntry(fields[i].0, fields[i].1))
  {
    assert fields[..i + 1][..i] == fields[..i];
  }

  method ScoreParams(cfg: Settings, ps: Members, reasons: ReasonList, bucket: ScoreBucket)
    modifies reasons, bucket
    ensures Records(bucket.value, reasons.items, old(bucket.value), old(reasons.items), ParamLedger(cfg, ps))
  {
    ghost var v0, r0 := bucket.value, reasons.items;
    ghost var ledger: Ledger := [];
    for i := 0 to |PRIVILEGED_FIELDS|
      invariant ledger == FieldLedger(PRIVILEGED_FIELDS[..i], ps)
      invariant Records(bucket.value, reasons.items, v0, r0, ledger)
    {
      var (field, pts) := PRIVILEGED_FIELDS[i];
      FieldLedgerStep(PRIVILEGED_FIELDS, i, ps);
      Charges(bucket.value, reasons.items, v0, r0, ledger, FieldEntry(field, pts));
      if Get(ps, field) == Some(Bool(true)) {
        bucket.value := bucket.value + pts;
        reasons.items := reasons.items + [FieldEntry(field, pts).Reason()];
      }
      ledger := ledger + When(IsTrue(ps, field), FieldEntry(field, pts));
    }
    assert PRIVILEGED_FIELDS[..|PRIVILEGED_FIELDS|] == PRIVILEGED_FIELDS;

    var image := Text.Strip(PyStr(cfg, GetOr(ps, "image", Str(""))));
    Charges(bucket.value, reasons.items, v0, r0, ledger, ImageEntry(cfg, image));
    if image != "" && !TrustedImage(cfg, image) {
      bucket.value := bucket.value + 1;
      reasons.items := reasons.items + [ImageEntry(cfg, image).Reason()];
    }
    ledger := ledger + When(ImageCharged(cfg, ps), ImageEntry(cfg, image));

    var replicas := 1;
    var read := PyInt(GetOr(ps, "replicas", Int(1)));
    if read.Value? {
      replicas := read.n;
    }
    Charges(bucket.value, reasons.items, v0, r0, ledger, ReplicasEntry(cfg, replicas));
    if replicas > cfg.maxReplicasThreshold {
      bucket.value := bucket.value + 1;
      reasons.items := reasons.items + [ReplicasEntry(cfg, replicas).Reason()];
    }
  }

  /** Dimensions 1 to 3: the verb, the namespace and the resource, already normalised. */
  method ScoreTarget(verb: string, res: string, ns: string, reasons: ReasonList) returns (total: int)
    requires reasons.items == []
    modifies reasons
    ensures Records(total, reasons.items, 0, [], TargetLedger(verb, res, ns))
  {
    total := 0;
    ghost var ledger: Ledger := [];

    var actionPts := ActionWeight(verb);
    Charges(total, reasons.items, 0, [], ledger, ActionEntry(verb));
    total := total + actionPts;
    reasons.items := reasons.items + [ActionEntry(verb).Reason()];
    assert ledger + When(true, ActionEntry(verb)) == When(true, ActionEntry(verb));
    ledger := When(true, ActionEntry(verb));

    Charges(total, reasons.items, 0, [], ledger, NamespaceEntry(ns));
    if ns in HIGH_RISK_NAMESPACES {
      total := total + 2;
      reasons.items := reasons.items + [NamespaceEntry(ns).Reason()];
    }
    ledger := ledger + When(ns in HIGH_RISK_NAMESPACES, NamespaceEntry(ns));

    Charges(total, reasons.items, 0, [], ledger, ResourceEntry(res));
    if res in SENSITIVE_RESOURCES {
      total := total + 1;
      reasons.items := reasons.items + [ResourceEntry(res).Reason()];
    }
  }

  /** Two parts that record their ledgers make up the assessment. */
  lemma PartsAssess(cfg: Settings, action: string, resource: string, namespace: string, ps: Members,
                    total: int, items: seq<string>, value: int, more: seq<string>)
    requires Records(total, items, 0, [],
                     TargetLedger(Text.Normal(action), Text.Normal(resource), Text.Normal(namespace)))
    requires if Inspected(Text.Normal(action), ps) then Records(value, more, 0, items, ParamLedger(cfg, ps))
             else value == 0 && more == items
    ensures Assess(cfg, action, resource, namespace, ps) == RiskScore(Band(total + value), total + value, more)
  {
    var target := TargetLedger(Text.Normal(action), Text.Normal(resource), Text.Normal(namespace));
    var ledger := RequestLedger(cfg, action, resource, namespace, ps);
    if Inspected(Text.Normal(action), ps) {
      Joins(total, items, value, more, 0, [], target, ParamLedger(cfg, ps));
    } else {
      assert target + [] == target;
    }
    assert [] + Reasons(ledger) == Reasons(ledger);
  }

  method Score(cfg: Settings, action: string, resource: string, namespace: string, ps: Members)
    returns (rs: RiskScore)
    ensures rs == Assess(cfg, action, resource, namespace, ps)
  {
    var reasons := new ReasonList();
    var verb, res, ns := Text.Normal(action), Text.Normal(resource), Text.Normal(namespace);
    var total := ScoreTarget(verb, res, ns, reasons);
    ghost var total0, items0 := total, reasons.items;
    if ps != [] && verb in WRITE_VERBS {
      var bucket := new ScoreBucket(0);
      ScoreParams(cfg, ps, reasons, bucket);
      total := total + bucket.value;
    }
    PartsAssess(cfg, action, resource, namespace, ps, total0, items0, total - total0, reasons.items);
    var level := if total <= 1 then LOW else if total <= 3 then MEDIUM else HIGH;
    rs := RiskScore(level, total, reasons.items);
  }

  /** The reasons name what was charged, and end with the points. */
  lemma TargetTexts(verb: string, ns: string, res: string)
    ensures ActionEntry(verb).Reason() == "action '" + verb + "' -> +" + NatText(ActionWeight(verb))
    ensures NamespaceEntry(ns).Reason() == "namespace '" + ns + "' is a privileged system namespace -> +2"
    ensures ResourceEntry(res).Reason() == "resource '" + res + "' stores credentials or RBAC grants -> +1"
  {
    Rejoined("action '" + verb, "' ", NatText(ActionWeight(verb)));
    assert "' " + "-> +" == "' -> +";
    Rejoined("namespace '" + ns, "' is a privileged system namespace ", "2");
    assert "' is a privileged system namespace " + "-> +" + "2" == "' is a privileged system namespace -> +2";
    Rejoined("resource '" + res, "' stores credentials or RBAC grants ", "1");
    assert "' stores credentials or RBAC grants " + "-> +" + "1" == "' stores credentials or RBAC grants -> +1";
  }

  lemma ParamTexts(cfg: Settings, field: string, pts: nat, image: string, replicas: int)
    ensures FieldEntry(field, pts).Reason() == "params." + field + "=true grants host-level access -> +" + NatText(pts)
    ensures ImageEntry(cfg, image).Reason() ==
              "image '" + image + "' is not from a trusted registry (trusted prefixes: " + cfg.prefixesText + ") -> +1"
    ensures ReplicasEntry(cfg, replicas).Reason() ==
              "replicas=" + IntText(replicas) + " exceeds gateway threshold of "
              + IntText(cfg.maxReplicasThreshold) + " -> +1"
  {
    Rejoined("params." + field, "=true grants host-level access ", NatText(pts));
    assert "=true grants host-level access " + "-> +" == "=true grants host-level access -> +";
    var registry := "image '" + image + "' is not from a trusted registry (trusted prefixes: " + cfg.prefixesText;
    Rejoined(registry, ") ", "1");
    assert ") " + "-> +" + "1" == ") -> +1";
    var threshold := "replicas=" + IntText(replicas) + " exceeds gateway threshold of "
                     + IntText(cfg.maxReplicasThreshold);
    Rejoined(threshold, " ", "1");
    assert " " + "-> +" + "1" == " -> +1";
  }

  lemma Rejoined(head: string, text: string, points: string)
    ensures head + text + "-> +" + points == head + (text + "-> +" + points)
    ensures head + text + "-> +" + points == head + (text + "-> +") + points
  {
  }

  // ----- The reasons are a ledger of the score -----

  /** The sum of the points read off the reasons. */
  function PointsIn(reasons: seq<string>): nat {
    if reasons == [] then 0 else
      PointsIn(reasons[..|reasons| - 1]) + ChargedPoints(reasons[|reasons| - 1])
  }

  /** The score equals the points read off its own reasons, and the level is the band of the score. */
  predicate Balanced(rs: RiskScore) {
    rs.score == PointsIn(rs.reasons) && rs.level == Band(rs.score)
  }

  lemma {:induction false} LedgerReadsBack(ledger: Ledger)
    ensures PointsIn(Reasons(ledger)) == Total(ledger)
  {
    if ledger == [] {
    } else {
      var front, last := ledger[..|ledger| - 1], ledger[|ledger| - 1];
      assert Reasons(ledger)[..|ledger| - 1] == Reasons(front);
      LedgerReadsBack(front);
      ChargeReadsBack(last.text, last.points);
    }
  }

  lemma AssessBalances(cfg: Settings, action: string, resource: string, namespace: string, ps: Members)
    ensures Balanced(Assess(cfg, action, resource, namespace, ps))
  {
    LedgerReadsBack(RequestLedger(cfg, action, resource, namespace, ps));
  }

  // ----- Points without the texts -----

  function Points(b: bool, pts: nat): nat {
    if b then pts else 0
  }

  function FieldPoints(fields: seq<(string, nat)>, ps: Members): nat {
    if fields == [] then 0 else
      FieldPoints(fields[1..], ps) + Points(IsTrue(ps, fields[0].0), fields[0].1)
  }

  function ParamPoints(cfg: Settings, ps: Members): nat {
    FieldPoints(PRIVILEGED_FIELDS, ps) + Points(ImageCharged(cfg, ps), 1) + Points(ReplicasCharged(cfg, ps), 1)
  }

  lemma {:induction false} FieldPointsSplit(a: seq<(string, nat)>, b: seq<(string, nat)>, ps: Members)
    ensures FieldPoints(a + b, ps) == FieldPoints(a, ps) + FieldPoints(b, ps)
  {
    if a == [] {
      assert a + b == b;
    } else {
      assert (a + b)[1..] == a[1..] + b;
      FieldPointsSplit(a[1..], b, ps);
    }
  }

  lemma FieldPointsAppend(fields: seq<(string, nat)>, last: (string, nat), ps: Members)
    ensures FieldPoints(fields + [last], ps) == FieldPoints(fields, ps) + Points(IsTrue(ps, last.0), last.1)
  {
    FieldPointsSplit(fields, [last], ps);
    assert [last][1..] == fields[|fields|..];
  }

  lemma {:induction false} FieldLedgerTotal(fields: seq<(string, nat)>, ps: Members)
    ensures Total(FieldLedger(fields, ps)) == FieldPoints(fields, ps)
  {
    if fields == [] {
    } else {
      var front, last := fields[..|fields| - 1], fields[|fields| - 1];
      FieldLedgerTotal(front, ps);
      FieldPointsAppend(front, last, ps);
      assert fields == front + [last];
      WhenAppends(FieldLedger(front, ps), IsTrue(ps, last.0), FieldEntry(last.0, last.1));
    }
  }

  /** The score in closed form. */
  lemma ScoreInPoints(cfg: Settings, action: string, resource: string, namespace: string, ps: Members)
    ensures var verb := Text.Normal(action);
            Assess(cfg, action, resource, namespace, ps).score ==
              ActionWeight(verb)
              + Points(Text.Normal(namespace) in HIGH_RISK_NAMESPACES, 2)
              + Points(Text.Normal(resource) in SENSITIVE_RESOURCES, 1)
              + (if Inspected(verb, ps) then ParamPoints(cfg, ps) else 0)
  {
    var verb, res, ns := Text.Normal(action), Text.Normal(resource), Text.Normal(namespace);
    TargetTotal(verb, res, ns);
    ParamTotal(cfg, ps);
    TotalAppends(TargetLedger(verb, res, ns), if Inspected(verb, ps) then ParamLedger(cfg, ps) else []);
  }

  lemma TargetTotal(verb: string, res: string, ns: string)
    ensures Total(TargetLedger(verb, res, ns)) ==
              ActionWeight(verb) + Points(ns in HIGH_RISK_NAMESPACES, 2) + Points(res in SENSITIVE_RESOURCES, 1)
  {
    var first := When(true, ActionEntry(verb));
    WhenAppends([], true, ActionEntry(verb));
    assert [] + first == first;
    WhenAppends(first, ns in HIGH_RISK_NAMESPACES, NamespaceEntry(ns));
    WhenAppends(first + When(ns in HIGH_RISK_NAMESPACES, NamespaceEntry(ns)),
                res in SENSITIVE_RESOURCES, ResourceEntry(res));
  }

  lemma ParamTotal(cfg: Settings, ps: Members)
    ensures Total(ParamLedger(cfg, ps)) == ParamPoints(cfg, ps)
  {
    var fields := FieldLedger(PRIVILEGED_FIELDS, ps);
    var image := When(ImageCharged(cfg, ps), ImageEntry(cfg, ImageOf(cfg, ps)));
    FieldLedgerTotal(PRIVILEGED_FIELDS, ps);
    WhenAppends(fields, ImageCharged(cfg, ps), ImageEntry(cfg, ImageOf(cfg, ps)));
    WhenAppends(fields + image, ReplicasCharged(cfg, ps), ReplicasEntry(cfg, ReplicasOf(ps)));
  }

  /** The image that is looked at: absent is nothing, a string is taken without surrounding white space, anything else
      as Python renders it. */
  lemma ImageRead(cfg: Settings, ps: Members, core: string)
    requires Text.Unpadded(core)
    requires match Get(ps, "image")
             case None => core == ""
             case Some(Str(text)) => Text.PaddedWith(text, core)
             case Some(other) => Text.PaddedWith(cfg.strOf(other), core)
    ensures ImageCharged(cfg, ps) <==>
            core != "" && forall k :: 0 <= k < |cfg.trustedImagePrefixes| ==> !(cfg.trustedImagePrefixes[k] <= core)
  {
    match Get(ps, "image")
    case None =>
      assert ImageOf(cfg, ps) == "";
    case Some(Str(text)) => Text.StripExactly(text, core);
    case Some(other) => Text.StripExactly(cfg.strOf(other), core);
  }

  /** The replica count that is looked at: 1 where there is none or where it cannot be read. */
  lemma ReplicasRead(cfg: Settings, ps: Members)
    ensures Get(ps, "replicas") == None ==> ReplicasOf(ps) == 1
    ensures Get(ps, "replicas").Some? ==>
              var j := Get(ps, "replicas").value;
              if NotScalar(j) || NotNumeral(j) then ReplicasOf(ps) == 1 else PyInt(j) == Value(ReplicasOf(ps))
    ensures ReplicasCharged(cfg, ps) <==> ReplicasOf(ps) >= cfg.maxReplicasThreshold + 1
  {
    if Get(ps, "replicas").Some? {
      IntRaises(Get(ps, "replicas").value);
    }
  }

  /** The parameters count only where there are any and the verb writes. */
  lemma OnlyWritesAreInspected(cfg: Settings, action: string, resource: string, namespace: string, ps: Members)
    requires ps == [] || Text.Normal(action) !in {"create", "update", "patch", "apply", "replace"}
    ensures Assess(cfg, action, resource, namespace, ps) == Assess(cfg, action, resource, namespace, [])
  {
  }

  /** The reasons come in the order of the checks: verb, namespace, resource, then the parameters. */
  lemma ReasonsInOrder(cfg: Settings, action: string, resource: string, namespace: string, ps: Members)
    ensures var verb, res, ns := Text.Normal(action), Text.Normal(resource), Text.Normal(namespace);
            Assess(cfg, action, resource, namespace, ps).reasons ==
              [ActionEntry(verb).Reason()]
              + (if ns in HIGH_RISK_NAMESPACES then [NamespaceEntry(ns).Reason()] else [])
              + (if res in SENSITIVE_RESOURCES then [ResourceEntry(res).Reason()] else [])
              + (if Inspected(verb, ps) then Reasons(ParamLedger(cfg, ps)) else [])
  {
    var verb, res, ns := Text.Normal(action), Text.Normal(resource), Text.Normal(namespace);
    TargetReasons(verb, res, ns);
    ReasonsAppend(TargetLedger(verb, res, ns), if Inspected(verb, ps) then ParamLedger(cfg, ps) else []);
  }

  lemma TargetReasons(verb: string, res: string, ns: string)
    ensures Reasons(TargetLedger(verb, res, ns)) ==
              [ActionEntry(verb).Reason()]
              + (if ns in HIGH_RISK_NAMESPACES then [NamespaceEntry(ns).Reason()] else [])
              + (if res in SENSITIVE_RESOURCES then [ResourceEntry(res).Reason()] else [])
  {
    var first := When(true, ActionEntry(verb));
    assert Reasons(first) == [ActionEntry(verb).Reason()];
    WhenAppends(first, ns in HIGH_RISK_NAMESPACES, NamespaceEntry(ns));
    WhenAppends(first + When(ns in HIGH_RISK_NAMESPACES, NamespaceEntry(ns)),
                res in SENSITIVE_RESOURCES, ResourceEntry(res));
  }

  // ----- Laws of the score -----

  /** Case and surrounding whitespace of the three strings never change the assessment. */
  lemma SpellingIrrelevant(cfg: Settings, action: string, resource: string, namespace: string,
                           action': string, resource': string, namespace': string, ps: Members)
    requires Text.Respelled(action, action') && Text.Respelled(resource, resource')
    requires Text.Respelled(namespace, namespace')
    ensures Assess(cfg, action', resource', namespace', ps) == Assess(cfg, action, resource, namespace, ps)
  {
    Text.NormalFolds(action, action');
    Text.NormalFolds(resource, resource');
    Text.NormalFolds(namespace, namespace');
  }

  lemma FieldPointsOut(a: seq<(string, nat)>, x: (string, nat), b: seq<(string, nat)>, ps: Members)
    ensures FieldPoints(a + [x] + b, ps) == FieldPoints([x], ps) + FieldPoints(a + b, ps)
  {
    FieldPointsSplit(a + [x], b, ps);
    FieldPointsSplit(a, [x], ps);
    FieldPointsSplit(a, b, ps);
  }

  lemma WithoutOne(x: (string, nat), rest: seq<(string, nat)>, a: seq<(string, nat)>, b: seq<(string, nat)>)
    requires multiset([x] + rest) == multiset(a + [x] + b)
    ensures multiset(rest) == multiset(a + b)
  {
    assert multiset([x] + rest) == multiset{x} + multiset(rest);
    assert multiset(a + [x] + b) == multiset(a) + multiset{x} + multiset(b);
    assert multiset(a + b) == multiset(a) + multiset(b);
    assert multiset(rest) == multiset([x] + rest) - multiset{x};
    assert multiset(a + b) == multiset(a + [x] + b) - multiset{x};
  }

  lemma PulledOut(xs: seq<(string, nat)>, ys: seq<(string, nat)>) returns (a: seq<(string, nat)>, b: seq<(string, nat)>)
    requires xs != [] && multiset(xs) == multiset(ys)
    ensures ys == a + [xs[0]] + b && multiset(xs[1..]) == multiset(a + b)
  {
    var x := xs[0];
    assert x in multiset(xs);
    var k :| 0 <= k < |ys| && ys[k] == x;
    a, b := ys[..k], ys[k + 1..];
    assert ys == a + [x] + b;
    assert xs == [x] + xs[1..];
    WithoutOne(x, xs[1..], a, b);
  }

  /** The order in which the dangerous fields are visited is irrelevant. */
  lemma {:induction false} FieldOrderIrrelevant(xs: seq<(string, nat)>, ys: seq<(string, nat)>, ps: Members)
    requires multiset(xs) == multiset(ys)
    ensures FieldPoints(xs, ps) == FieldPoints(ys, ps)
    decreases |xs|
  {
    if xs == [] {
      assert |multiset(ys)| == 0;
    } else {
      var a, b := PulledOut(xs, ys);
      FieldOrderIrrelevant(xs[1..], a + b, ps);
      FieldPointsOut(a, xs[0], b, ps);
      FieldPointsOut([], xs[0], xs[1..], ps);
      assert [] + [xs[0]] + xs[1..] == xs && [] + xs[1..] == xs[1..];
    }
  }

  lemma {:induction false} FieldPointsMonotone(fields: seq<(string, nat)>, ps: Members, qs: Members)
    requires forall i :: 0 <= i < |fields| && IsTrue(ps, fields[i].0) ==> IsTrue(qs, fields[i].0)
    ensures FieldPoints(fields, ps) <= FieldPoints(fields, qs)
  {
    if fields == [] {
    } else {
      assert forall i :: 0 <= i < |fields[1..]| ==> fields[1..][i] == fields[i + 1];
      FieldPointsMonotone(fields[1..], ps, qs);
    }
  }

  /** Setting more dangerous fields to true, other things equal, never lowers the score. */
  lemma ScoreMonotone(cfg: Settings, action: string, resource: string, namespace: string, ps: Members, qs: Members)
    requires forall i :: 0 <= i < |PRIVILEGED_FIELDS| && IsTrue(ps, PRIVILEGED_FIELDS[i].0)
                         ==> IsTrue(qs, PRIVILEGED_FIELDS[i].0)
    requires Get(ps, "image") == Get(qs, "image") && Get(ps, "replicas") == Get(qs, "replicas")
    requires qs != [] || cfg.maxReplicasThreshold >= 1
    ensures Assess(cfg, action, resource, namespace, ps).score <= Assess(cfg, action, resource, namespace, qs).score
  {
    ScoreInPoints(cfg, action, resource, namespace, ps);
    ScoreInPoints(cfg, action, resource, namespace, qs);
    FieldPointsMonotone(PRIVILEGED_FIELDS, ps, qs);
    if qs == [] {
      FieldPointsOfNone(PRIVILEGED_FIELDS);
      assert Get(qs, "image").None? && Get(qs, "replicas").None?;
      assert ImageOf(cfg, ps) == "";
    }
  }

  lemma {:induction false} FieldPointsOfNone(fields: seq<(string, nat)>)
    ensures FieldPoints(fields, []) == 0
  {
    if fields == [] {
    } else {
      FieldPointsOfNone(fields[1..]);
    }
  }

  /** The five field tests written out. */
  lemma FivePoints(ps: Members)
    ensures FieldPoints(PRIVILEGED_FIELDS, ps) ==
              Points(IsTrue(ps, "privileged"), 3) + Points(IsTrue(ps, "hostNetwork"), 2)
              + Points(IsTrue(ps, "hostPID"), 2) + Points(IsTrue(ps, "hostIPC"), 2)
              + Points(IsTrue(ps, "hostPath"), 2)
  {
    var f := PRIVILEGED_FIELDS;
    assert f[1..][1..] == f[2..] && f[2..][1..] == f[3..] && f[3..][1..] == f[4..];
    assert f[4..][1..] == f[5..];
    assert FieldPoints(f[4..], ps) == Points(IsTrue(ps, "hostPath"), 2);
    assert FieldPoints(f[3..], ps) == FieldPoints(f[4..], ps) + Points(IsTrue(ps, "hostIPC"), 2);
    assert FieldPoints(f[2..], ps) == FieldPoints(f[3..], ps) + Points(IsTrue(ps, "hostPID"), 2);
    assert FieldPoints(f[1..], ps) == FieldPoints(f[2..], ps) + Points(IsTrue(ps, "hostNetwork"), 2);
  }

  lemma ParamPointsBound(cfg: Settings, ps: Members)
    ensures ParamPoints(cfg, ps) <= 13
  {
    FivePoints(ps);
  }

  lemma ReadScore(cfg: Settings, action: string, resource: string, namespace: string, ps: Members)
    requires Text.Normal(action) in {"get", "list", "watch"}
    ensures Assess(cfg, action, resource, namespace, ps).score <= 3
  {
    var verb := Text.Normal(action);
    ScoreInPoints(cfg, action, resource, namespace, ps);
    assert ActionWeight(verb) == 0 && verb !in WRITE_VERBS;
  }

  /** No request scores above 18, and a read verb scores at most 3. */
  lemma ScoreBounds(cfg: Settings, action: string, resource: string, namespace: string, ps: Members)
    ensures 0 <= Assess(cfg, action, resource, namespace, ps).score <= 18
    ensures Text.Normal(action) in {"get", "list", "watch"} ==>
              Assess(cfg, action, resource, namespace, ps).score <= 3
  {
    ScoreInPoints(cfg, action, resource, namespace, ps);
    ParamPointsBound(cfg, ps);
    if Text.Normal(action) in {"get", "list", "watch"} {
      ReadScore(cfg, action, resource, namespace, ps);
    }
  }

  const WORST_PARAMS: Members := [
    ("privileged", Bool(true)), ("hostNetwork", Bool(true)), ("hostPID", Bool(true)),
    ("hostIPC", Bool(true)), ("hostPath", Bool(true)), ("image", Str("x")), ("replicas", Int(11))
  ]

  /** The bound 18 is attained under the shipped threshold by an image outside the trusted prefixes. */
  lemma WorstScore(cfg: Settings)
    requires cfg.maxReplicasThreshold == 10 && !TrustedImage(cfg, "x")
    ensures Assess(cfg, "replace", "secrets", "kube-system", WORST_PARAMS).score == 18
  {
    AlreadyNormal("replace");
    AlreadyNormal("secrets");
    AlreadyNormal("kube-system");
    WorstParams(cfg);
    WorstOf(cfg, "replace", "secrets", "kube-system");
  }

  lemma WorstOf(cfg: Settings, verb: string, res: string, ns: string)
    requires Text.Normal(verb) == verb == "replace"
    requires Text.Normal(res) == res && res in SENSITIVE_RESOURCES
    requires Text.Normal(ns) == ns && ns in HIGH_RISK_NAMESPACES
    ensures Assess(cfg, verb, res, ns, WORST_PARAMS).score == 5 + ParamPoints(cfg, WORST_PARAMS)
  {
    ScoreInPoints(cfg, verb, res, ns, WORST_PARAMS);
  }

  predicate Lowercase(s: string) {
    forall i :: 0 <= i < |s| ==> !('A' <= s[i] <= 'Z')
  }

  lemma AlreadyNormal(s: string)
    requires Text.Unpadded(s) && Lowercase(s)
    ensures Text.Normal(s) == s
  {
    assert Text.Lower(s) == s;
    Text.StripFixes(s);
  }

  lemma WorstParams(cfg: Settings)
    requires cfg.maxReplicasThreshold == 10 && !TrustedImage(cfg, "x")
    ensures ParamPoints(cfg, WORST_PARAMS) == 13
  {
    FivePoints(WORST_PARAMS);
    Text.StripFixes("x");
    GetFindsMember(WORST_PARAMS, 0);
    GetFindsMember(WORST_PARAMS, 1);
    GetFindsMember(WORST_PARAMS, 2);
    GetFindsMember(WORST_PARAMS, 3);
    GetFindsMember(WORST_PARAMS, 4);
    GetFindsMember(WORST_PARAMS, 5);
    GetFindsMember(WORST_PARAMS, 6);
  }
}
