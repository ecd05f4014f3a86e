/** The record that a run of `components execute` leaves behind: the shape a reader accepts,
    stated independently of the writer, and what an accepted record entitles to. */
module Record {
  import opened Wrappers
  import opened Strings

  /** Values a record field may carry; `Other...` is anything a foreign file might say. */
  datatype TargetStatus = Executed | AlreadyInstalled | TargetFailed | TargetCancelled | TargetUnknown | OtherStatus(raw: string)
  datatype Operation = AddOp | NoopOp | OtherOp(raw: string)
  datatype RunResult = Succeeded | RunFailed | RunCancelled | RunUnknown | OtherResult(raw: string)
  datatype EvidenceKind = PlanEvidence | ReportEvidence | ConnectionsEvidence | PriorEvidence | OtherEvidence(raw: string)

  datatype Target = Target(component: string, status: TargetStatus, ns: string, kind: string, name: string, uid: string)
  datatype Evidence = Evidence(kind: EvidenceKind, path: string, sha256: string)

  datatype Identity = Identity(binaryDigest: string, treeFingerprint: string, lockDigest: string, commit: string, clusterUid: string)

  datatype Execution = Execution(
    operation: Operation, didInstall: bool, requestedScope: seq<string>, executed: seq<string>, observed: seq<string>,
    baseRunId: string, baseRecordSha: string, baseClusterUid: string, baseConfigDigest: string,
    targets: seq<Target>, evidence: seq<Evidence>)

  datatype Manifest = Manifest(
    schemaVersion: int, recordKind: string, runId: string, clusterName: string, configDigest: string,
    result: RunResult, identity: Identity, components: seq<string>, execution: Option<Execution>)

  const SCHEMA_VERSION := 1
  const COMPONENTS_EXECUTION := "components-execution"
  const NOT_EMBEDDED := "not-embedded"

  predicate IsHex(c: char) {
    '0' <= c <= '9' || 'a' <= c <= 'f'
  }

  predicate IsHex64(s: string) {
    |s| == 64 && forall i :: 0 <= i < 64 ==> IsHex(s[i])
  }

  /** Usable as the name of one file or directory. */
  predicate Safe(s: string) {
    s != "" && '/' !in s && '\\' !in s
  }

  function CutAtDash(s: string): string {
    if s == "" || s[0] == '-' then "" else [s[0]] + CutAtDash(s[1..])
  }

  /** Seven to forty hex digits of either case; what follows the first dash is ignored. */
  predicate IsGitCommit(s: string) {
    var core := CutAtDash(s);
    7 <= |core| <= 40 && forall i :: 0 <= i < |core| ==> IsHex(core[i]) || 'A' <= core[i] <= 'F'
  }

  // ---- what a reader accepts ---------------------------------------------------------------

  predicate IdentityOk(id: Identity) {
    && IsHex64(id.binaryDigest)
    && (IsHex64(id.treeFingerprint) || id.treeFingerprint == NOT_EMBEDDED)
    && IsHex64(id.lockDigest)
    && id.commit != "" && (id.commit == NOT_EMBEDDED || IsGitCommit(id.commit))
  }

  predicate HeaderOk(m: Manifest) {
    && m.schemaVersion == SCHEMA_VERSION && m.recordKind == COMPONENTS_EXECUTION
    && m.runId != "" && m.clusterName != "" && Safe(m.runId)
    && IsHex64(m.configDigest) && IdentityOk(m.identity)
  }

  predicate LinkageOk(m: Manifest, e: Execution) {
    && !e.operation.OtherOp? && (e.didInstall <==> e.operation.AddOp?)
    && IsHex64(e.baseRecordSha) && e.baseRunId != "" && e.baseClusterUid != "" && IsHex64(e.baseConfigDigest)
    && (e.didInstall ==> e.baseConfigDigest != m.configDigest)
  }

  predicate Confirmed(t: Target) {
    t.status.Executed? || t.status.AlreadyInstalled?
  }

  predicate TargetOk(t: Target) {
    && Safe(t.component) && !t.status.OtherStatus?
    && t.ns != "" && t.kind != "" && t.name != ""
    && (Confirmed(t) ==> t.uid != "")
  }

  predicate DistinctTargets(targets: seq<Target>) {
    forall i, j :: 0 <= i < j < |targets| ==> targets[i].component != targets[j].component
  }

  ghost predicate Reports(targets: seq<Target>, component: string, status: TargetStatus) {
    exists t :: t in targets && t.component == component && t.status == status
  }

  /** The list is exactly the targets that report the status, each once. */
  ghost predicate ListMatches(names: seq<string>, status: TargetStatus, targets: seq<Target>, components: seq<string>) {
    && NoDup(names)
    && (forall n :: n in names ==> Safe(n) && n in components)
    && (forall n :: n in names ==> Reports(targets, n, status))
    && (forall t :: t in targets && t.status == status ==> t.component in names)
  }

  ghost predicate Has(targets: seq<Target>, status: TargetStatus) {
    exists t :: t in targets && t.status == status
  }

  predicate EvidenceOk(evidence: seq<Evidence>) {
    forall i :: 0 <= i < |evidence| ==> evidence[i].path != "" && IsHex64(evidence[i].sha256)
  }

  ghost predicate HasEvidence(evidence: seq<Evidence>, kind: EvidenceKind) {
    exists e :: e in evidence && e.kind == kind
  }

  /** A succeeded record says so of every target and shows what it was made from. */
  ghost predicate SuccessOk(m: Manifest, e: Execution) {
    m.result.Succeeded? ==>
      && (e.operation.AddOp? ==> Has(e.targets, Executed))
      && (e.operation.NoopOp? ==> Has(e.targets, AlreadyInstalled))
      && (forall i :: 0 <= i < |e.targets| ==> Confirmed(e.targets[i]))
      && HasEvidence(e.evidence, PlanEvidence) && HasEvidence(e.evidence, ReportEvidence)
  }

  /** The shape of a record this build may consume. */
  ghost predicate ShapeOk(m: Manifest) {
    && HeaderOk(m) && m.execution.Some?
    && var e := m.execution.value;
       && LinkageOk(m, e)
       && e.targets != [] && (forall i :: 0 <= i < |e.targets| ==> TargetOk(e.targets[i])) && DistinctTargets(e.targets)
       && ListMatches(e.executed, Executed, e.targets, m.components)
       && ListMatches(e.observed, AlreadyInstalled, e.targets, m.components)
       && (e.operation.NoopOp? ==> !Has(e.targets, Executed))
       && e.requestedScope != [] && EvidenceOk(e.evidence)
       && SuccessOk(m, e)
  }

  /** The only set verification may draw from, and whether it may change anything. */
  function GrantedScope(m: Manifest): Option<(seq<string>, bool)> {
    if m.execution.None? then None
    else
      var e := m.execution.value;
      if e.operation.AddOp? && e.executed != [] then Some((e.executed, true))
      else if e.operation.NoopOp? && e.observed != [] then Some((e.observed, false))
      else None
  }

  // ---- the reader, as the program checks it ------------------------------------------------

  method CheckTarget(t: Target) returns (ok: bool)
    ensures ok <==> TargetOk(t)
  {
    if !Safe(t.component) { return false; }
    if t.status.OtherStatus? { return false; }
    if t.ns == "" || t.kind == "" || t.name == "" { return false; }
    ok := !((t.status.Executed? || t.status.AlreadyInstalled?) && t.uid == "");
  }

  method CheckTargets(targets: seq<Target>) returns (ok: bool, executed: nat, observed: nat)
    ensures ok <==> (forall i :: 0 <= i < |targets| ==> TargetOk(targets[i])) && DistinctTargets(targets)
    ensures ok ==> (executed > 0 <==> Has(targets, Executed)) && (observed > 0 <==> Has(targets, AlreadyInstalled))
  {
    var seen: set<string> := {};
    executed, observed := 0, 0;
    for i := 0 to |targets|
      invariant forall j :: 0 <= j < i ==> TargetOk(targets[j])
      invariant DistinctTargets(targets[..i])
      invariant forall n :: n in seen <==> exists j :: 0 <= j < i && targets[j].component == n
      invariant executed > 0 <==> exists j :: 0 <= j < i && targets[j].status == Executed
      invariant observed > 0 <==> exists j :: 0 <= j < i && targets[j].status == AlreadyInstalled
    {
      hide TargetOk;
      var t := targets[i];
      if t.component in seen { return false, 0, 0; }
      seen := seen + {t.component};
      var fine := CheckTarget(t);
      if !fine { return false, 0, 0; }
      if t.status.Executed? { executed := executed + 1; }
      if t.status.AlreadyInstalled? { observed := observed + 1; }
    }
    assert targets[..|targets|] == targets;
    ok := true;
    if exists j :: 0 <= j < |targets| && targets[j].status == Executed {
      var j :| 0 <= j < |targets| && targets[j].status == Executed;
      assert targets[j] in targets;
    }
    if exists j :: 0 <= j < |targets| && targets[j].status == AlreadyInstalled {
      var j :| 0 <= j < |targets| && targets[j].status == AlreadyInstalled;
      assert targets[j] in targets;
    }
  }

  /** The status each component reports. */
  ghost predicate StatusMap(statusOf: map<string, TargetStatus>, targets: seq<Target>) {
    && (forall n :: n in statusOf ==> Reports(targets, n, statusOf[n]))
    && (forall t :: t in targets ==> t.component in statusOf && statusOf[t.component] == t.status)
  }

  method StatusesOf(targets: seq<Target>) returns (statusOf: map<string, TargetStatus>)
    requires DistinctTargets(targets)
    ensures StatusMap(statusOf, targets)
  {
    statusOf := map[];
    for i := 0 to |targets|
      invariant forall n :: n in statusOf ==> Reports(targets, n, statusOf[n])
      invariant forall j :: 0 <= j < i ==> targets[j].component in statusOf && statusOf[targets[j].component] == targets[j].status
    {
      statusOf := statusOf[targets[i].component := targets[i].status];
      assert targets[i] in targets;
    }
  }

  /** One scope list against the targets, both ways. */
  method CheckList(names: seq<string>, status: TargetStatus, statusOf: map<string, TargetStatus>, recorded: set<string>)
    returns (ok: bool)
    ensures ok <==>
      && NoDup(names) && (forall n :: n in names ==> Safe(n) && n in recorded && n in statusOf && statusOf[n] == status)
      && (forall n :: n in statusOf && statusOf[n] == status ==> n in names)
  {
    var named: set<string> := {};
    for i := 0 to |names|
      invariant NoDup(names[..i])
      invariant forall n :: n in named <==> n in names[..i]
      invariant forall n :: n in names[..i] ==> Safe(n) && n in recorded && n in statusOf && statusOf[n] == status
    {
      var name := names[i];
      assert name in names && names[..i + 1] == names[..i] + [name];
      if !Safe(name) { return false; }
      if name !in recorded { return false; }
      if name in named {
        var j :| 0 <= j < i && names[j] == name;
        return false;
      }
      named := named + {name};
      if name !in statusOf || statusOf[name] != status { return false; }
    }
    assert names[..|names|] == names;
    var rest := statusOf.Keys;
    while rest != {}
      invariant rest <= statusOf.Keys
      invariant forall n :: n in statusOf && n !in rest && statusOf[n] == status ==> n in names
    {
      var name :| name in rest;
      if statusOf[name] == status && name !in named { return false; }
      rest := rest - {name};
    }
    ok := true;
  }

  /** CheckList decides ListMatches once the statuses are collected. */
  lemma ListChecked(names: seq<string>, status: TargetStatus, statusOf: map<string, TargetStatus>, targets: seq<Target>, components: seq<string>)
    requires StatusMap(statusOf, targets)
    ensures ListMatches(names, status, targets, components) <==>
      && NoDup(names) && (forall n :: n in names ==> Safe(n) && n in components && n in statusOf && statusOf[n] == status)
      && (forall n :: n in statusOf && statusOf[n] == status ==> n in names)
  {
    forall n | n in statusOf && statusOf[n] == status
      ensures exists t :: t in targets && t.component == n && t.status == status
    {
      assert Reports(targets, n, statusOf[n]);
    }
  }

  method CheckEvidence(evidence: seq<Evidence>, succeeded: bool) returns (ok: bool)
    ensures ok <==> EvidenceOk(evidence) && (succeeded ==> HasEvidence(evidence, PlanEvidence) && HasEvidence(evidence, ReportEvidence))
  {
    var present: set<EvidenceKind> := {};
    for i := 0 to |evidence|
      invariant forall j :: 0 <= j < i ==> evidence[j].path != "" && IsHex64(evidence[j].sha256)
      invariant forall k :: k in present <==> exists j :: 0 <= j < i && evidence[j].kind == k
    {
      if evidence[i].path == "" || !IsHex64(evidence[i].sha256) { return false; }
      present := present + {evidence[i].kind};
    }
    forall k
      ensures k in present <==> HasEvidence(evidence, k)
    {
      if k in present {
        var j :| 0 <= j < |evidence| && evidence[j].kind == k;
        assert evidence[j] in evidence;
      }
    }
    ok := succeeded ==> PlanEvidence in present && ReportEvidence in present;
  }

  method AllConfirmed(targets: seq<Target>) returns (ok: bool)
    ensures ok <==> forall i :: 0 <= i < |targets| ==> Confirmed(targets[i])
  {
    for i := 0 to |targets|
      invariant forall j :: 0 <= j < i ==> Confirmed(targets[j])
    {
      if !Confirmed(targets[i]) { return false; }
    }
    ok := true;
  }

  /** Accepts exactly the declared shape, without looking at any file or at the cluster. */
  method ValidateShape(m: Manifest) returns (ok: bool)
    ensures ok <==> ShapeOk(m)
  {
    if !HeaderOk(m) || m.execution.None? { return false; }
    var e := m.execution.value;
    if !LinkageOk(m, e) { return false; }
    if |e.targets| == 0 { return false; }
    var targetsOk, executed, observed := CheckTargets(e.targets);
    if !targetsOk { return false; }
    var statusOf := StatusesOf(e.targets);
    var recorded := set n | n in m.components;
    ListChecked(e.executed, Executed, statusOf, e.targets, m.components);
    ListChecked(e.observed, AlreadyInstalled, statusOf, e.targets, m.components);
    var listOk := CheckList(e.executed, Executed, statusOf, recorded);
    if !listOk { return false; }
    listOk := CheckList(e.observed, AlreadyInstalled, statusOf, recorded);
    if !listOk { return false; }
    ok := ValidateSemantics(m, e, executed, observed);
  }

  method ValidateSemantics(m: Manifest, e: Execution, executed: nat, observed: nat) returns (ok: bool)
    requires (executed > 0 <==> Has(e.targets, Executed)) && (observed > 0 <==> Has(e.targets, AlreadyInstalled))
    ensures ok <==>
      && (e.operation.NoopOp? ==> !Has(e.targets, Executed))
      && e.requestedScope != [] && EvidenceOk(e.evidence) && SuccessOk(m, e)
  {
    if e.operation.AddOp? && m.result.Succeeded? && executed == 0 { return false; }
    if e.operation.NoopOp? {
      if executed > 0 { return false; }
      if m.result.Succeeded? && observed == 0 { return false; }
    }
    if m.result.Succeeded? {
      var confirmed := AllConfirmed(e.targets);
      if !confirmed { return false; }
    }
    if |e.requestedScope| == 0 { return false; }
    ok := CheckEvidence(e.evidence, m.result.Succeeded?);
  }

  // ---- tampering with one field ----------------------------------------------------------------

  /** What an accepted record allows to stand in each field of its header, the rest unchanged. */
  lemma HeaderFieldByField(m: Manifest)
    requires ShapeOk(m)
    ensures forall x :: ShapeOk(m.(schemaVersion := x)) <==> x == 1
    ensures forall x :: ShapeOk(m.(recordKind := x)) <==> x == "components-execution"
    ensures forall x :: ShapeOk(m.(runId := x)) <==> x != "" && '/' !in x && '\\' !in x
    ensures forall x :: ShapeOk(m.(clusterName := x)) <==> x != ""
    ensures forall x :: ShapeOk(m.(identity := m.identity.(binaryDigest := x))) <==> IsHex64(x)
    ensures forall x :: ShapeOk(m.(identity := m.identity.(lockDigest := x))) <==> IsHex64(x)
    ensures forall x :: ShapeOk(m.(identity := m.identity.(treeFingerprint := x))) <==> IsHex64(x) || x == "not-embedded"
    ensures forall x :: ShapeOk(m.(identity := m.identity.(commit := x))) <==> x == "not-embedded" || IsGitCommit(x)
    ensures forall x :: ShapeOk(m.(configDigest := x)) <==>
      IsHex64(x) && (m.execution.value.operation == AddOp ==> x != m.execution.value.baseConfigDigest)
  {
    hide IsHex64;
    hide ListMatches;
    hide TargetOk;
    hide DistinctTargets;
    hide EvidenceOk;
  }

  /** And in its link to the base. */
  lemma LinkFieldByField(m: Manifest)
    requires ShapeOk(m)
    ensures var e := m.execution.value;
      && (forall x :: ShapeOk(m.(execution := Some(e.(baseRunId := x)))) <==> x != "")
      && (forall x :: ShapeOk(m.(execution := Some(e.(baseClusterUid := x)))) <==> x != "")
      && (forall x :: ShapeOk(m.(execution := Some(e.(baseRecordSha := x)))) <==> IsHex64(x))
      && (forall x :: ShapeOk(m.(execution := Some(e.(baseConfigDigest := x)))) <==> IsHex64(x) && (e.operation == AddOp ==> x != m.configDigest))
      && (forall x :: ShapeOk(m.(execution := Some(e.(didInstall := x)))) <==> (x <==> e.operation == AddOp))
      && (forall x :: ShapeOk(m.(execution := Some(e.(requestedScope := x)))) <==> x != [])
      && !ShapeOk(m.(execution := None))
  {
    hide IsHex64;
    hide IsGitCommit;
    hide ListMatches;
    hide TargetOk;
    hide DistinctTargets;
    hide EvidenceOk;
  }

  /** No target of an accepted record can lose its name, kind or namespace, or, if it is reported
      as done, its uid. */
  lemma AcceptedTargetsAreIdentified(m: Manifest, i: nat)
    requires ShapeOk(m) && i < |m.execution.value.targets|
    ensures var t := m.execution.value.targets[i];
      && t.component != "" && '/' !in t.component && '\\' !in t.component && !t.status.OtherStatus?
      && t.ns != "" && t.kind != "" && t.name != ""
      && (t.status == Executed || t.status == AlreadyInstalled ==> t.uid != "")
      && (m.result == Succeeded ==> t.status == Executed || t.status == AlreadyInstalled)
      && (t.status == Executed <==> t.component in m.execution.value.executed)
      && (t.status == AlreadyInstalled <==> t.component in m.execution.value.observed)
      && (m.execution.value.operation == NoopOp ==> t.status != Executed)
  {
    var e := m.execution.value;
    assert TargetOk(e.targets[i]) && e.targets[i] in e.targets;
    if e.targets[i].component in e.executed {
      assert Reports(e.targets, e.targets[i].component, Executed);
      SameTarget(e.targets, i, Executed);
    }
    if e.targets[i].component in e.observed {
      assert Reports(e.targets, e.targets[i].component, AlreadyInstalled);
      SameTarget(e.targets, i, AlreadyInstalled);
    }
  }

  lemma SameTarget(targets: seq<Target>, i: nat, status: TargetStatus)
    requires DistinctTargets(targets) && i < |targets| && Reports(targets, targets[i].component, status)
    ensures targets[i].status == status
  {
    var t :| t in targets && t.component == targets[i].component && t.status == status;
    var j :| 0 <= j < |targets| && targets[j] == t;
    assert i == j;
  }

  /** Git's short and long hashes, also as `describe` prints them, and nothing else. */
  lemma CommitShape(hash: string, rest: string)
    requires '-' !in hash
    ensures IsGitCommit(hash) == IsGitCommit(hash + "-" + rest)
    ensures IsGitCommit(hash) <==>
      7 <= |hash| <= 40 && forall i :: 0 <= i < |hash| ==> '0' <= hash[i] <= '9' || 'a' <= hash[i] <= 'f' || 'A' <= hash[i] <= 'F'
  {
    CutKeeps(hash, "");
    CutKeeps(hash, "-" + rest);
    assert hash + "" == hash && hash + ("-" + rest) == hash + "-" + rest;
  }

  lemma {:induction false} CutKeeps(hash: string, rest: string)
    requires '-' !in hash && (rest == "" || rest[0] == '-')
    ensures CutAtDash(hash + rest) == hash
  {
    if hash == "" {
      assert hash + rest == rest;
    } else {
      assert (hash + rest)[1..] == hash[1..] + rest;
      CutKeeps(hash[1..], rest);
    }
  }
}
