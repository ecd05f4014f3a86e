/** One `components execute`: gates that all precede the single playbook call, then the
    report and the record. The effects are returned as a log, in the order they happened. */
module Execute {
  import opened Wrappers
  import opened Closure
  import opened ClosureTheory
  import opened Resolver
  import R = Record
  import W = RecordWriter
  import opened Strings

  // ---- who owns what is there -------------------------------------------------------------

  /** What probing a component's primary object returned. */
  datatype Probe =
    | Absent
    | Unreadable
    | Release(status: string, chart: string, version: string, owner: string)
    | Workload(owner: string)

  /** Only a definitive absence is planned and only an ANI-owned deployed object of the
      expected chart is already installed; everything else refuses. */
  function Classify(spec: Spec, probe: Probe, cluster: string): Option<string> {
    match probe
    case Absent => Some(PLANNED)
    case Unreadable => None
    case Release(status, chart, version, owner) =>
      if spec.release != "" && status == "deployed" && chart == spec.chart && version == spec.chartVersion && owner == cluster
      then Some(ALREADY_INSTALLED) else None
    case Workload(owner) =>
      if spec.release == "" && Strings.Trim(owner) == cluster then Some(ALREADY_INSTALLED) else None
  }

  function ProbeOf(probes: map<string, Probe>, name: string): Probe {
    if name in probes then probes[name] else Unreadable
  }

  function StatusOf(cfg: Config, probes: map<string, Probe>, cluster: string, name: string): Option<string> {
    if name in cfg.specs then Classify(cfg.specs[name], ProbeOf(probes, name), cluster) else None
  }

  /** Classifies every component of the scope, or refuses. */
  method PreflightOwnership(cfg: Config, probes: map<string, Probe>, cluster: string, scope: seq<string>) returns (rows: Option<seq<Row>>)
    ensures rows.Some? <==> forall i :: 0 <= i < |scope| ==> StatusOf(cfg, probes, cluster, scope[i]).Some?
    ensures rows.Some? ==> |rows.value| == |scope| && forall i :: 0 <= i < |scope| ==>
      rows.value[i].component == scope[i] && Some(rows.value[i].status) == StatusOf(cfg, probes, cluster, scope[i])
    ensures rows.Some? <==> forall i :: 0 <= i < |scope| ==>
      && scope[i] in cfg.specs && scope[i] in probes
      && var spec, probe := cfg.specs[scope[i]], probes[scope[i]];
         || probe == Absent
         || (spec.release != "" && probe == Release("deployed", spec.chart, spec.chartVersion, cluster))
         || (spec.release == "" && probe.Workload? && Strings.Trim(probe.owner) == cluster)
    ensures rows.Some? ==> forall i :: 0 <= i < |scope| ==>
      && (rows.value[i].status == "planned" <==> probes[scope[i]] == Absent)
      && (rows.value[i].status == "already_installed" <==> probes[scope[i]] != Absent)
  {
    var results: seq<Row> := [];
    for i := 0 to |scope|
      invariant |results| == i && forall j :: 0 <= j < i ==>
        results[j].component == scope[j] && Some(results[j].status) == StatusOf(cfg, probes, cluster, scope[j])
    {
      var status := StatusOf(cfg, probes, cluster, scope[i]);
      if status.None? { return None; }
      results := results + [Row(scope[i], status.value)];
    }
    rows := Some(results);
  }

  // ---- the scene --------------------------------------------------------------------------------

  /** Gates whose verdict comes from files, the network or the live cluster. */
  datatype Gate =
    | ReadPlan | ParsePlan | LoadConfig | BaseRunPath | BaseRecord | ExecutionHost | ProductLock | LiveCluster
    | NodesReady | MaterialsLock | LivePreflight | ImageContent

  const PLAN_GATES: seq<Gate> := [ReadPlan, ParsePlan]
  const SITE_GATES: seq<Gate> := [
    LoadConfig, BaseRunPath, BaseRecord, ExecutionHost, ProductLock, LiveCluster, NodesReady, MaterialsLock]
  const CONTENT_GATES: seq<Gate> := [LivePreflight, ImageContent]

  const PLAN_VERSION := 1
  const RUN_PREFIX := "ani-components-"

  /** The plan's bindings to the site it was made for; `cleanPath` says that the base run file
      is an absolute path in its shortest form. */
  datatype PlanHeader = PlanHeader(
    schemaVersion: int, baseRunFile: string, cleanPath: bool, baseConfigDigest: string, baseClusterUid: string)

  /** Everything one execution meets. `sha` is the digest of a file's bytes, empty when it
      cannot be read; `prior` is an earlier record of a component, if one is found. */
  datatype Scene = Scene(
    passes: Gate -> bool, header: PlanHeader, rows: seq<Row>, cfg: Config, cluster: string, configDigest: string,
    probes: map<string, Probe>, base: W.Base, baseLock: string, plan: W.PlanFacts, obs: W.Observed, runnerDigest: string,
    uids: map<string, string>, dirsOk: bool, rendered: bool, logOk: bool, projectOk: bool, playbookOk: bool,
    connectionsOk: bool, reportOk: bool, writeOk: bool,
    planFile: string, reportFile: string, connectionsFile: string, sha: string -> string, prior: string -> Option<R.Evidence>)

  datatype Effect =
    | RunDirs
    | LogOpened
    | PlaybookRun(scope: seq<string>, succeeded: bool)
    | ReportLanded(pass: bool)
    | RecordTried(manifest: Option<R.Manifest>, landed: bool)

  function WithStatus(rows: seq<Row>, status: string): seq<string> {
    if rows == [] then []
    else (if rows[0].status == status then [rows[0].component] else []) + WithStatus(rows[1..], status)
  }

  function Planned(sc: Scene): seq<string> { WithStatus(sc.rows, PLANNED) }
  function Already(sc: Scene): seq<string> { WithStatus(sc.rows, ALREADY_INSTALLED) }

  /** The live classification of each row is still what the plan wrote down. */
  predicate Fresh(sc: Scene, row: Row) {
    StatusOf(sc.cfg, sc.probes, sc.cluster, row.component) == Some(row.status)
  }

  /** The plan's own header: a known version, a run id that is one path element of this
      program's making, digests that are digests, and a cluster and base run to be bound to. */
  predicate HeaderOk(plan: W.PlanFacts, h: PlanHeader) {
    && h.schemaVersion == PLAN_VERSION
    && Strings.Trim(plan.runId) != "" && RUN_PREFIX <= plan.runId && '/' !in plan.runId && '\\' !in plan.runId
    && h.cleanPath && R.IsHex64(plan.newConfigDigest) && R.IsHex64(h.baseConfigDigest)
    && R.IsHex64(plan.binaryDigest) && h.baseClusterUid != "" && Strings.Trim(h.baseRunFile) != ""
  }

  /** The base record is that of a first install that succeeded. */
  predicate BaseOk(base: W.Base, baseLock: string) {
    base.installSuccess && R.IsHex64(base.configDigest) && base.clusterUid != "" && R.IsHex64(baseLock)
  }

  /** Site, base, live cluster, materials and binary are the ones the plan was made for. */
  predicate BindingsOk(sc: Scene) {
    && sc.configDigest == sc.plan.newConfigDigest && sc.cluster == sc.plan.clusterName
    && BaseOk(sc.base, sc.baseLock)
    && sc.obs.clusterUid == sc.base.clusterUid && sc.obs.clusterUid == sc.header.baseClusterUid
    && sc.obs.lockDigest == sc.baseLock && sc.runnerDigest == sc.plan.binaryDigest
  }

  /** Every gate before the first write. */
  ghost predicate AllGates(sc: Scene) {
    && (forall g: Gate :: sc.passes(g))
    && HeaderOk(sc.plan, sc.header) && BindingsOk(sc)
    && ClosedPlan(sc.cfg, Names(sc.rows))
    && (forall i :: 0 <= i < |sc.rows| ==> LegalStatus(sc.rows[i]) && Fresh(sc, sc.rows[i]))
  }

  lemma {:induction false} WithStatusMembers(rows: seq<Row>, status: string)
    ensures forall x :: x in WithStatus(rows, status) <==> exists i :: 0 <= i < |rows| && rows[i].component == x && rows[i].status == status
  {
    if rows != [] {
      WithStatusMembers(rows[1..], status);
      forall x
        ensures x in WithStatus(rows, status) <==> exists i :: 0 <= i < |rows| && rows[i].component == x && rows[i].status == status
      {
        if x in WithStatus(rows[1..], status) {
          var i :| 0 <= i < |rows[1..]| && rows[1..][i].component == x && rows[1..][i].status == status;
          assert rows[i + 1].component == x;
        }
        if i :| 0 <= i < |rows| && rows[i].component == x && rows[i].status == status {
          if i > 0 { assert rows[1..][i - 1] == rows[i]; }
        }
      }
    }
  }

  // ---- the rows handed to the record writer --------------------------------------------------------

  function RecordRows(rows: seq<Row>): (out: seq<W.PlanRow>)
    ensures |out| == |rows|
  {
    seq(|rows|, i requires 0 <= i < |rows| => W.PlanRow(rows[i].component, rows[i].status == PLANNED, ""))
  }

  function Statuses(rows: seq<Row>, ran: R.TargetStatus): map<string, R.TargetStatus> {
    map x | x in Names(rows) :: if x in WithStatus(rows, PLANNED) then ran else R.AlreadyInstalled
  }

  function FileEvidence(sc: Scene, kind: R.EvidenceKind, path: string): R.Evidence {
    R.Evidence(kind, path, sc.sha(path))
  }

  /** The earlier records found for these components, in their order. */
  function Priors(rows: seq<Row>, prior: string -> Option<R.Evidence>): seq<R.Evidence> {
    if rows == [] then []
    else (if prior(rows[0].component).Some? then [prior(rows[0].component).value] else []) + Priors(rows[1..], prior)
  }

  /** Every record rests on the plan and the report; an addition also on its connection facts,
      a no-op on the earlier records it relies on. */
  function EvidenceOf(sc: Scene, op: R.Operation, result: R.RunResult): seq<R.Evidence> {
    [FileEvidence(sc, R.PlanEvidence, sc.planFile), FileEvidence(sc, R.ReportEvidence, sc.reportFile)]
    + (if op.NoopOp? then Priors(sc.rows, sc.prior)
       else if result.Succeeded? then [FileEvidence(sc, R.ConnectionsEvidence, sc.connectionsFile)] else [])
  }

  /** The manifest one execution would write. */
  function ManifestOf(sc: Scene, op: R.Operation, result: R.RunResult, ran: R.TargetStatus): Option<R.Manifest> {
    W.Build(sc.base, sc.plan, sc.obs, op, result,
            W.TargetsOf(RecordRows(sc.rows), sc.cfg.specs, Statuses(sc.rows, ran), sc.uids), EvidenceOf(sc, op, result))
  }

  method CollectPriors(rows: seq<Row>, prior: string -> Option<R.Evidence>) returns (found: seq<R.Evidence>)
    ensures found == Priors(rows, prior)
  {
    found := [];
    for i := 0 to |rows|
      invariant found + Priors(rows[i..], prior) == Priors(rows, prior)
    {
      assert rows[i..][0] == rows[i] && rows[i..][1..] == rows[i + 1..];
      var ref := prior(rows[i].component);
      if ref.Some? { found := found + [ref.value]; }
    }
    assert rows[|rows|..] == [];
  }

  method TryRecord(sc: Scene, op: R.Operation, result: R.RunResult, ran: R.TargetStatus) returns (manifest: Option<R.Manifest>, landed: bool)
    ensures manifest == ManifestOf(sc, op, result, ran)
    ensures landed <==> manifest.Some? && sc.writeOk
  {
    var targets := W.RecordTargets(RecordRows(sc.rows), sc.cfg.specs, Statuses(sc.rows, ran), sc.uids);
    var evidence := [FileEvidence(sc, R.PlanEvidence, sc.planFile), FileEvidence(sc, R.ReportEvidence, sc.reportFile)];
    if op.NoopOp? {
      var priors := CollectPriors(sc.rows, sc.prior);
      evidence := evidence + priors;
    } else if result.Succeeded? {
      evidence := evidence + [FileEvidence(sc, R.ConnectionsEvidence, sc.connectionsFile)];
    }
    assert evidence == EvidenceOf(sc, op, result);
    manifest := W.NewManifest(sc.base, sc.plan, sc.obs, op, result, targets, evidence);
    landed := manifest.Some? && sc.writeOk;
  }

  // ---- execute ------------------------------------------------------------------------------------------

  method CheckGates(sc: Scene, gates: seq<Gate>) returns (ok: bool)
    ensures ok <==> forall g :: g in gates ==> sc.passes(g)
  {
    for i := 0 to |gates|
      invariant forall j :: 0 <= j < i ==> sc.passes(gates[j])
    {
      if !sc.passes(gates[i]) {
        assert gates[i] in gates;
        return false;
      }
    }
    ok := true;
  }

  /** The plan's own rows: distinct, legal, not empty. */
  method ValidateRows(rows: seq<Row>) returns (ok: bool)
    ensures ok <==> rows != [] && NoDup(Names(rows)) && forall i :: 0 <= i < |rows| ==> LegalStatus(rows[i])
  {
    var names := Names(rows);
    var seen: set<string> := {};
    for i := 0 to |rows|
      invariant forall j :: 0 <= j < i ==> LegalStatus(rows[j])
      invariant NoDup(names[..i]) && forall x :: x in seen <==> x in names[..i]
    {
      assert names[..i + 1] == names[..i] + [names[i]];
      if rows[i].component in seen {
        var j :| 0 <= j < i && names[j] == names[i];
        return false;
      }
      seen := seen + {rows[i].component};
      if !LegalStatus(rows[i]) { return false; }
    }
    assert names[..|rows|] == names;
    ok := rows != [];
  }

  /** The plan as an input: its header and its rows. */
  method ValidatePlan(sc: Scene) returns (ok: bool)
    ensures ok <==> HeaderOk(sc.plan, sc.header) && sc.rows != [] && NoDup(Names(sc.rows)) && forall i :: 0 <= i < |sc.rows| ==> LegalStatus(sc.rows[i])
  {
    var plan, h := sc.plan, sc.header;
    if h.schemaVersion != PLAN_VERSION { return false; }
    if Strings.Trim(plan.runId) == "" || !(RUN_PREFIX <= plan.runId) { return false; }
    if '/' in plan.runId || '\\' in plan.runId { return false; }
    if !h.cleanPath { return false; }
    if !R.IsHex64(plan.newConfigDigest) || !R.IsHex64(h.baseConfigDigest) { return false; }
    if !R.IsHex64(plan.binaryDigest) || h.baseClusterUid == "" || Strings.Trim(h.baseRunFile) == "" { return false; }
    ok := ValidateRows(sc.rows);
  }

  method CheckBindings(sc: Scene) returns (ok: bool)
    ensures ok <==> BindingsOk(sc)
  {
    if sc.configDigest != sc.plan.newConfigDigest || sc.cluster != sc.plan.clusterName { return false; }
    if !sc.base.installSuccess || !R.IsHex64(sc.base.configDigest) { return false; }
    if sc.base.clusterUid == "" || !R.IsHex64(sc.baseLock) { return false; }
    if sc.obs.clusterUid != sc.base.clusterUid || sc.obs.clusterUid != sc.header.baseClusterUid { return false; }
    if sc.obs.lockDigest == "" { return false; }
    if sc.obs.lockDigest != sc.baseLock && "sha256:" + sc.obs.lockDigest != sc.baseLock {
      return false;
    }
    NoPrefixInHex(sc.obs.lockDigest, sc.baseLock);
    ok := sc.runnerDigest == sc.plan.binaryDigest;
  }

  /** A digest without prefix never equals one with it, so the lenient comparison is exact. */
  lemma NoPrefixInHex(lock: string, digest: string)
    requires R.IsHex64(digest)
    ensures "sha256:" + lock != digest
  {
    assert ("sha256:" + lock)[0] == 's' && R.IsHex(digest[0]);
  }

  /** All that is checked while the run has left no trace yet. */
  method PassGates(sc: Scene) returns (ok: bool)
    requires TableOk(sc.cfg)
    ensures ok <==> AllGates(sc)
    ensures ok ==>
      && sc.header.schemaVersion == 1 && "ani-components-" <= sc.plan.runId && '/' !in sc.plan.runId && '\\' !in sc.plan.runId
      && sc.header.cleanPath && R.IsHex64(sc.header.baseConfigDigest) && R.IsHex64(sc.plan.newConfigDigest) && R.IsHex64(sc.plan.binaryDigest)
      && sc.configDigest == sc.plan.newConfigDigest && sc.cluster == sc.plan.clusterName && sc.runnerDigest == sc.plan.binaryDigest
      && sc.base.installSuccess && R.IsHex64(sc.base.configDigest) && sc.base.clusterUid != ""
      && sc.obs.clusterUid == sc.base.clusterUid == sc.header.baseClusterUid && sc.obs.lockDigest == sc.baseLock && R.IsHex64(sc.baseLock)
    ensures ok ==> sc.rows != [] && (forall i, j :: 0 <= i < j < |sc.rows| ==> sc.rows[i].component != sc.rows[j].component)
    ensures ok ==> forall i :: 0 <= i < |sc.rows| ==>
      && sc.rows[i].component in sc.cfg.specs && sc.rows[i].component in sc.cfg.enabled && sc.rows[i].component in sc.probes
      && (sc.rows[i].status == "planned" || sc.rows[i].status == "already_installed")
      && (sc.rows[i].status == "planned" <==> sc.probes[sc.rows[i].component] == Absent)
  {
    hide HeaderOk;
    hide BindingsOk;
    ok := CheckGates(sc, PLAN_GATES);
    if !ok { return; }
    ok := ValidatePlan(sc);
    if !ok { return; }
    ok := CheckGates(sc, SITE_GATES);
    if !ok { return; }
    var planned := CollectStatus(sc.rows, PLANNED);
    PlannedAreRows(sc.rows);
    var full := ValidatePlanClosure(sc.rows, sc.cfg, planned);
    if full.None? { return false; }
    ok := CheckGates(sc, CONTENT_GATES);
    if !ok { return; }
    ok := StillFresh(sc, full.value);
    if !ok { return; }
    ok := CheckBindings(sc);
    EveryGateIsChecked();
    if ok { PassedGatesMean(sc); }
  }

  lemma PassedGatesMean(sc: Scene)
    requires AllGates(sc)
    ensures HeaderOk(sc.plan, sc.header) && BindingsOk(sc)
    ensures sc.header.schemaVersion == 1 && "ani-components-" <= sc.plan.runId && '/' !in sc.plan.runId && '\\' !in sc.plan.runId
    ensures sc.header.cleanPath && R.IsHex64(sc.header.baseConfigDigest) && R.IsHex64(sc.plan.newConfigDigest) && R.IsHex64(sc.plan.binaryDigest)
    ensures sc.configDigest == sc.plan.newConfigDigest && sc.cluster == sc.plan.clusterName && sc.runnerDigest == sc.plan.binaryDigest
    ensures sc.base.installSuccess && R.IsHex64(sc.base.configDigest) && sc.base.clusterUid != ""
    ensures sc.obs.clusterUid == sc.base.clusterUid == sc.header.baseClusterUid && sc.obs.lockDigest == sc.baseLock && R.IsHex64(sc.baseLock)
    ensures sc.rows != [] && (forall i, j :: 0 <= i < j < |sc.rows| ==> sc.rows[i].component != sc.rows[j].component)
    ensures forall i :: 0 <= i < |sc.rows| ==>
      && sc.rows[i].component in sc.cfg.specs && sc.rows[i].component in sc.cfg.enabled && sc.rows[i].component in sc.probes
      && (sc.rows[i].status == "planned" || sc.rows[i].status == "already_installed")
      && (sc.rows[i].status == "planned" <==> sc.probes[sc.rows[i].component] == Absent)
  {
    hide R.IsHex64;
    hide StatusOf;
    forall i, j | 0 <= i < j < |sc.rows|
      ensures sc.rows[i].component != sc.rows[j].component
    {
      assert Names(sc.rows)[i] != Names(sc.rows)[j];
    }
    forall i | 0 <= i < |sc.rows|
      ensures sc.rows[i].component in sc.cfg.specs && sc.rows[i].component in sc.cfg.enabled && sc.rows[i].component in sc.probes
      ensures sc.rows[i].status == "planned" <==> sc.probes[sc.rows[i].component] == Absent
    {
      assert Names(sc.rows)[i] in Names(sc.rows);
      assert LegalStatus(sc.rows[i]) && Fresh(sc, sc.rows[i]);
      ClassesMean(sc.cfg, sc.probes, sc.cluster, sc.rows[i].component);
    }
  }

  lemma EveryGateIsChecked()
    ensures forall g: Gate :: g in PLAN_GATES || g in SITE_GATES || g in CONTENT_GATES
  {
    forall g: Gate
      ensures g in PLAN_GATES || g in SITE_GATES || g in CONTENT_GATES
    {
      match g
      case ReadPlan => assert PLAN_GATES[0] == g;
      case ParsePlan => assert PLAN_GATES[1] == g;
      case LoadConfig => assert SITE_GATES[0] == g;
      case BaseRunPath => assert SITE_GATES[1] == g;
      case BaseRecord => assert SITE_GATES[2] == g;
      case ExecutionHost => assert SITE_GATES[3] == g;
      case ProductLock => assert SITE_GATES[4] == g;
      case LiveCluster => assert SITE_GATES[5] == g;
      case NodesReady => assert SITE_GATES[6] == g;
      case MaterialsLock => assert SITE_GATES[7] == g;
      case LivePreflight => assert CONTENT_GATES[0] == g;
      case ImageContent => assert CONTENT_GATES[1] == g;
    }
  }

  lemma PlannedAreRows(rows: seq<Row>)
    ensures forall x :: x in WithStatus(rows, PLANNED) ==> x in Names(rows)
  {
    WithStatusMembers(rows, PLANNED);
    forall x | x in WithStatus(rows, PLANNED)
      ensures x in Names(rows)
    {
      var i :| 0 <= i < |rows| && rows[i].component == x && rows[i].status == PLANNED;
      assert Names(rows)[i] == x;
    }
  }

  method CollectStatus(rows: seq<Row>, status: string) returns (names: seq<string>)
    ensures names == WithStatus(rows, status)
  {
    names := [];
    for i := 0 to |rows|
      invariant names + WithStatus(rows[i..], status) == WithStatus(rows, status)
    {
      assert rows[i..][0] == rows[i] && rows[i..][1..] == rows[i + 1..];
      if rows[i].status == status { names := names + [rows[i].component]; }
    }
    assert rows[|rows|..] == [];
  }

  /** Re-observes every component of the closure under the lock and compares it with the
      plan's rows. */
  method StillFresh(sc: Scene, full: seq<string>) returns (ok: bool)
    requires forall x :: x in full <==> x in Names(sc.rows)
    requires forall i :: 0 <= i < |sc.rows| ==> LegalStatus(sc.rows[i])
    ensures ok <==> forall i :: 0 <= i < |sc.rows| ==> Fresh(sc, sc.rows[i])
  {
    var live := PreflightOwnership(sc.cfg, sc.probes, sc.cluster, full);
    RowsInFull(sc, full);
    if live.None? { return false; }
    var freshStatus: map<string, string> := map[];
    for i := 0 to |full|
      invariant forall x :: x in freshStatus ==> Some(freshStatus[x]) == StatusOf(sc.cfg, sc.probes, sc.cluster, x)
      invariant forall j :: 0 <= j < i ==> full[j] in freshStatus
    {
      freshStatus := freshStatus[live.value[i].component := live.value[i].status];
    }
    for i := 0 to |sc.rows|
      invariant forall j :: 0 <= j < i ==> Fresh(sc, sc.rows[j])
    {
      assert Names(sc.rows)[i] in full;
      if freshStatus[sc.rows[i].component] != sc.rows[i].status { return false; }
    }
    ok := true;
  }

  lemma RowsInFull(sc: Scene, full: seq<string>)
    requires forall x :: x in full <==> x in Names(sc.rows)
    ensures (forall i :: 0 <= i < |sc.rows| ==> Fresh(sc, sc.rows[i])) ==>
      forall i :: 0 <= i < |full| ==> StatusOf(sc.cfg, sc.probes, sc.cluster, full[i]).Some?
  {
    forall i | 0 <= i < |full| && forall j :: 0 <= j < |sc.rows| ==> Fresh(sc, sc.rows[j])
      ensures StatusOf(sc.cfg, sc.probes, sc.cluster, full[i]).Some?
    {
      assert full[i] in Names(sc.rows);
      var j :| 0 <= j < |sc.rows| && Names(sc.rows)[j] == full[i];
      assert Fresh(sc, sc.rows[j]);
    }
  }

  /** The complete sequence of effects of an execution that meets no failure of its own
      files. */
  function FullLog(sc: Scene): seq<Effect> {
    if Planned(sc) == [] then
      var m := ManifestOf(sc, R.NoopOp, R.Succeeded, R.Executed);
      [ReportLanded(true), RecordTried(m, m.Some? && sc.writeOk)]
    else
      var good := sc.playbookOk && sc.connectionsOk;
      var m := if good then ManifestOf(sc, R.AddOp, R.Succeeded, R.Executed) else ManifestOf(sc, R.AddOp, R.RunFailed, R.TargetFailed);
      [RunDirs, LogOpened, PlaybookRun(Planned(sc), sc.playbookOk), ReportLanded(good), RecordTried(m, m.Some? && sc.writeOk)]
  }

  /** How far an execution that passed its gates gets: to the end, unless a file of its own
      cannot be made. A failing playbook does not cut it short. */
  function Reached(sc: Scene): (n: nat)
    ensures n <= |FullLog(sc)|
  {
    if Planned(sc) == [] then (if sc.reportOk then 2 else 0)
    else if !sc.dirsOk then 0
    else if !sc.rendered || !sc.logOk then 1
    else if !sc.projectOk then 2
    else if !sc.reportOk then 3
    else 5
  }

  /** The last effect of a complete log is a record that landed. */
  predicate Landed(log: seq<Effect>) {
    log != [] && log[|log| - 1].RecordTried? && log[|log| - 1].landed
  }

  /** The run did what it was for, not merely all it could. */
  predicate Good(sc: Scene) {
    Planned(sc) != [] ==> sc.playbookOk && sc.connectionsOk
  }

  /** A report that landed is followed by exactly one record attempt, the last effect. */
  predicate RecordFollowsReport(log: seq<Effect>) {
    forall i :: 0 <= i < |log| && log[i].ReportLanded? ==> |log| == i + 2 && log[i + 1].RecordTried?
  }

  method RunNoop(sc: Scene) returns (ok: bool, log: seq<Effect>)
    requires Planned(sc) == []
    ensures log == FullLog(sc)[..Reached(sc)] && RecordFollowsReport(log)
    ensures ok <==> Landed(log)
  {
    hide ManifestOf;
    hide WithStatus;
    if !sc.reportOk { return false, []; }
    var manifest, landed := TryRecord(sc, R.NoopOp, R.Succeeded, R.Executed);
    log := [ReportLanded(true), RecordTried(manifest, landed)];
    ok := landed;
  }

  method RunAdd(sc: Scene, executed: seq<string>) returns (ok: bool, log: seq<Effect>)
    requires Planned(sc) != [] && executed == Planned(sc)
    ensures log == FullLog(sc)[..Reached(sc)] && RecordFollowsReport(log)
    ensures ok <==> Landed(log) && sc.playbookOk && sc.connectionsOk
  {
    hide ManifestOf;
    hide WithStatus;
    log := [];
    if !sc.dirsOk { return false, log; }
    log := [RunDirs];
    if !sc.rendered || !sc.logOk { return false, log; }
    log := log + [LogOpened];
    if !sc.projectOk { return false, log; }
    log := log + [PlaybookRun(executed, sc.playbookOk)];
    var good := sc.playbookOk && sc.connectionsOk;
    if !sc.reportOk { return false, log; }
    log := log + [ReportLanded(good)];
    var manifest, landed;
    if good {
      manifest, landed := TryRecord(sc, R.AddOp, R.Succeeded, R.Executed);
    } else {
      manifest, landed := TryRecord(sc, R.AddOp, R.RunFailed, R.TargetFailed);
    }
    log := log + [RecordTried(manifest, landed)];
    ok := good && landed;
  }

  /** One execution. On a path where any gate failed nothing at all is written or run.
      Otherwise the effects are exactly those of the one full sequence, as far as the run's
      own files could be made: so the playbook runs at most once, never for a plan with
      nothing to install, and is handed exactly the planned rows; once a report landed
      exactly one record attempt follows it, marked failed unless playbook and aggregation
      both succeeded; and success is reported exactly when the record of a good run landed. */
  method RunComponentsExecute(sc: Scene) returns (ok: bool, log: seq<Effect>)
    requires TableOk(sc.cfg)
    ensures log == if AllGates(sc) then FullLog(sc)[..Reached(sc)] else []
    ensures RecordFollowsReport(log)
    ensures ok <==> Landed(log) && Good(sc)
    ensures log != [] ==> sc.runnerDigest == sc.plan.binaryDigest && sc.configDigest == sc.plan.newConfigDigest && sc.cluster == sc.plan.clusterName
    ensures RunDirs in log <==> AllGates(sc) && Planned(sc) != [] && sc.dirsOk
    ensures LogOpened in log <==> RunDirs in log && sc.rendered && sc.logOk
    ensures PlaybookRun(Planned(sc), sc.playbookOk) in log <==> LogOpened in log && sc.projectOk
    ensures forall e :: e in log && e.PlaybookRun? ==> e == PlaybookRun(Planned(sc), sc.playbookOk)
    ensures forall e :: e in log && e.ReportLanded? ==> (e.pass <==> Planned(sc) == [] || (sc.playbookOk && sc.connectionsOk))
    ensures (exists e :: e in log && e.ReportLanded?) <==>
      AllGates(sc) && sc.reportOk && (Planned(sc) == [] || PlaybookRun(Planned(sc), sc.playbookOk) in log)
    ensures (exists e :: e in log && e.RecordTried?) <==> (exists e :: e in log && e.ReportLanded?)
    ensures forall e :: e in log && e.RecordTried? ==> (e.landed <==> e.manifest.Some? && sc.writeOk)
  {
    hide FullLog;
    var gates := PassGates(sc);
    if !gates { return false, []; }
    var executed := CollectStatus(sc.rows, PLANNED);
    if |executed| == 0 {
      ok, log := RunNoop(sc);
    } else {
      ok, log := RunAdd(sc, executed);
    }
    LogMeans(sc, log);
    hide Reached;
    PassedGatesMean(sc);
    hide AllGates;
  }

  /** What is in the log, effect by effect. */
  lemma LogMeans(sc: Scene, log: seq<Effect>)
    requires log == FullLog(sc)[..Reached(sc)]
    ensures RunDirs in log <==> Planned(sc) != [] && sc.dirsOk
    ensures LogOpened in log <==> RunDirs in log && sc.rendered && sc.logOk
    ensures PlaybookRun(Planned(sc), sc.playbookOk) in log <==> LogOpened in log && sc.projectOk
    ensures forall e :: e in log && e.PlaybookRun? ==> e == PlaybookRun(Planned(sc), sc.playbookOk)
    ensures forall e :: e in log && e.ReportLanded? ==> (e.pass <==> Planned(sc) == [] || (sc.playbookOk && sc.connectionsOk))
    ensures (exists e :: e in log && e.ReportLanded?) <==> sc.reportOk && (Planned(sc) == [] || PlaybookRun(Planned(sc), sc.playbookOk) in log)
    ensures (exists e :: e in log && e.RecordTried?) <==> (exists e :: e in log && e.ReportLanded?)
    ensures forall e :: e in log && e.RecordTried? ==> (e.landed <==> e.manifest.Some? && sc.writeOk)
  {
    hide ManifestOf;
    hide WithStatus;
    var full := FullLog(sc);
    assert forall i :: 0 <= i < |log| ==> log[i] == full[i];
    if Planned(sc) == [] {
      assert full[0].ReportLanded? && full[1].RecordTried?;
    } else {
      assert full[0] == RunDirs && full[1] == LogOpened && full[2] == PlaybookRun(Planned(sc), sc.playbookOk);
      assert full[3].ReportLanded? && full[4].RecordTried?;
    }
    var n := Reached(sc);
    assert n > 0 ==> log[0] == full[0];
    assert n > 1 ==> log[1] == full[1];
    assert n > 2 ==> log[2] == full[2];
    assert n > 3 ==> log[3] == full[3] && log[4] == full[4];
  }

  // ---- what the log means -----------------------------------------------------------------------------

  /** Only a definite absence is classified as planned, and only this cluster's own object of the
      expected make as already installed. */
  lemma ClassesMean(cfg: Config, probes: map<string, Probe>, cluster: string, x: string)
    ensures StatusOf(cfg, probes, cluster, x) == Some("planned") <==> x in cfg.specs && x in probes && probes[x] == Absent
    ensures StatusOf(cfg, probes, cluster, x) == Some("already_installed") <==>
      && x in cfg.specs && x in probes
      && ((cfg.specs[x].release != "" && probes[x] == Release("deployed", cfg.specs[x].chart, cfg.specs[x].chartVersion, cluster))
          || (cfg.specs[x].release == "" && probes[x].Workload? && Strings.Trim(probes[x].owner) == cluster))
  {
  }

  /** Every dependency of a planned row is planned too, or was re-observed as already
      installed under the lock. */
  lemma PlannedIsCovered(sc: Scene, x: string, d: string)
    requires AllGates(sc) && x in Planned(sc) && Needs(sc.cfg, x, d)
    ensures d in Planned(sc) || StatusOf(sc.cfg, sc.probes, sc.cluster, d) == Some(ALREADY_INSTALLED)
  {
    hide HeaderOk;
    hide BindingsOk;
    hide StatusOf;
    WithStatusMembers(sc.rows, PLANNED);
    PlannedAreRows(sc.rows);
    assert d in Names(sc.rows);
    var k :| 0 <= k < |sc.rows| && Names(sc.rows)[k] == d;
    assert LegalStatus(sc.rows[k]) && Fresh(sc, sc.rows[k]);
  }

  /** What the playbook is handed is exactly the planned rows; none of them is a row that was
      left alone; and every dependency of one of them is handed over too, or was re-observed
      as already installed under the lock. */
  lemma PlaybookScopeIsSafe(sc: Scene, log: seq<Effect>, i: nat)
    requires AllGates(sc) && log <= FullLog(sc) && i < |log| && log[i].PlaybookRun?
    ensures log[i].scope != [] && log[i].scope == Planned(sc)
    ensures forall x :: x in log[i].scope ==> x !in Already(sc)
    ensures forall x :: x in log[i].scope ==> x in sc.probes && sc.probes[x] == Absent
    ensures forall x, d :: x in log[i].scope && Needs(sc.cfg, x, d) ==>
      || (d in log[i].scope && sc.probes[d] == Absent)
      || (d in sc.cfg.specs && d in sc.probes
            && (sc.probes[d] == Release("deployed", sc.cfg.specs[d].chart, sc.cfg.specs[d].chartVersion, sc.cluster)
                || (sc.probes[d].Workload? && Strings.Trim(sc.probes[d].owner) == sc.cluster)))
  {
    hide ManifestOf;
    hide StatusOf;
    assert log[i] == FullLog(sc)[i];
    hide FullLog;
    forall x | x in Planned(sc)
      ensures x !in Already(sc)
      ensures x in sc.probes && sc.probes[x] == Absent
    {
      RowStatusUnique(sc.rows, x);
      PlannedIsAbsent(sc, x);
    }
    hide AllGates;
    forall x, d | x in Planned(sc) && Needs(sc.cfg, x, d)
      ensures
        || (d in Planned(sc) && sc.probes[d] == Absent)
        || (d in sc.cfg.specs && d in sc.probes
              && (sc.probes[d] == Release("deployed", sc.cfg.specs[d].chart, sc.cfg.specs[d].chartVersion, sc.cluster)
                  || (sc.probes[d].Workload? && Strings.Trim(sc.probes[d].owner) == sc.cluster)))
    {
      PlannedIsCovered(sc, x, d);
      ClassesMean(sc.cfg, sc.probes, sc.cluster, d);
    }
  }

  lemma PlannedIsAbsent(sc: Scene, x: string)
    requires AllGates(sc) && x in Planned(sc)
    ensures x in sc.probes && sc.probes[x] == Absent
  {
    hide HeaderOk;
    hide BindingsOk;
    WithStatusMembers(sc.rows, PLANNED);
    ClassesMean(sc.cfg, sc.probes, sc.cluster, x);
    hide StatusOf;
    var i :| 0 <= i < |sc.rows| && sc.rows[i].component == x && sc.rows[i].status == PLANNED;
    assert Fresh(sc, sc.rows[i]);
  }

  lemma RowStatusUnique(rows: seq<Row>, x: string)
    requires NoDup(Names(rows)) && x in WithStatus(rows, PLANNED)
    ensures x !in WithStatus(rows, ALREADY_INSTALLED)
  {
    WithStatusMembers(rows, PLANNED);
    WithStatusMembers(rows, ALREADY_INSTALLED);
    var i :| 0 <= i < |rows| && rows[i].component == x && rows[i].status == PLANNED;
    forall j | 0 <= j < |rows| && rows[j].component == x
      ensures rows[j].status != ALREADY_INSTALLED
    {
      assert Names(rows)[i] == Names(rows)[j];
    }
  }

  /** The playbook occurs at most once in any log, and not at all when nothing is planned. */
  lemma PlaybookAtMostOnce(sc: Scene, log: seq<Effect>, i: nat, j: nat)
    requires log <= FullLog(sc) && i < |log| && j < |log| && log[i].PlaybookRun? && log[j].PlaybookRun?
    ensures i == j && Planned(sc) != []
  {
    assert log[i] == FullLog(sc)[i] && log[j] == FullLog(sc)[j];
  }

  /** A failed run's record grants nothing; a successful addition's record, once consumable,
      grants exactly what the playbook was handed. */
  lemma FailedRecordGrantsNothing(sc: Scene, log: seq<Effect>, i: nat)
    requires AllGates(sc) && log <= FullLog(sc) && i < |log| && log[i].RecordTried? && log[i].manifest.Some?
    requires Planned(sc) != [] && !(sc.playbookOk && sc.connectionsOk)
    ensures R.GrantedScope(log[i].manifest.value) == None && log[i].manifest.value.result == R.RunFailed
    ensures log[i].manifest.value.execution.Some? && |log[i].manifest.value.execution.value.targets| == |sc.rows|
    ensures forall k :: 0 <= k < |sc.rows| && sc.rows[k].status == PLANNED ==>
      log[i].manifest.value.execution.value.targets[k].status == R.TargetFailed
  {
    assert log[i] == FullLog(sc)[i];
    var rows := RecordRows(sc.rows);
    StatusesFit(sc, R.TargetFailed);
    W.FailedRunGrantsNothing(sc.base, sc.plan, sc.obs, rows, sc.cfg.specs, Statuses(sc.rows, R.TargetFailed), sc.uids,
                             EvidenceOf(sc, R.AddOp, R.RunFailed));
  }

  lemma StatusesFit(sc: Scene, ran: R.TargetStatus)
    requires AllGates(sc)
    ensures W.StatusesFor(RecordRows(sc.rows), Statuses(sc.rows, ran), ran)
  {
    WithStatusMembers(sc.rows, PLANNED);
    forall i | 0 <= i < |sc.rows|
      ensures Names(sc.rows)[i] in Statuses(sc.rows, ran)
      ensures (sc.rows[i].component in WithStatus(sc.rows, PLANNED)) <==> sc.rows[i].status == PLANNED
    {
      assert Names(sc.rows)[i] == sc.rows[i].component;
      if sc.rows[i].component in WithStatus(sc.rows, PLANNED) {
        var k :| 0 <= k < |sc.rows| && sc.rows[k].component == sc.rows[i].component && sc.rows[k].status == PLANNED;
        assert Names(sc.rows)[k] == Names(sc.rows)[i];
      }
    }
  }

  lemma {:induction false} RecordRowsSplit(rows: seq<Row>)
    ensures W.RowsWith(RecordRows(rows), true) == WithStatus(rows, PLANNED)
  {
    if rows != [] {
      assert RecordRows(rows)[1..] == RecordRows(rows[1..]);
      RecordRowsSplit(rows[1..]);
    }
  }

  // ---- what a successful record grants -----------------------------------------------------------------

  /** What no gate establishes: the base record has a run id, the build and the base record's
      bytes can be identified, names are path elements, and the evidence can be hashed. */
  ghost predicate Attestable(sc: Scene, op: R.Operation) {
    && sc.base.runId != "" && sc.cluster != ""
    && (R.IsHex64(sc.obs.tree) || sc.obs.tree == R.NOT_EMBEDDED)
    && sc.obs.commit != "" && (sc.obs.commit == R.NOT_EMBEDDED || R.IsGitCommit(sc.obs.commit))
    && sc.obs.baseDigest.Some? && R.IsHex64(sc.obs.baseDigest.value)
    && (forall i :: 0 <= i < |sc.rows| ==> R.Safe(sc.rows[i].component))
    && R.EvidenceOk(EvidenceOf(sc, op, R.Succeeded))
  }

  /** The gates provide the rest of what the record's reader asks for. */
  lemma GatesMakeItSound(sc: Scene, op: R.Operation)
    requires AllGates(sc) && Attestable(sc, op)
    ensures W.SoundRun(sc.base, sc.plan, sc.obs, RecordRows(sc.rows), EvidenceOf(sc, op, R.Succeeded))
  {
    var rows, evidence := RecordRows(sc.rows), EvidenceOf(sc, op, R.Succeeded);
    forall i, j | 0 <= i < j < |rows|
      ensures rows[i].component != rows[j].component
    {
      assert Names(sc.rows)[i] != Names(sc.rows)[j];
    }
    assert evidence[0].kind == R.PlanEvidence && evidence[1].kind == R.ReportEvidence;
    assert Names(sc.rows) != [];
  }

  lemma {:induction false} ObservedRowsSplit(rows: seq<Row>)
    requires forall i :: 0 <= i < |rows| ==> LegalStatus(rows[i])
    ensures W.RowsWith(RecordRows(rows), false) == WithStatus(rows, ALREADY_INSTALLED)
  {
    if rows != [] {
      assert RecordRows(rows)[1..] == RecordRows(rows[1..]);
      ObservedRowsSplit(rows[1..]);
    }
  }

  /** The record a run that met no trouble leaves behind: accepted by the reader, it grants
      exactly the planned rows with leave to change them, or, when nothing was planned, exactly
      the rows it observed and no leave. */
  lemma ConfirmedManifest(sc: Scene, op: R.Operation)
    requires AllGates(sc) && Attestable(sc, op) && op == if Planned(sc) != [] then R.AddOp else R.NoopOp
    requires W.EveryUidReadable(RecordRows(sc.rows), sc.cfg.specs, Statuses(sc.rows, R.Executed), sc.uids)
    requires op == R.AddOp ==> sc.plan.newConfigDigest != sc.base.configDigest
    ensures var m := ManifestOf(sc, op, R.Succeeded, R.Executed);
      && m.Some? && R.ShapeOk(m.value)
      && R.GrantedScope(m.value) == Some(if op == R.AddOp then (Planned(sc), true) else (Already(sc), false))
  {
    StatusesFit(sc, R.Executed);
    RecordRowsSplit(sc.rows);
    ObservedRowsSplit(sc.rows);
    GatesMakeItSound(sc, op);
    hide AllGates;
    hide Attestable;
    W.ConfirmedRunGrantsItsRows(sc.base, sc.plan, sc.obs, op, RecordRows(sc.rows), sc.cfg.specs,
                                Statuses(sc.rows, R.Executed), sc.uids, EvidenceOf(sc, op, R.Succeeded));
  }

  lemma LastIsTheRecord(sc: Scene)
    requires Good(sc)
    ensures var log, op := FullLog(sc), if Planned(sc) != [] then R.AddOp else R.NoopOp;
      |log| > 0 && log[|log| - 1].RecordTried? && log[|log| - 1].manifest == ManifestOf(sc, op, R.Succeeded, R.Executed)
    ensures Planned(sc) != [] ==> |FullLog(sc)| == 5 && FullLog(sc)[2] == PlaybookRun(Planned(sc), true)
  {
  }

  /** From the playbook to the reader: after a successful addition with every uid readable, the
      record that was tried is accepted and grants exactly what the playbook was handed, with
      leave to change it. */
  lemma SuccessfulAdditionIsGranted(sc: Scene, log: seq<Effect>)
    requires AllGates(sc) && log == FullLog(sc)[..Reached(sc)] && |log| == 5 && Good(sc) && Attestable(sc, R.AddOp)
    requires W.EveryUidReadable(RecordRows(sc.rows), sc.cfg.specs, Statuses(sc.rows, R.Executed), sc.uids)
    requires sc.plan.newConfigDigest != sc.base.configDigest
    ensures log[2].PlaybookRun? && log[4].RecordTried? && log[4].manifest.Some? && R.ShapeOk(log[4].manifest.value)
    ensures R.GrantedScope(log[4].manifest.value) == Some((log[2].scope, true))
  {
    hide ManifestOf;
    hide Attestable;
    ConfirmedManifest(sc, R.AddOp);
    LastIsTheRecord(sc);
    hide AllGates;
  }

  /** And a no-op's record is accepted, grants exactly the rows seen to be installed, and gives
      no leave to change anything. */
  lemma SuccessfulNoopIsGranted(sc: Scene, log: seq<Effect>)
    requires AllGates(sc) && log == FullLog(sc)[..Reached(sc)] && |log| == 2 && Planned(sc) == [] && Attestable(sc, R.NoopOp)
    requires W.EveryUidReadable(RecordRows(sc.rows), sc.cfg.specs, Statuses(sc.rows, R.Executed), sc.uids)
    ensures log[1].RecordTried? && log[1].manifest.Some? && R.ShapeOk(log[1].manifest.value)
    ensures R.GrantedScope(log[1].manifest.value) == Some((Already(sc), false)) && Already(sc) == Names(sc.rows)
  {
    hide ManifestOf;
    hide Attestable;
    ConfirmedManifest(sc, R.NoopOp);
    LastIsTheRecord(sc);
    AllObserved(sc.rows);
    hide AllGates;
  }

  lemma {:induction false} AllObserved(rows: seq<Row>)
    requires WithStatus(rows, PLANNED) == [] && forall i :: 0 <= i < |rows| ==> LegalStatus(rows[i])
    ensures WithStatus(rows, ALREADY_INSTALLED) == Names(rows)
  {
    if rows != [] {
      AllObserved(rows[1..]);
      assert Names(rows) == [rows[0].component] + Names(rows[1..]);
    }
  }

  // ---- what every record names --------------------------------------------------------------------------

  /** Whatever became of the run, its record names what really ran where: the runner, the config,
      the materials and the cluster that were checked under the lock, the base they extend, and
      evidence whose digests are those of the files themselves. */
  lemma RecordNamesWhatRan(sc: Scene, log: seq<Effect>, i: nat)
    requires AllGates(sc) && log == FullLog(sc)[..Reached(sc)] && i < |log| && log[i].RecordTried? && log[i].manifest.Some?
    ensures log[i].manifest.value.execution.Some?
    ensures var m := log[i].manifest.value; var e := m.execution.value;
      && m.runId == sc.plan.runId && m.clusterName == sc.cluster && m.configDigest == sc.configDigest
      && m.identity.binaryDigest == sc.runnerDigest && m.identity.lockDigest == sc.baseLock && m.identity.clusterUid == sc.header.baseClusterUid
      && e.baseRunId == sc.base.runId && e.baseClusterUid == sc.base.clusterUid
      && e.baseConfigDigest == sc.base.configDigest && sc.obs.baseDigest == Some(e.baseRecordSha)
    ensures log[i].manifest.value.result == if Planned(sc) == [] || (sc.playbookOk && sc.connectionsOk) then R.Succeeded else R.RunFailed
    ensures var evidence := log[i].manifest.value.execution.value.evidence;
      && R.Evidence(R.PlanEvidence, sc.planFile, sc.sha(sc.planFile)) in evidence
      && R.Evidence(R.ReportEvidence, sc.reportFile, sc.sha(sc.reportFile)) in evidence
      && (Planned(sc) != [] && sc.playbookOk && sc.connectionsOk ==>
            |evidence| == 3 && R.Evidence(R.ConnectionsEvidence, sc.connectionsFile, sc.sha(sc.connectionsFile)) in evidence)
      && (Planned(sc) != [] && !(sc.playbookOk && sc.connectionsOk) ==> |evidence| == 2)
      && (Planned(sc) == [] ==>
            forall k :: 0 <= k < |sc.rows| && sc.prior(sc.rows[k].component).Some? ==> sc.prior(sc.rows[k].component).value in evidence)
  {
    assert log[i] == FullLog(sc)[i];
    var op := if Planned(sc) == [] then R.NoopOp else R.AddOp;
    var result := if Planned(sc) == [] || (sc.playbookOk && sc.connectionsOk) then R.Succeeded else R.RunFailed;
    var ran := if result == R.Succeeded then R.Executed else R.TargetFailed;
    assert log[i].manifest == ManifestOf(sc, op, result, ran) by { hide ManifestOf; }
    PassedGatesMean(sc);
    hide AllGates;
    hide FullLog;
    hide Reached;
    ManifestNames(sc, op, result, ran);
    EvidenceListed(sc, op, result);
    hide ManifestOf;
    hide EvidenceOf;
  }

  lemma ManifestNames(sc: Scene, op: R.Operation, result: R.RunResult, ran: R.TargetStatus)
    requires ManifestOf(sc, op, result, ran).Some?
    ensures var m := ManifestOf(sc, op, result, ran).value; m.execution.Some? && m.execution.value.evidence == EvidenceOf(sc, op, result)
    ensures var m := ManifestOf(sc, op, result, ran).value; var e := m.execution.value;
      && m.runId == sc.plan.runId && m.clusterName == sc.plan.clusterName && m.configDigest == sc.plan.newConfigDigest && m.result == result
      && m.identity.binaryDigest == sc.plan.binaryDigest && m.identity.lockDigest == sc.obs.lockDigest && m.identity.clusterUid == sc.obs.clusterUid
      && e.baseRunId == sc.base.runId && e.baseClusterUid == sc.base.clusterUid
      && e.baseConfigDigest == sc.base.configDigest && sc.obs.baseDigest == Some(e.baseRecordSha)
  {
    hide EvidenceOf;
    hide Statuses;
  }

  lemma EvidenceListed(sc: Scene, op: R.Operation, result: R.RunResult)
    ensures var evidence := EvidenceOf(sc, op, result);
      && R.Evidence(R.PlanEvidence, sc.planFile, sc.sha(sc.planFile)) in evidence
      && R.Evidence(R.ReportEvidence, sc.reportFile, sc.sha(sc.reportFile)) in evidence
      && (op.AddOp? ==> |evidence| == if result.Succeeded? then 3 else 2)
      && (op.AddOp? && result.Succeeded? ==> R.Evidence(R.ConnectionsEvidence, sc.connectionsFile, sc.sha(sc.connectionsFile)) in evidence)
      && (op.NoopOp? ==>
            forall k :: 0 <= k < |sc.rows| && sc.prior(sc.rows[k].component).Some? ==> sc.prior(sc.rows[k].component).value in evidence)
  {
    PriorsListed(sc.rows, sc.prior);
    var evidence := EvidenceOf(sc, op, result);
    assert evidence[0] == FileEvidence(sc, R.PlanEvidence, sc.planFile) && evidence[1] == FileEvidence(sc, R.ReportEvidence, sc.reportFile);
    if op.AddOp? && result.Succeeded? { assert evidence[2] == FileEvidence(sc, R.ConnectionsEvidence, sc.connectionsFile); }
  }

  lemma {:induction false} PriorsListed(rows: seq<Row>, prior: string -> Option<R.Evidence>)
    ensures forall k :: 0 <= k < |rows| && prior(rows[k].component).Some? ==> prior(rows[k].component).value in Priors(rows, prior)
  {
    if rows != [] {
      PriorsListed(rows[1..], prior);
      forall k | 0 <= k < |rows| && prior(rows[k].component).Some?
        ensures prior(rows[k].component).value in Priors(rows, prior)
      {
        if k > 0 { assert rows[k] == rows[1..][k - 1]; }
      }
    }
  }
}
