/** The writer of components execution records, and its agreement with the reader. */
module RecordWriter {
  import opened Wrappers
  import opened Record
  import Closure
  import opened Strings

  datatype Base = Base(runId: string, installSuccess: bool, configDigest: string, clusterUid: string)
  datatype PlanFacts = PlanFacts(runId: string, clusterName: string, newConfigDigest: string, binaryDigest: string)

  /** What the run itself observed: live cluster, materials lock, this build's identity,
      and the digest of the base record's bytes (None when they cannot be read). */
  datatype Observed = Observed(clusterUid: string, lockDigest: string, tree: string, commit: string, baseDigest: Option<string>)

  function NamesWith(targets: seq<Target>, status: TargetStatus): seq<string> {
    if targets == [] then []
    else (if targets[0].status == status then [targets[0].component] else []) + NamesWith(targets[1..], status)
  }

  function AllNames(targets: seq<Target>): (names: seq<string>)
    ensures |names| == |targets|
  {
    seq(|targets|, i requires 0 <= i < |targets| => targets[i].component)
  }

  /** A succeeded pass that installed nothing records as the no-op it was. */
  function EffectiveOp(op: Operation, result: RunResult, executed: seq<string>, observed: seq<string>): Operation {
    if executed == [] && observed != [] && result.Succeeded? then NoopOp else op
  }

  predicate HasIdentity(t: Target) {
    t.ns != "" && t.kind != "" && t.name != "" && (Confirmed(t) ==> t.uid != "")
  }

  /** When the builder agrees to make a record at all. */
  predicate Buildable(base: Base, plan: PlanFacts, obs: Observed, op: Operation, result: RunResult, targets: seq<Target>) {
    var executed, observed := NamesWith(targets, Executed), NamesWith(targets, AlreadyInstalled);
    var eff := EffectiveOp(op, result, executed, observed);
    && base.runId != "" && base.installSuccess
    && !op.OtherOp? && !result.OtherResult?
    && !(eff.AddOp? && result.Succeeded? && executed == [])
    && !(eff.NoopOp? && executed != [])
    && !(eff.NoopOp? && result.Succeeded? && observed == [])
    && (forall i :: 0 <= i < |targets| ==> HasIdentity(targets[i]))
    && obs.baseDigest.Some? && base.clusterUid != "" && obs.clusterUid == base.clusterUid && obs.lockDigest != ""
    && !(plan.newConfigDigest == base.configDigest && eff.AddOp?)
  }

  function Build(base: Base, plan: PlanFacts, obs: Observed, op: Operation, result: RunResult,
                 targets: seq<Target>, evidence: seq<Evidence>): Option<Manifest> {
    if !Buildable(base, plan, obs, op, result, targets) then None
    else
      var executed, observed := NamesWith(targets, Executed), NamesWith(targets, AlreadyInstalled);
      var eff := EffectiveOp(op, result, executed, observed);
      Some(Manifest(
        SCHEMA_VERSION, COMPONENTS_EXECUTION, plan.runId, plan.clusterName, plan.newConfigDigest, result,
        Identity(plan.binaryDigest, obs.tree, obs.lockDigest, obs.commit, obs.clusterUid),
        executed + observed,
        Some(Execution(eff, eff.AddOp?, AllNames(targets), executed, observed, base.runId, obs.baseDigest.value,
                       base.clusterUid, base.configDigest, targets, evidence))))
  }

  lemma {:induction false} NamesWithSnoc(targets: seq<Target>, t: Target, status: TargetStatus)
    ensures NamesWith(targets + [t], status) == NamesWith(targets, status) + if t.status == status then [t.component] else []
  {
    if targets == [] {
      assert targets + [t] == [t] && [t][1..] == [];
    } else {
      assert (targets + [t])[1..] == targets[1..] + [t];
      NamesWithSnoc(targets[1..], t, status);
    }
  }

  /** Every field of a built record comes from its own input. */
  lemma BuiltRecord(base: Base, plan: PlanFacts, obs: Observed, op: Operation, result: RunResult,
                    targets: seq<Target>, evidence: seq<Evidence>, r: Option<Manifest>)
    requires r == Build(base, plan, obs, op, result, targets, evidence)
    ensures r.Some? ==>
      && r.value.schemaVersion == 1 && r.value.recordKind == "components-execution" && r.value.result == result
      && r.value.runId == plan.runId && r.value.clusterName == plan.clusterName && r.value.configDigest == plan.newConfigDigest
      && r.value.identity.binaryDigest == plan.binaryDigest && r.value.identity.treeFingerprint == obs.tree
      && r.value.identity.lockDigest == obs.lockDigest && r.value.identity.commit == obs.commit
      && r.value.identity.clusterUid == obs.clusterUid && r.value.execution.Some?
    ensures r.Some? ==> var e := r.value.execution.value;
      && e.baseRunId == base.runId && e.baseClusterUid == base.clusterUid && e.baseConfigDigest == base.configDigest
      && obs.baseDigest == Some(e.baseRecordSha) && e.targets == targets && e.evidence == evidence
      && |e.requestedScope| == |targets| && (forall i :: 0 <= i < |targets| ==> e.requestedScope[i] == targets[i].component)
      && (forall n :: n in e.executed <==> exists t :: t in targets && t.component == n && t.status == Executed)
      && (forall n :: n in e.observed <==> exists t :: t in targets && t.component == n && t.status == AlreadyInstalled)
    ensures r.Some? ==> var e := r.value.execution.value;
      && (e.didInstall <==> e.operation == AddOp)
      && (e.operation != op <==> op == AddOp && result == Succeeded && e.executed == [] && e.observed != [])
      && (e.operation != op ==> e.operation == NoopOp)
    ensures r.Some? ==> base.runId != "" && base.installSuccess && base.clusterUid != "" && obs.clusterUid == base.clusterUid && obs.lockDigest != ""
  {
    NamesWithMembers(targets, Executed);
    NamesWithMembers(targets, AlreadyInstalled);
    hide NamesWith;
  }

  method NewManifest(base: Base, plan: PlanFacts, obs: Observed, op: Operation, result: RunResult,
                     targets: seq<Target>, evidence: seq<Evidence>) returns (m: Option<Manifest>)
    ensures m == Build(base, plan, obs, op, result, targets, evidence)
    ensures m.Some? ==>
      && m.value.schemaVersion == 1 && m.value.recordKind == "components-execution" && m.value.result == result
      && m.value.runId == plan.runId && m.value.clusterName == plan.clusterName && m.value.configDigest == plan.newConfigDigest
      && m.value.identity.binaryDigest == plan.binaryDigest && m.value.identity.treeFingerprint == obs.tree
      && m.value.identity.lockDigest == obs.lockDigest && m.value.identity.commit == obs.commit
      && m.value.identity.clusterUid == obs.clusterUid && m.value.execution.Some?
    ensures m.Some? ==> var e := m.value.execution.value;
      && e.baseRunId == base.runId && e.baseClusterUid == base.clusterUid && e.baseConfigDigest == base.configDigest
      && obs.baseDigest == Some(e.baseRecordSha) && e.targets == targets && e.evidence == evidence
      && |e.requestedScope| == |targets| && (forall i :: 0 <= i < |targets| ==> e.requestedScope[i] == targets[i].component)
      && (forall n :: n in e.executed <==> exists t :: t in targets && t.component == n && t.status == Executed)
      && (forall n :: n in e.observed <==> exists t :: t in targets && t.component == n && t.status == AlreadyInstalled)
    ensures m.Some? ==> var e := m.value.execution.value;
      && (e.didInstall <==> e.operation == AddOp)
      && (e.operation != op <==> op == AddOp && result == Succeeded && e.executed == [] && e.observed != [])
      && (e.operation != op ==> e.operation == NoopOp)
    ensures m.Some? ==> base.runId != "" && base.installSuccess && base.clusterUid != "" && obs.clusterUid == base.clusterUid && obs.lockDigest != ""
  {
    m := AssembleManifest(base, plan, obs, op, result, targets, evidence);
    BuiltRecord(base, plan, obs, op, result, targets, evidence, m);
    hide Build;
  }

  /** The two lists of a record, in the order of its targets. */
  method SplitTargets(targets: seq<Target>) returns (executed: seq<string>, observed: seq<string>)
    ensures executed == NamesWith(targets, Executed) && observed == NamesWith(targets, AlreadyInstalled)
  {
    executed, observed := [], [];
    assert NamesWith(targets[..0], Executed) == [] == NamesWith(targets[..0], AlreadyInstalled);
    hide NamesWith;
    for i := 0 to |targets|
      invariant executed == NamesWith(targets[..i], Executed) && observed == NamesWith(targets[..i], AlreadyInstalled)
    {
      NamesWithSnoc(targets[..i], targets[i], Executed);
      NamesWithSnoc(targets[..i], targets[i], AlreadyInstalled);
      assert targets[..i + 1] == targets[..i] + [targets[i]];
      match targets[i].status
      case Executed => executed := executed + [targets[i].component];
      case AlreadyInstalled => observed := observed + [targets[i].component];
      case _ =>
    }
    assert targets[..|targets|] == targets;
  }

  method AllIdentified(targets: seq<Target>) returns (ok: bool)
    ensures ok <==> forall i :: 0 <= i < |targets| ==> HasIdentity(targets[i])
  {
    for i := 0 to |targets|
      invariant forall j :: 0 <= j < i ==> HasIdentity(targets[j])
    {
      var t := targets[i];
      if t.ns == "" || t.kind == "" || t.name == "" { return false; }
      if Confirmed(t) && t.uid == "" { return false; }
    }
    ok := true;
  }

  /** The builder as the program writes it: two lists filled in a loop, the operation
      relabelled, then the refusals. */
  method AssembleManifest(base: Base, plan: PlanFacts, obs: Observed, op: Operation, result: RunResult,
                          targets: seq<Target>, evidence: seq<Evidence>) returns (m: Option<Manifest>)
    ensures m == Build(base, plan, obs, op, result, targets, evidence)
  {
    hide NamesWith;
    hide AllNames;
    hide HasIdentity;
    if base.runId == "" || !base.installSuccess { return None; }
    if op.OtherOp? || result.OtherResult? { return None; }
    var executed, observed := SplitTargets(targets);
    var eff := op;
    if |executed| == 0 && |observed| > 0 && result.Succeeded? { eff := NoopOp; }
    if eff.AddOp? && result.Succeeded? && |executed| == 0 { return None; }
    if eff.NoopOp? && |executed| > 0 { return None; }
    if eff.NoopOp? && result.Succeeded? && |observed| == 0 { return None; }
    var identified := AllIdentified(targets);
    if !identified { return None; }
    if obs.baseDigest.None? || base.clusterUid == "" || obs.clusterUid != base.clusterUid || obs.lockDigest == "" { return None; }
    if plan.newConfigDigest == base.configDigest && eff.AddOp? { return None; }
    var identity := Identity(plan.binaryDigest, obs.tree, obs.lockDigest, obs.commit, obs.clusterUid);
    m := Some(Manifest(
      SCHEMA_VERSION, COMPONENTS_EXECUTION, plan.runId, plan.clusterName, plan.newConfigDigest, result, identity,
      executed + observed,
      Some(Execution(eff, eff.AddOp?, AllNames(targets), executed, observed, base.runId, obs.baseDigest.value,
                     base.clusterUid, base.configDigest, targets, evidence))));
  }

  // ---- agreement ------------------------------------------------------------------------------

  /** What the reader needs of the writer's inputs and the writer does not check. */
  predicate Readable(base: Base, plan: PlanFacts, obs: Observed, targets: seq<Target>, evidence: seq<Evidence>) {
    && Safe(plan.runId) && plan.clusterName != ""
    && IsHex64(plan.newConfigDigest) && IsHex64(base.configDigest)
    && IdentityOk(Identity(plan.binaryDigest, obs.tree, obs.lockDigest, obs.commit, obs.clusterUid))
    && obs.baseDigest.Some? && IsHex64(obs.baseDigest.value)
    && targets != [] && DistinctTargets(targets)
    && (forall i :: 0 <= i < |targets| ==> Safe(targets[i].component) && !targets[i].status.OtherStatus?)
    && EvidenceOk(evidence)
  }

  /** What it additionally needs of a success: every target confirmed, and both files that
      every pass produces. */
  ghost predicate Attested(result: RunResult, targets: seq<Target>, evidence: seq<Evidence>) {
    result.Succeeded? ==>
      && (forall i :: 0 <= i < |targets| ==> Confirmed(targets[i]))
      && HasEvidence(evidence, PlanEvidence) && HasEvidence(evidence, ReportEvidence)
  }

  lemma {:induction false} NamesWithMembers(targets: seq<Target>, status: TargetStatus)
    ensures forall n :: n in NamesWith(targets, status) <==> Reports(targets, n, status)
  {
    if targets != [] {
      NamesWithMembers(targets[1..], status);
      assert targets == [targets[0]] + targets[1..];
      forall n
        ensures Reports(targets, n, status) <==> Reports(targets[1..], n, status) || (targets[0].component == n && targets[0].status == status)
      {
        assert targets[0] in targets;
        if Reports(targets[1..], n, status) {
          var t :| t in targets[1..] && t.component == n && t.status == status;
          assert t in targets;
        }
      }
    }
  }

  lemma {:induction false} NamesWithDistinct(targets: seq<Target>, status: TargetStatus)
    requires DistinctTargets(targets)
    ensures NoDup(NamesWith(targets, status))
  {
    if targets != [] {
      NamesWithDistinct(targets[1..], status);
      NamesWithMembers(targets[1..], status);
      forall t | t in targets[1..]
        ensures t.component != targets[0].component
      {
        var j :| 0 <= j < |targets[1..]| && targets[1..][j] == t;
        assert targets[j + 1] == t;
      }
      assert targets[0].component !in NamesWith(targets[1..], status);
      var head := if targets[0].status == status then [targets[0].component] else [];
      assert NamesWith(targets, status) == head + NamesWith(targets[1..], status);
    }
  }

  /** The lists the writer fills are the lists the reader demands. */
  lemma ListsMatch(targets: seq<Target>, status: TargetStatus, components: seq<string>)
    requires DistinctTargets(targets) && forall i :: 0 <= i < |targets| ==> Safe(targets[i].component)
    requires forall n :: n in NamesWith(targets, status) ==> n in components
    ensures ListMatches(NamesWith(targets, status), status, targets, components)
  {
    NamesWithMembers(targets, status);
    NamesWithDistinct(targets, status);
    var names := NamesWith(targets, status);
    forall n | n in names
      ensures Safe(n)
    {
      var t :| t in targets && t.component == n && t.status == status;
    }
    forall t | t in targets && t.status == status
      ensures t.component in names
    {
      assert Reports(targets, t.component, status);
    }
  }

  lemma HasMeansNamed(targets: seq<Target>, status: TargetStatus)
    ensures Has(targets, status) <==> NamesWith(targets, status) != []
  {
    NamesWithMembers(targets, status);
    if NamesWith(targets, status) != [] {
      assert Reports(targets, NamesWith(targets, status)[0], status);
    }
    if Has(targets, status) {
      var t :| t in targets && t.status == status;
      assert Reports(targets, t.component, status);
      assert t.component in NamesWith(targets, status);
    }
  }

  lemma ReaderAccepts(base: Base, plan: PlanFacts, obs: Observed, op: Operation, result: RunResult,
                      targets: seq<Target>, evidence: seq<Evidence>, m: Manifest)
    requires Build(base, plan, obs, op, result, targets, evidence) == Some(m)
    requires Readable(base, plan, obs, targets, evidence) && Attested(result, targets, evidence)
    ensures ShapeOk(m)
  {
    var e := m.execution.value;
    ListsMatch(targets, Executed, m.components);
    ListsMatch(targets, AlreadyInstalled, m.components);
    assert LinkageOk(m, e) && HeaderOk(m);
    assert forall i :: 0 <= i < |targets| ==> HasIdentity(targets[i]) && TargetOk(targets[i]);
    SemanticsHold(m, op, targets, evidence);
  }

  lemma SemanticsHold(m: Manifest, op: Operation, targets: seq<Target>, evidence: seq<Evidence>)
    requires m.execution.Some? && m.execution.value.targets == targets && m.execution.value.evidence == evidence
    requires var executed, observed := NamesWith(targets, Executed), NamesWith(targets, AlreadyInstalled);
      && m.execution.value.operation == EffectiveOp(op, m.result, executed, observed)
      && !(m.execution.value.operation.AddOp? && m.result.Succeeded? && executed == [])
      && !(m.execution.value.operation.NoopOp? && executed != [])
      && !(m.execution.value.operation.NoopOp? && m.result.Succeeded? && observed == [])
    requires Attested(m.result, targets, evidence)
    ensures SuccessOk(m, m.execution.value)
    ensures m.execution.value.operation.NoopOp? ==> !Has(targets, Executed)
  {
    HasMeansNamed(targets, Executed);
    HasMeansNamed(targets, AlreadyInstalled);
  }

  lemma AcceptedWasReadable(base: Base, plan: PlanFacts, obs: Observed, op: Operation, result: RunResult,
                            targets: seq<Target>, evidence: seq<Evidence>, m: Manifest)
    requires Build(base, plan, obs, op, result, targets, evidence) == Some(m) && ShapeOk(m)
    ensures Readable(base, plan, obs, targets, evidence) && Attested(result, targets, evidence)
  {
    assert forall i :: 0 <= i < |targets| ==> TargetOk(targets[i]);
    assert SuccessOk(m, m.execution.value);
  }

  /** Writer and reader agree exactly where the inputs were readable and the success, if
      claimed, was attested: a record with an unconfirmed target is written all the same
      and then refused. */
  lemma WriterReaderAgree(base: Base, plan: PlanFacts, obs: Observed, op: Operation, result: RunResult,
                          targets: seq<Target>, evidence: seq<Evidence>, m: Manifest)
    requires Build(base, plan, obs, op, result, targets, evidence) == Some(m)
    ensures ShapeOk(m) <==> Readable(base, plan, obs, targets, evidence) && Attested(result, targets, evidence)
  {
    if ShapeOk(m) {
      AcceptedWasReadable(base, plan, obs, op, result, targets, evidence, m);
    }
    if Readable(base, plan, obs, targets, evidence) && Attested(result, targets, evidence) {
      ReaderAccepts(base, plan, obs, op, result, targets, evidence, m);
    }
  }

  // ---- reader soundness -----------------------------------------------------------------------

  /** An accepted success always grants a non-empty scope, made of exactly the targets that
      carry the matching status and a uid; an observation never allows a change. This is of
      any record, whoever wrote it. */
  lemma AcceptedSuccessGrants(m: Manifest)
    requires ShapeOk(m) && m.result.Succeeded?
    ensures GrantedScope(m).Some?
    ensures var (scope, mutate) := GrantedScope(m).value; var e := m.execution.value;
      && scope != [] && NoDup(scope)
      && (mutate <==> e.operation.AddOp?)
      && (forall n :: n in scope <==>
            exists t :: t in e.targets && t.component == n && t.uid != "" && t.status == if mutate then Executed else AlreadyInstalled)
  {
    var e := m.execution.value;
    var status := if e.operation.AddOp? then Executed else AlreadyInstalled;
    var names := if e.operation.AddOp? then e.executed else e.observed;
    assert ListMatches(names, status, e.targets, m.components);
    var t0 :| t0 in e.targets && t0.status == status;
    assert t0.component in names;
    forall n
      ensures n in names <==> exists t :: t in e.targets && t.component == n && t.uid != "" && t.status == status
    {
      if n in names {
        assert Reports(e.targets, n, status);
        var t :| t in e.targets && t.component == n && t.status == status;
        var i :| 0 <= i < |e.targets| && e.targets[i] == t;
        assert TargetOk(e.targets[i]);
      }
    }
  }

  // ---- the targets of one execution --------------------------------------------------------------

  datatype PlanRow = PlanRow(component: string, planned: bool, ns: string)

  /** What the record says of one row. Without a uid a claimed success becomes `unknown`; no
      row is left out. */
  function TargetOf(row: PlanRow, specs: map<string, Closure.Spec>, statuses: map<string, TargetStatus>, uids: map<string, string>): Target {
    var status := if row.component in statuses then statuses[row.component] else TargetUnknown;
    var kind := if row.component in specs then specs[row.component].kind else "";
    var name := if row.component in specs then specs[row.component].workload else "";
    var ns := if row.ns != "" then row.ns else if row.component in specs then specs[row.component].ns else "";
    var uid := if kind != "" && name != "" && ns != "" && row.component in uids then Strings.Trim(uids[row.component]) else "";
    var said := if (status.Executed? || status.AlreadyInstalled?) && uid == "" then TargetUnknown else status;
    Target(row.component, said, ns, kind, name, uid)
  }

  function TargetsOf(rows: seq<PlanRow>, specs: map<string, Closure.Spec>, statuses: map<string, TargetStatus>, uids: map<string, string>)
    : (targets: seq<Target>)
    ensures |targets| == |rows|
    ensures forall i :: 0 <= i < |rows| ==> targets[i] == TargetOf(rows[i], specs, statuses, uids)
  {
    seq(|rows|, i requires 0 <= i < |rows| => TargetOf(rows[i], specs, statuses, uids))
  }

  /** One target per plan row, in order; a confirmed row whose uid cannot be read degrades. */
  method RecordTargets(rows: seq<PlanRow>, specs: map<string, Closure.Spec>, statuses: map<string, TargetStatus>, uids: map<string, string>)
    returns (targets: seq<Target>)
    ensures targets == TargetsOf(rows, specs, statuses, uids)
    ensures |targets| == |rows| && forall i :: 0 <= i < |rows| ==> targets[i].component == rows[i].component
    ensures forall i :: 0 <= i < |rows| && rows[i].component in specs ==> var spec := specs[rows[i].component];
      && targets[i].kind == spec.kind && targets[i].name == spec.workload
      && targets[i].ns == (if rows[i].ns != "" then rows[i].ns else spec.ns)
      && targets[i].uid == (if spec.kind != "" && spec.workload != "" && targets[i].ns != "" && rows[i].component in uids
                            then Strings.Trim(uids[rows[i].component]) else "")
    ensures forall i :: 0 <= i < |rows| ==>
      var status := if rows[i].component in statuses then statuses[rows[i].component] else TargetUnknown;
      targets[i].status == if (status == Executed || status == AlreadyInstalled) && targets[i].uid == "" then TargetUnknown else status
    ensures forall i :: 0 <= i < |rows| && rows[i].component !in specs ==> targets[i].uid == "" && targets[i].kind == "" && targets[i].name == ""
  {
    targets := [];
    for i := 0 to |rows|
      invariant |targets| == i && forall j :: 0 <= j < i ==> targets[j] == TargetOf(rows[j], specs, statuses, uids)
    {
      var planned := rows[i];
      var status := if planned.component in statuses then statuses[planned.component] else TargetUnknown;
      var target := Target(planned.component, status, planned.ns, "", "", "");
      if planned.component in specs {
        var spec := specs[planned.component];
        target := target.(kind := spec.kind, name := spec.workload);
        if target.ns == "" { target := target.(ns := spec.ns); }
      }
      if target.kind != "" && target.name != "" && target.ns != "" && planned.component in uids {
        target := target.(uid := Strings.Trim(uids[planned.component]));
      }
      if (status.Executed? || status.AlreadyInstalled?) && target.uid == "" {
        target := target.(status := TargetUnknown);
      }
      targets := targets + [target];
    }
  }

  /** Statuses as execute hands them over: the rows it ran, and the rows it left alone. */
  ghost predicate StatusesFor(rows: seq<PlanRow>, statuses: map<string, TargetStatus>, ran: TargetStatus) {
    forall i :: 0 <= i < |rows| ==>
      && rows[i].component in statuses
      && statuses[rows[i].component] == if rows[i].planned then ran else AlreadyInstalled
  }

  ghost predicate EveryUidReadable(rows: seq<PlanRow>, specs: map<string, Closure.Spec>, statuses: map<string, TargetStatus>, uids: map<string, string>) {
    forall i :: 0 <= i < |rows| ==> TargetOf(rows[i], specs, statuses, uids).uid != ""
  }

  function RowsWith(rows: seq<PlanRow>, planned: bool): seq<string> {
    if rows == [] then []
    else (if rows[0].planned == planned then [rows[0].component] else []) + RowsWith(rows[1..], planned)
  }

  lemma {:induction false} ConfirmedNames(rows: seq<PlanRow>, specs: map<string, Closure.Spec>,
                                          statuses: map<string, TargetStatus>, uids: map<string, string>)
    requires StatusesFor(rows, statuses, Executed) && EveryUidReadable(rows, specs, statuses, uids)
    ensures NamesWith(TargetsOf(rows, specs, statuses, uids), Executed) == RowsWith(rows, true)
    ensures NamesWith(TargetsOf(rows, specs, statuses, uids), AlreadyInstalled) == RowsWith(rows, false)
  {
    if rows != [] {
      assert TargetsOf(rows, specs, statuses, uids)[1..] == TargetsOf(rows[1..], specs, statuses, uids);
      ConfirmedNames(rows[1..], specs, statuses, uids);
    }
  }

  /** The writer's inputs, with the plan validated and its files hashed. */
  ghost predicate SoundRun(base: Base, plan: PlanFacts, obs: Observed, rows: seq<PlanRow>, evidence: seq<Evidence>) {
    && base.runId != "" && base.installSuccess && base.clusterUid != "" && obs.clusterUid == base.clusterUid
    && Safe(plan.runId) && plan.clusterName != ""
    && IsHex64(plan.newConfigDigest) && IsHex64(base.configDigest)
    && IdentityOk(Identity(plan.binaryDigest, obs.tree, obs.lockDigest, obs.commit, obs.clusterUid))
    && obs.baseDigest.Some? && IsHex64(obs.baseDigest.value)
    && rows != [] && (forall i, j :: 0 <= i < j < |rows| ==> rows[i].component != rows[j].component)
    && (forall i :: 0 <= i < |rows| ==> Safe(rows[i].component))
    && EvidenceOk(evidence) && HasEvidence(evidence, PlanEvidence) && HasEvidence(evidence, ReportEvidence)
  }

  /** Every row's workload is named by the table. */
  ghost predicate Located(rows: seq<PlanRow>, specs: map<string, Closure.Spec>) {
    forall i :: 0 <= i < |rows| ==>
      && rows[i].component in specs && specs[rows[i].component].kind != "" && specs[rows[i].component].workload != ""
      && (rows[i].ns != "" || specs[rows[i].component].ns != "")
  }

  lemma SoundRunIsReadable(base: Base, plan: PlanFacts, obs: Observed, rows: seq<PlanRow>, specs: map<string, Closure.Spec>,
                           statuses: map<string, TargetStatus>, uids: map<string, string>, evidence: seq<Evidence>)
    requires SoundRun(base, plan, obs, rows, evidence) && StatusesFor(rows, statuses, Executed)
    ensures Readable(base, plan, obs, TargetsOf(rows, specs, statuses, uids), evidence)
  {
    var targets := TargetsOf(rows, specs, statuses, uids);
    assert forall i :: 0 <= i < |targets| ==> targets[i].component == rows[i].component;
  }

  lemma AttestedIff(rows: seq<PlanRow>, specs: map<string, Closure.Spec>, statuses: map<string, TargetStatus>,
                    uids: map<string, string>, evidence: seq<Evidence>)
    requires StatusesFor(rows, statuses, Executed)
    requires HasEvidence(evidence, PlanEvidence) && HasEvidence(evidence, ReportEvidence)
    ensures Attested(Succeeded, TargetsOf(rows, specs, statuses, uids), evidence) <==> EveryUidReadable(rows, specs, statuses, uids)
  {
    var targets := TargetsOf(rows, specs, statuses, uids);
    assert forall i :: 0 <= i < |rows| ==> (Confirmed(targets[i]) <==> TargetOf(rows[i], specs, statuses, uids).uid != "");
  }

  lemma SomeConfirmed(rows: seq<PlanRow>, specs: map<string, Closure.Spec>, statuses: map<string, TargetStatus>,
                      uids: map<string, string>, k: nat)
    requires StatusesFor(rows, statuses, Executed) && k < |rows| && TargetOf(rows[k], specs, statuses, uids).uid != ""
    ensures var targets := TargetsOf(rows, specs, statuses, uids);
      NamesWith(targets, Executed) != [] || NamesWith(targets, AlreadyInstalled) != []
  {
    var targets := TargetsOf(rows, specs, statuses, uids);
    assert targets[k] in targets;
    if targets[k].status == Executed { HasMeansNamed(targets, Executed); } else { HasMeansNamed(targets, AlreadyInstalled); }
  }

  lemma SoundRunIsBuildable(base: Base, plan: PlanFacts, obs: Observed, rows: seq<PlanRow>, specs: map<string, Closure.Spec>,
                            statuses: map<string, TargetStatus>, uids: map<string, string>, evidence: seq<Evidence>, k: nat)
    requires SoundRun(base, plan, obs, rows, evidence) && StatusesFor(rows, statuses, Executed) && Located(rows, specs)
    requires plan.newConfigDigest != base.configDigest
    requires k < |rows| && TargetOf(rows[k], specs, statuses, uids).uid != ""
    ensures Buildable(base, plan, obs, AddOp, Succeeded, TargetsOf(rows, specs, statuses, uids))
  {
    var targets := TargetsOf(rows, specs, statuses, uids);
    SomeConfirmed(rows, specs, statuses, uids, k);
    assert forall i :: 0 <= i < |targets| ==> HasIdentity(targets[i]);
    assert |obs.lockDigest| == 64;
  }

  /** A playbook that ran to success has its record written as soon as one uid could be read
      back, but the reader accepts that record exactly when every uid could: otherwise the
      run reports success and leaves a record nobody can consume. */
  lemma SucceededRunIsConsumableIff(base: Base, plan: PlanFacts, obs: Observed, rows: seq<PlanRow>, specs: map<string, Closure.Spec>,
                                    statuses: map<string, TargetStatus>, uids: map<string, string>, evidence: seq<Evidence>, k: nat)
    requires SoundRun(base, plan, obs, rows, evidence) && StatusesFor(rows, statuses, Executed) && Located(rows, specs)
    requires plan.newConfigDigest != base.configDigest
    requires k < |rows| && TargetOf(rows[k], specs, statuses, uids).uid != ""
    ensures var m := Build(base, plan, obs, AddOp, Succeeded, TargetsOf(rows, specs, statuses, uids), evidence);
      m.Some? && (ShapeOk(m.value) <==> EveryUidReadable(rows, specs, statuses, uids))
  {
    SoundRunIsBuildable(base, plan, obs, rows, specs, statuses, uids, evidence, k);
    SoundRunIsReadable(base, plan, obs, rows, specs, statuses, uids, evidence);
    AttestedIff(rows, specs, statuses, uids, evidence);
    var targets := TargetsOf(rows, specs, statuses, uids);
    var m := Build(base, plan, obs, AddOp, Succeeded, targets, evidence).value;
    WriterReaderAgree(base, plan, obs, AddOp, Succeeded, targets, evidence, m);
  }

  lemma ConfirmedIsBuildable(base: Base, plan: PlanFacts, obs: Observed, op: Operation, rows: seq<PlanRow>,
                             specs: map<string, Closure.Spec>, statuses: map<string, TargetStatus>,
                             uids: map<string, string>, evidence: seq<Evidence>)
    requires SoundRun(base, plan, obs, rows, evidence) && StatusesFor(rows, statuses, Executed)
    requires EveryUidReadable(rows, specs, statuses, uids)
    requires op == (if RowsWith(rows, true) != [] then AddOp else NoopOp)
    requires op == AddOp ==> plan.newConfigDigest != base.configDigest
    ensures Buildable(base, plan, obs, op, Succeeded, TargetsOf(rows, specs, statuses, uids))
  {
    var targets := TargetsOf(rows, specs, statuses, uids);
    ConfirmedNames(rows, specs, statuses, uids);
    AllRowsSomewhere(rows);
    assert forall i :: 0 <= i < |targets| ==> HasIdentity(targets[i]);
    assert |obs.lockDigest| == 64;
  }

  /** End to end for a run that succeeded with every uid readable: the record is built,
      accepted, and grants exactly the executed rows with leave to change (an addition) or
      exactly the observed rows without (nothing was left to install). */
  lemma ConfirmedRunGrantsItsRows(base: Base, plan: PlanFacts, obs: Observed, op: Operation, rows: seq<PlanRow>,
                                  specs: map<string, Closure.Spec>, statuses: map<string, TargetStatus>,
                                  uids: map<string, string>, evidence: seq<Evidence>)
    requires SoundRun(base, plan, obs, rows, evidence) && StatusesFor(rows, statuses, Executed)
    requires EveryUidReadable(rows, specs, statuses, uids)
    requires op == (if RowsWith(rows, true) != [] then AddOp else NoopOp)
    requires op == AddOp ==> plan.newConfigDigest != base.configDigest
    ensures var m := Build(base, plan, obs, op, Succeeded, TargetsOf(rows, specs, statuses, uids), evidence);
      && m.Some? && ShapeOk(m.value)
      && GrantedScope(m.value) == Some(if op == AddOp then (RowsWith(rows, true), true) else (RowsWith(rows, false), false))
  {
    var targets := TargetsOf(rows, specs, statuses, uids);
    ConfirmedIsBuildable(base, plan, obs, op, rows, specs, statuses, uids, evidence);
    SoundRunIsReadable(base, plan, obs, rows, specs, statuses, uids, evidence);
    AttestedIff(rows, specs, statuses, uids, evidence);
    ConfirmedNames(rows, specs, statuses, uids);
    AllRowsSomewhere(rows);
    var m := Build(base, plan, obs, op, Succeeded, targets, evidence).value;
    WriterReaderAgree(base, plan, obs, op, Succeeded, targets, evidence, m);
  }

  lemma {:induction false} AllRowsSomewhere(rows: seq<PlanRow>)
    ensures rows != [] ==> RowsWith(rows, true) != [] || RowsWith(rows, false) != []
  {
  }

  lemma {:induction false} NothingExecuted(rows: seq<PlanRow>, specs: map<string, Closure.Spec>,
                                           statuses: map<string, TargetStatus>, uids: map<string, string>)
    requires StatusesFor(rows, statuses, TargetFailed)
    ensures NamesWith(TargetsOf(rows, specs, statuses, uids), Executed) == []
  {
    if rows != [] {
      assert TargetsOf(rows, specs, statuses, uids)[1..] == TargetsOf(rows[1..], specs, statuses, uids);
      NothingExecuted(rows[1..], specs, statuses, uids);
    }
  }

  /** Every record written for a failed run grants nothing. */
  lemma FailedRunGrantsNothing(base: Base, plan: PlanFacts, obs: Observed, rows: seq<PlanRow>, specs: map<string, Closure.Spec>,
                               statuses: map<string, TargetStatus>, uids: map<string, string>, evidence: seq<Evidence>)
    requires StatusesFor(rows, statuses, TargetFailed)
    ensures var m := Build(base, plan, obs, AddOp, RunFailed, TargetsOf(rows, specs, statuses, uids), evidence);
      m.Some? ==> GrantedScope(m.value) == None
  {
    NothingExecuted(rows, specs, statuses, uids);
  }
}
