/** A record is consumed only against the base it was built on: the reader that compares the two,
    and that a built record stands this comparison against its own base and no other. */
module RecordBase {
  import opened Wrappers
  import opened Record
  import W = RecordWriter

  /** The base record as it lies on disk when the execution record is consumed; `valid` says that
      it is that of a first install that succeeded. */
  datatype BaseFile = BaseFile(digest: string, valid: bool, runId: string, clusterName: string, configDigest: string, clusterUid: string)

  /** The comparison, field by field; `sha` is the digest of a file's bytes, if it can be read. */
  method ValidateExecutionBase(m: Manifest, file: Option<BaseFile>, sha: string -> Option<string>, live: string) returns (ok: bool)
    ensures ok <==>
      && m.execution.Some? && file.Some? && file.value.valid
      && file.value.digest == m.execution.value.baseRecordSha
      && file.value.runId == m.execution.value.baseRunId && file.value.clusterName == m.clusterName
      && file.value.configDigest == m.execution.value.baseConfigDigest && file.value.clusterUid == m.execution.value.baseClusterUid
      && (forall e :: e in m.execution.value.evidence ==> sha(e.path) == Some(e.sha256))
      && live == m.execution.value.baseClusterUid
    ensures m.execution.Some? && file.Some? ==> (ok <==> Extends(m, file.value, sha, live))
  {
    if m.execution.None? || file.None? { return false; }
    var e, b := m.execution.value, file.value;
    if b.digest != e.baseRecordSha { return false; }
    if !b.valid { return false; }
    if b.runId != e.baseRunId { return false; }
    if b.clusterName != m.clusterName { return false; }
    if b.configDigest != e.baseConfigDigest { return false; }
    if b.clusterUid != e.baseClusterUid { return false; }
    for i := 0 to |e.evidence|
      invariant forall j :: 0 <= j < i ==> sha(e.evidence[j].path) == Some(e.evidence[j].sha256)
    {
      if sha(e.evidence[i].path) != Some(e.evidence[i].sha256) {
        assert e.evidence[i] in e.evidence;
        return false;
      }
    }
    ok := live == e.baseClusterUid;
  }

  /** What the reader asks, as a predicate for the lemmas. */
  ghost predicate Extends(m: Manifest, file: BaseFile, sha: string -> Option<string>, live: string)
    requires m.execution.Some?
  {
    var e := m.execution.value;
    && file.valid && file.digest == e.baseRecordSha && file.runId == e.baseRunId && file.clusterName == m.clusterName
    && file.configDigest == e.baseConfigDigest && file.clusterUid == e.baseClusterUid
    && (forall ref :: ref in e.evidence ==> sha(ref.path) == Some(ref.sha256)) && live == e.baseClusterUid
  }

  /** A built record is accepted against a base exactly when that is the very base it was built
      on, byte for byte and field by field, and evidence and live cluster are still what they
      were then. */
  lemma BuiltExtendsItsBaseOnly(base: W.Base, plan: W.PlanFacts, obs: W.Observed, op: Operation, result: RunResult,
                                targets: seq<Target>, evidence: seq<Evidence>,
                                file: BaseFile, sha: string -> Option<string>, live: string)
    requires W.Build(base, plan, obs, op, result, targets, evidence).Some?
    ensures Extends(W.Build(base, plan, obs, op, result, targets, evidence).value, file, sha, live) <==>
      && file.valid && obs.baseDigest == Some(file.digest) && file.runId == base.runId && file.clusterName == plan.clusterName
      && file.configDigest == base.configDigest && file.clusterUid == base.clusterUid
      && (forall e :: e in evidence ==> sha(e.path) == Some(e.sha256)) && live == base.clusterUid
  {
  }
}
