/** What every step of the protocol keeps. The conjuncts are stated one attempt at a
    time, so that each kind of step has a small proof of its own. */
module Invariant {
  import opened Wrappers
  import opened Cluster
  import opened Protocol

  // ---- what one attempt may rely on ------------------------------------------

  /** How far along the authorisation a read is. */
  function Rank(read: AuthRead): nat {
    match read
    case ResolveName => 0
    case PodUid => 1
    case OwnerName => 2
    case OwnerFlag => 3
    case ControllerUid => 4
    case OwnerUid => 5
    case ClaimUid => 6
    case ClaimMounts => 7
    case ClaimVolume => 8
    case VolumeRef => 9
    case HostMounts => 6
    case NodeUid => 7
  }

  /** Is this one of the reads a target with such a declaration needs? */
  predicate OnPath(t: Target, read: AuthRead) {
    match read
    case ClaimUid | ClaimMounts | ClaimVolume | VolumeRef => t.claimName != ""
    case HostMounts | NodeUid => t.claimName == "" && t.hostPath != "" && t.nodeName != ""
    case _ => true
  }

  /** The attempt has made this read and was let through. */
  predicate Past(a: Attempt, read: AuthRead) {
    && OnPath(a.t, read)
    && (a.armed || (Live(a) && !a.pc.Auth?) || (a.pc.Auth? && Rank(a.pc.read) > Rank(read)))
  }

  /** A different uid was read at the name only after the old pod was gone for good. */
  ghost predicate PolledOk(c: Cluster, a: Attempt) {
    a.lastUid != NO_UID && a.lastUid != a.podUid ==> !StandsAt(c, a.ref, a.podUid)
  }

  ghost predicate AuthOk(c: Cluster, a: Attempt) {
    && (a.podUid != NO_UID ==> a.podUid in c.used)
    && (a.lastUid != NO_UID ==> a.lastUid in c.used)
    && (Past(a, PodUid) ==> a.podUid != NO_UID)
    && (a.pc.Auth? ==> OnPath(a.t, a.pc.read) && a.lastUid == NO_UID)
    && PolledOk(c, a)
  }

  // ---- requests and records --------------------------------------------------

  predicate HasRequest(reqs: seq<Request>, a: Attempt) {
    a.req.Some? && a.req.value < |reqs|
  }

  predicate Admitted(reqs: seq<Request>, a: Attempt) {
    HasRequest(reqs, a) && reqs[a.req.value].status.Accepted?
  }

  /** No request was sent, or the server answered that it carried out nothing. */
  predicate Harmless(reqs: seq<Request>, a: Attempt) {
    a.req.None? || (HasRequest(reqs, a) && reqs[a.req.value].status.Rejected?)
  }

  /** The delete was carried out, and the polling loop returned a uid that is not the old
      pod's. */
  predicate Replaced(reqs: seq<Request>, a: Attempt) {
    Admitted(reqs, a) && a.newUid != NO_UID && a.newUid == a.lastUid != a.podUid
  }

  /** The polling loop is over. */
  predicate Confirming(pc: PC) {
    pc.ReadingClaim? || pc.Checking? || pc.ReadingBack? || pc.Closing? || pc.Finished? || pc.Crashed?
  }

  /** What a record of this attempt claims is true. */
  ghost predicate RecordTrue(reqs: seq<Request>, a: Attempt, rec: Record) {
    && rec.oldPodUid == a.podUid && rec.oldStableUid == a.stableUid && rec.token == a.token
    && (rec.state == Refused ==> Harmless(reqs, a))
    && (rec.state == Done ==> Replaced(reqs, a) && rec.newPodUid == a.newUid)
  }

  ghost predicate FileTrue(reqs: seq<Request>, a: Attempt, f: File) {
    f.Written? && RecordTrue(reqs, a, f.rec) && (f.rec.state != Attempted ==> !Live(a))
  }

  ghost predicate PassEvidence(a: Attempt, rec: Record) {
    && rec.state == Done && rec.outcome == PassOutcome
    && a.armed && a.wrote && (a.t.claimName != "" ==> a.claimAfter == a.stableUid)
  }

  ghost predicate LedgerOk(s: State, a: Attempt) {
    && (a.pc.Filling? ==> a.file in s.ledger)
    && (a.armed ==>
          && a.file in s.ledger && FileTrue(s.reqs, a, s.ledger[a.file])
          && a.file in s.disk && FileTrue(s.reqs, a, s.disk[a.file]))
    && (a.pc == Finished(Passed) ==>
          && a.armed && s.ledger[a.file].Written? && PassEvidence(a, s.ledger[a.file].rec)
          && s.disk[a.file] == s.ledger[a.file])
  }

  /** The attempt owns its ledger file: it created it and did not take it back. */
  predicate Holds(a: Attempt) {
    a.armed || a.pc.Filling?
  }

  ghost predicate ProgressOk(s: State, a: Attempt) {
    && (a.req.Some? ==> a.armed && a.wrote && HasRequest(s.reqs, a))
    && (a.pc.Auth? || a.pc.Peeking? || a.pc.Creating? ==> a.token == 0)
    && (a.pc.Auth? || a.pc.Peeking? || a.pc.Creating? || a.pc.Filling? ==> !a.armed && !a.wrote)
    && (a.pc.Writing? ==> a.armed && !a.wrote)
    && (a.pc.Rechecking? || a.pc.Issuing? ==> a.armed && a.wrote && a.req.None?)
    && (a.pc.Awaiting? ==> a.req.Some?)
    && (a.pc.PollingUid? ==> Admitted(s.reqs, a))
    && (a.pc.PollingReady? ==> Admitted(s.reqs, a) && a.lastUid != NO_UID && a.lastUid != a.podUid)
    && (a.pc.ReadingClaim? || a.pc.Checking? || a.pc.ReadingBack? ==> Replaced(s.reqs, a))
    && (a.newUid != NO_UID ==> Confirming(a.pc))
    && (a.pc.Checking? || a.pc.ReadingBack? ==> a.t.claimName != "" ==> a.claimAfter == a.stableUid)
    && (a.pc.Closing? ==>
          && a.armed && RecordTrue(s.reqs, a, a.pc.rec)
          && (a.pc.why == Passed ==> PassEvidence(a, a.pc.rec)))
    && (a.token != 0 ==> a.token <= s.c.minted)
    && (Holds(a) ==> a.token != 0)
    && (a.wrote ==> a.armed)
  }

  ghost predicate AttemptOk(s: State, a: Attempt) {
    AuthOk(s.c, a) && LedgerOk(s, a) && ProgressOk(s, a)
  }

  // ---- the whole system ------------------------------------------------------

  ghost predicate Exclusive(s: State) {
    forall i, j | i in s.attempts && j in s.attempts && Holds(s.attempts[i]) && Holds(s.attempts[j]) ::
      s.attempts[i].file == s.attempts[j].file ==> i == j
  }

  ghost predicate RequestOk(s: State, i: nat)
    requires i < |s.reqs|
  {
    var r := s.reqs[i];
    && r.attempt in s.attempts
    && var a := s.attempts[r.attempt];
       a.req == Some(i) && a.armed && r.file == a.file && r.ref == a.ref && r.uid == a.podUid
  }

  ghost predicate OwnRequests(s: State) {
    forall i :: i in s.attempts && s.attempts[i].req.Some? ==>
      s.attempts[i].req.value < |s.reqs| && s.reqs[s.attempts[i].req.value].attempt == i
  }

  /** Tokens name their attempt, and a token found in the data was written by it. */
  ghost predicate TokensOk(s: State) {
    && (forall i, j | i in s.attempts && j in s.attempts && s.attempts[i].token != 0 ::
          s.attempts[i].token == s.attempts[j].token ==> i == j)
    && (forall i, d | i in s.attempts && d in s.c.data && s.attempts[i].token != 0 && d.1 == s.attempts[i].token ::
          s.attempts[i].wrote && d.0 == LedgerKey(s.attempts[i].t))
  }

  ghost predicate Inv(s: State) {
    && ClusterOk(s.c)
    && (forall i :: i in s.attempts ==> AttemptOk(s, s.attempts[i]))
    && Exclusive(s)
    && (forall i: nat :: i < |s.reqs| ==> RequestOk(s, i))
    && OwnRequests(s)
    && TokensOk(s)
  }

  // ---- what the passage of time keeps ----------------------------------------

  /** Requests may only be added, and a pending one answered. */
  ghost predicate ReqsLater(reqs: seq<Request>, reqs': seq<Request>) {
    && |reqs| <= |reqs'|
    && (forall i: nat :: i < |reqs| ==>
          && reqs'[i].(status := reqs[i].status) == reqs[i]
          && (!reqs[i].status.Pending? ==> reqs'[i] == reqs[i]))
  }

  lemma AuthStays(c: Cluster, c': Cluster, a: Attempt)
    requires Later(c, c') && AuthOk(c, a)
    ensures AuthOk(c', a)
  {
  }

  lemma RecordStays(reqs: seq<Request>, reqs': seq<Request>, a: Attempt, rec: Record)
    requires ReqsLater(reqs, reqs') && RecordTrue(reqs, a, rec)
    ensures RecordTrue(reqs', a, rec)
  {
  }

  /** An attempt that does nothing keeps its invariant while the rest moves on, as long
      as nobody touches the file it owns. */
  lemma AttemptStays(s: State, s': State, a: Attempt)
    requires AttemptOk(s, a) && Later(s.c, s'.c) && ReqsLater(s.reqs, s'.reqs)
    requires Holds(a) ==> a.file in s'.ledger
    requires a.armed ==> a.file in s'.disk && s'.ledger[a.file] == s.ledger[a.file] && s'.disk[a.file] == s.disk[a.file]
    ensures AttemptOk(s', a)
  {
    AuthStays(s.c, s'.c, a);
    if a.armed {
      RecordStays(s.reqs, s'.reqs, a, s.ledger[a.file].rec);
      RecordStays(s.reqs, s'.reqs, a, s.disk[a.file].rec);
    }
    if a.pc.Closing? {
      RecordStays(s.reqs, s'.reqs, a, a.pc.rec);
    }
  }
}
