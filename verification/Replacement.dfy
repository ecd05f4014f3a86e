/** What a `done` record rests on, as moments of the run: after the delete was accepted a
    different uid was read at the name, and after that a Ready status. */
module Replacement {
  import opened Wrappers
  import opened Cluster
  import opened Protocol
  import opened Invariant
  import opened Preservation
  import opened StepPreservation
  import opened Safety
  import opened Timeline

  function ClaimRef(t: Target): Ref {
    Ref(t.ns, t.claimName)
  }

  /** Which read sets which local of the polling loop and after. */
  lemma LocalReads(s: State, a: Attempt, move: Move)
    requires LocalPC(a)
    ensures var b := Local(s, a, move);
      && (b.lastUid != a.lastUid ==> a.pc == PollingUid && move == PollUid(false) && StandsAt(s.c, a.ref, b.lastUid))
      && (b.newUid != a.newUid ==>
            a.pc == PollingReady && move == PollReady(false) && a.ref in s.c.pods && s.c.pods[a.ref].ready && b.newUid == a.lastUid)
      && (b.claimAfter != a.claimAfter ==>
            && a.pc == ReadingClaim && move == ReadClaim(false)
            && ClaimRef(a.t) in s.c.claims && s.c.claims[ClaimRef(a.t)].uid == b.claimAfter == a.stableUid)
  {
    hide Authorise;
    if a.pc.Auth? { AuthoriseShape(s.c, a, a.pc.read, move); }
  }

  // ---- what is fixed once the authorisation is over --------------------------------------

  ghost predicate SameIds(a: Attempt, b: Attempt) {
    && b.t == a.t && b.file == a.file && b.ref == a.ref && b.podUid == a.podUid
    && b.controllerUid == a.controllerUid && b.stableUid == a.stableUid && b.volume == a.volume
    && (a.req.Some? ==> b.req == a.req)
  }

  lemma AnswerKeepsIds(a: Attempt, status: RequestStatus, lost: bool)
    ensures var b := AfterAnswer(a, status, lost); SameIds(a, b) && (a.pc.Auth? || !b.pc.Auth?)
  {
    hide Terminal;
  }

  lemma WaitKeepsIds(c: Cluster, a: Attempt, err: bool)
    ensures SameIds(a, AfterPollUid(c, a, err)) && !AfterPollUid(c, a, err).pc.Auth?
    ensures SameIds(a, AfterPollReady(c, a, err)) && !AfterPollReady(c, a, err).pc.Auth?
  {
  }

  lemma ConfirmKeepsIds(c: Cluster, a: Attempt, err: bool)
    ensures SameIds(a, AfterReadClaim(c, a, err)) && !AfterReadClaim(c, a, err).pc.Auth?
    ensures SameIds(a, AfterReadBack(c, a, err)) && !AfterReadBack(c, a, err).pc.Auth?
  {
    hide Terminal;
    hide LedgerKey;
  }

  lemma LocalKeepsIds(s: State, a: Attempt, move: Move)
    requires LocalPC(a) && !a.pc.Auth?
    ensures SameIds(a, Local(s, a, move)) && !Local(s, a, move).pc.Auth?
  {
    hide Terminal;
    hide AfterAnswer;
    hide AfterPollUid;
    hide AfterPollReady;
    hide AfterReadClaim;
    hide AfterReadBack;
    match move
    case Answer(lost) => if a.req.Some? && a.req.value < |s.reqs| { AnswerKeepsIds(a, s.reqs[a.req.value].status, lost); }
    case PollUid(err) => WaitKeepsIds(s.c, a, err);
    case PollReady(err) => WaitKeepsIds(s.c, a, err);
    case ReadClaim(err) => ConfirmKeepsIds(s.c, a, err);
    case ReadBack(err) => ConfirmKeepsIds(s.c, a, err);
    case _ =>
  }

  lemma IdsStep(s: State, act: Action, id: nat)
    requires Inv(s) && id in s.attempts && !s.attempts[id].pc.Auth?
    ensures id in Step(s, act).attempts && !Step(s, act).attempts[id].pc.Auth?
    ensures SameIds(s.attempts[id], Step(s, act).attempts[id])
  {
    hide Local;
    hide Advance;
    assert AttemptOk(s, s.attempts[id]);
    hide Inv;
    if Own(act, id, s) {
      AdvanceIs(s, id, s.attempts[id], act.move);
      if LocalPC(s.attempts[id]) {
        LocalKeepsIds(s, s.attempts[id], act.move);
      } else {
        FileMoveIs(s, id, act.move);
      }
    } else {
      OthersLeaveItAlone(s, act, id);
    }
  }

  /** Past its authorisation an attempt keeps what it was authorised for, and its request. */
  lemma {:induction false} IdsFixed(s0: State, acts: seq<Action>, id: nat, k: nat, n: nat)
    requires Init(s0) && k <= n <= |acts| && id in Moment(s0, acts, k).attempts && !Moment(s0, acts, k).attempts[id].pc.Auth?
    ensures id in Moment(s0, acts, n).attempts && !Moment(s0, acts, n).attempts[id].pc.Auth?
    ensures SameIds(Moment(s0, acts, k).attempts[id], Moment(s0, acts, n).attempts[id])
    decreases n - k
  {
    hide Step;
    if k < n {
      MomentNext(s0, acts, k);
      Reachable(s0, acts[..k]);
      IdsStep(Moment(s0, acts, k), acts[k], id);
      IdsFixed(s0, acts, id, k + 1, n);
    }
  }

  // ---- the three reads -----------------------------------------------------------------------

  /** The step that first makes one of these locals what it is, is the attempt's own read. */
  lemma RisingStep(s: State, act: Action, id: nat)
    requires id in Step(s, act).attempts
    ensures var b := Step(s, act).attempts[id];
      b.lastUid != NO_UID || b.newUid != NO_UID || b.claimAfter != NO_UID ==> id in s.attempts
    ensures id in s.attempts ==>
      var a, b := s.attempts[id], Step(s, act).attempts[id];
      SameFindings(a, b) || (Own(act, id, s) && LocalPC(a) && b == Local(s, a, act.move))
  {
    hide Step;
    if id in s.attempts { FindingsStep(s, act, id); } else { StartedFresh(s, act, id); }
  }

  /** Where the uid `uid` was read at the name. */
  lemma FindUidRead(s0: State, acts: seq<Action>, id: nat) returns (i: nat)
    requires Init(s0) && id in Exec(s0, acts).attempts && Exec(s0, acts).attempts[id].lastUid != NO_UID
    ensures i < |acts| && acts[i] == Do(id, PollUid(false))
    ensures id in Moment(s0, acts, i).attempts
    ensures var s, a := Moment(s0, acts, i), Moment(s0, acts, i).attempts[id];
      a.pc == PollingUid && StandsAt(s.c, a.ref, Exec(s0, acts).attempts[id].lastUid)
  {
    hide Step;
    var uid := Exec(s0, acts).attempts[id].lastUid;
    MomentLast(s0, acts);
    var mark := (a: Attempt) => a.lastUid == uid;
    i := LastRise(s0, acts, id, mark, |acts|);
    var s := Moment(s0, acts, i);
    MomentNext(s0, acts, i);
    assert Marked(s0, acts, i + 1, id, mark);
    RisingStep(s, acts[i], id);
    LocalReads(s, s.attempts[id], acts[i].move);
  }

  /** Where a Ready status was read at the name, the uid read before being `newUid`. */
  lemma FindReadyRead(s0: State, acts: seq<Action>, id: nat) returns (j: nat)
    requires Init(s0) && id in Exec(s0, acts).attempts && Exec(s0, acts).attempts[id].newUid != NO_UID
    ensures j < |acts| && acts[j] == Do(id, PollReady(false))
    ensures id in Moment(s0, acts, j).attempts
    ensures var s, a := Moment(s0, acts, j), Moment(s0, acts, j).attempts[id];
      && a.pc == PollingReady && a.ref in s.c.pods && s.c.pods[a.ref].ready
      && a.lastUid == Exec(s0, acts).attempts[id].newUid
  {
    hide Step;
    var uid := Exec(s0, acts).attempts[id].newUid;
    MomentLast(s0, acts);
    var mark := (a: Attempt) => a.newUid == uid;
    j := LastRise(s0, acts, id, mark, |acts|);
    var s := Moment(s0, acts, j);
    MomentNext(s0, acts, j);
    assert Marked(s0, acts, j + 1, id, mark);
    RisingStep(s, acts[j], id);
    LocalReads(s, s.attempts[id], acts[j].move);
  }

  /** Where the claim was read again and still had the uid it was authorised with. */
  lemma FindClaimRead(s0: State, acts: seq<Action>, id: nat) returns (k: nat)
    requires Init(s0) && id in Exec(s0, acts).attempts && Exec(s0, acts).attempts[id].claimAfter != NO_UID
    ensures k < |acts| && acts[k] == Do(id, ReadClaim(false))
    ensures id in Moment(s0, acts, k).attempts
    ensures var s, a := Moment(s0, acts, k), Moment(s0, acts, k).attempts[id];
      a.pc == ReadingClaim && ClaimRef(a.t) in s.c.claims && s.c.claims[ClaimRef(a.t)].uid == a.stableUid
  {
    hide Step;
    var uid := Exec(s0, acts).attempts[id].claimAfter;
    MomentLast(s0, acts);
    var mark := (a: Attempt) => a.claimAfter == uid;
    k := LastRise(s0, acts, id, mark, |acts|);
    var s := Moment(s0, acts, k);
    MomentNext(s0, acts, k);
    assert Marked(s0, acts, k + 1, id, mark);
    RisingStep(s, acts[k], id);
    LocalReads(s, s.attempts[id], acts[k].move);
  }

  lemma NewUidStep(s: State, act: Action, id: nat)
    requires Inv(s) && id in s.attempts && s.attempts[id].newUid != NO_UID
    ensures id in Step(s, act).attempts && Step(s, act).attempts[id].newUid == s.attempts[id].newUid
  {
    assert AttemptOk(s, s.attempts[id]);
    hide Step;
    hide Local;
    hide Inv;
    FindingsStep(s, act, id);
    if LocalPC(s.attempts[id]) && act.Do? { LocalReads(s, s.attempts[id], act.move); }
  }

  lemma {:induction false} NewUidStays(s0: State, acts: seq<Action>, id: nat, k: nat, n: nat)
    requires Init(s0) && k <= n <= |acts| && id in Moment(s0, acts, k).attempts && Moment(s0, acts, k).attempts[id].newUid != NO_UID
    ensures id in Moment(s0, acts, n).attempts && Moment(s0, acts, n).attempts[id].newUid == Moment(s0, acts, k).attempts[id].newUid
    decreases n - k
  {
    hide Step;
    if k < n {
      MomentNext(s0, acts, k);
      Reachable(s0, acts[..k]);
      NewUidStep(Moment(s0, acts, k), acts[k], id);
      NewUidStays(s0, acts, id, k + 1, n);
    }
  }

  // ---- the replacement -------------------------------------------------------------------------

  /** The uid read of attempt `id` is action `i` and its Ready read is action `j`. The delete
      had been accepted by then; from the uid read on the old pod is gone for good, so the
      Ready status is another pod's; and it is the status of the pod whose uid was read
      exactly when that pod stood at the name from the one read to the other. */
  ghost predicate ReplacedBetween(s0: State, acts: seq<Action>, id: nat, i: nat, j: nat) {
    && i < j < |acts| && acts[i] == Do(id, PollUid(false)) && acts[j] == Do(id, PollReady(false))
    && id in Exec(s0, acts).attempts && id in Moment(s0, acts, i).attempts && id in Moment(s0, acts, j).attempts
    && Moment(s0, acts, i).attempts[id].pc == PollingUid && Moment(s0, acts, j).attempts[id].pc == PollingReady
    && var a := Exec(s0, acts).attempts[id];
       && a.newUid != NO_UID && a.newUid != a.podUid
       && Admitted(Moment(s0, acts, i).reqs, a)
       && StandsAt(Moment(s0, acts, i).c, a.ref, a.newUid)
       && (forall k: nat :: i <= k <= |acts| ==> !StandsAt(Moment(s0, acts, k).c, a.ref, a.podUid))
       && a.ref in Moment(s0, acts, j).c.pods && Moment(s0, acts, j).c.pods[a.ref].ready
       && (Moment(s0, acts, j).c.pods[a.ref].uid == a.newUid <==>
             forall k: nat :: i <= k <= j ==> StandsAt(Moment(s0, acts, k).c, a.ref, a.newUid))
  }

  lemma PollingIsAdmitted(s0: State, acts: seq<Action>, k: nat, id: nat)
    requires Init(s0) && k <= |acts| && id in Moment(s0, acts, k).attempts
    requires var a := Moment(s0, acts, k).attempts[id]; a.pc == PollingUid || a.pc == PollingReady
    ensures var s := Moment(s0, acts, k); var a := s.attempts[id];
      && Admitted(s.reqs, a) && a.podUid != NO_UID && a.podUid in s.c.used
      && (a.pc == PollingReady ==> a.lastUid != NO_UID && a.lastUid != a.podUid)
  {
    Reachable(s0, acts[..k]);
    assert AttemptOk(Moment(s0, acts, k), Moment(s0, acts, k).attempts[id]);
  }

  lemma GoneFromThen(s0: State, acts: seq<Action>, i: nat, ref: Ref, uid: Uid)
    requires Init(s0) && i <= |acts| && uid in Moment(s0, acts, i).c.used && !StandsAt(Moment(s0, acts, i).c, ref, uid)
    ensures forall k: nat :: i <= k <= |acts| ==> !StandsAt(Moment(s0, acts, k).c, ref, uid)
  {
    forall k: nat | i <= k <= |acts|
      ensures !StandsAt(Moment(s0, acts, k).c, ref, uid)
    {
      if StandsAt(Moment(s0, acts, k).c, ref, uid) { StoodAllAlong(s0, acts, i, k, ref, uid); }
    }
  }

  /** Uids are never reused, so a pod that stands at both ends of a stretch stood throughout. */
  lemma SamePodIff(s0: State, acts: seq<Action>, i: nat, j: nat, ref: Ref, uid: Uid)
    requires Init(s0) && i <= j <= |acts| && StandsAt(Moment(s0, acts, i).c, ref, uid) && ref in Moment(s0, acts, j).c.pods
    ensures Moment(s0, acts, j).c.pods[ref].uid == uid <==> forall k: nat :: i <= k <= j ==> StandsAt(Moment(s0, acts, k).c, ref, uid)
  {
    if forall k: nat :: i <= k <= j ==> StandsAt(Moment(s0, acts, k).c, ref, uid) {
      assert StandsAt(Moment(s0, acts, j).c, ref, uid);
    }
    if Moment(s0, acts, j).c.pods[ref].uid == uid {
      forall k: nat | i <= k <= j
        ensures StandsAt(Moment(s0, acts, k).c, ref, uid)
      {
        UsedFromThen(s0, acts, i, k, uid);
        StoodAllAlong(s0, acts, k, j, ref, uid);
      }
    }
  }

  lemma {:induction false} UsedFromThen(s0: State, acts: seq<Action>, i: nat, k: nat, uid: Uid)
    requires Init(s0) && i <= k <= |acts| && (uid in Moment(s0, acts, i).c.used || exists ref :: StandsAt(Moment(s0, acts, i).c, ref, uid))
    ensures uid in Moment(s0, acts, k).c.used
    decreases k - i
  {
    hide Step;
    Reachable(s0, acts[..i]);
    assert ClusterOk(Moment(s0, acts, i).c);
    if i < k {
      MomentNext(s0, acts, i);
      UsedStays(Moment(s0, acts, i), acts[i]);
      UsedFromThen(s0, acts, i + 1, k, uid);
    }
  }

  /** Every attempt whose polling loop returned went through both reads, in that order. */
  lemma FindReplacement(s0: State, acts: seq<Action>, id: nat) returns (i: nat, j: nat)
    requires Init(s0) && id in Exec(s0, acts).attempts && Exec(s0, acts).attempts[id].newUid != NO_UID
    ensures ReplacedBetween(s0, acts, id, i, j)
  {
    hide Step;
    hide Exec;
    hide Init;
    hide Admitted;
    MomentLast(s0, acts);
    j := FindReadyRead(s0, acts, id);
    PollingIsAdmitted(s0, acts, j, id);
    IdsFixed(s0, acts, id, j, |acts|);
    i := FindUidRead(s0, acts[..j], id);
    assert acts[..j][..i] == acts[..i];
    assert Moment(s0, acts[..j], i) == Moment(s0, acts, i);
    PollingIsAdmitted(s0, acts, i, id);
    IdsFixed(s0, acts, id, i, |acts|);
    var a := Exec(s0, acts).attempts[id];
    AdmittedDepends(Moment(s0, acts, i).reqs, Moment(s0, acts, i).attempts[id], a);
    GoneFromThen(s0, acts, i, a.ref, a.podUid);
    SamePodIff(s0, acts, i, j, a.ref, a.newUid);
  }

  lemma AdmittedDepends(reqs: seq<Request>, a: Attempt, b: Attempt)
    requires Admitted(reqs, a) && SameIds(a, b)
    ensures Admitted(reqs, b)
  {
  }

  /** `done` means: the request named the recorded old uid and was accepted; then the recorded
      new uid was read at the name; and then a pod that is not the old one was read Ready. */
  lemma DoneWasReplaced(s0: State, acts: seq<Action>, id: nat) returns (i: nat, j: nat)
    requires Init(s0) && id in Exec(s0, acts).attempts && Exec(s0, acts).attempts[id].armed
    requires var s := Exec(s0, acts); var f := s.attempts[id].file;
      f in s.ledger && s.ledger[f].Written? && s.ledger[f].rec.state == Done
    ensures ReplacedBetween(s0, acts, id, i, j)
    ensures var s := Exec(s0, acts); var a := s.attempts[id]; var rec := s.ledger[a.file].rec;
      && Admitted(s.reqs, a) && s.reqs[a.req.value].uid == a.podUid == rec.oldPodUid
      && rec.newPodUid == a.newUid
  {
    Reachable(s0, acts);
    assert AttemptOk(Exec(s0, acts), Exec(s0, acts).attempts[id]);
    OwnRequestMeans(Exec(s0, acts), id);
    hide Step;
    hide Inv;
    i, j := FindReplacement(s0, acts, id);
  }
}
