/** What a passing recreation proves about the data, and what its record does not. */
module Persistence {
  import opened Wrappers
  import opened Cluster
  import opened Protocol
  import opened Invariant
  import opened Preservation
  import opened StepPreservation
  import opened Safety
  import opened Timeline
  import opened Replacement
  import opened Authorisation

  /** An attempt that got as far as its claim and ended, in whatever way, leaves its
      budget settled; NoDeleteOnceRecorded then applies to every continuation. */
  lemma EndedIsSettled(s0: State, acts: seq<Action>, id: nat)
    requires Init(s0) && id in Exec(s0, acts).attempts
    requires var a := Exec(s0, acts).attempts[id]; a.armed && !Live(a)
    ensures Settled(Exec(s0, acts), Exec(s0, acts).attempts[id].file)
  {
    var s := Exec(s0, acts);
    Reachable(s0, acts);
    assert AttemptOk(s, s.attempts[id]);
  }

  /** A passing recreation: the ledger says done, with this attempt's own uids and token, and
      that is flushed; the delete of the authorised uid was accepted, then the recorded new
      uid was read at the name, then a Ready status that is not the old pod's; a volume-backed
      target's claim was read after that and still had its uid; the token was written. */
  lemma PassMeans(s0: State, acts: seq<Action>, id: nat) returns (i: nat, j: nat)
    requires Init(s0) && id in Exec(s0, acts).attempts && Exec(s0, acts).attempts[id].pc == Finished(Passed)
    ensures ReplacedBetween(s0, acts, id, i, j)
    ensures var s := Exec(s0, acts); var a := s.attempts[id];
      && a.armed && a.wrote && a.file in s.ledger && a.file in s.disk && s.disk[a.file] == s.ledger[a.file]
      && s.ledger[a.file] == Written(Terminal(a, Done, PassOutcome, a.newUid))
      && Admitted(s.reqs, a) && s.reqs[a.req.value].uid == a.podUid
      && (a.t.claimName != "" ==> exists k :: ClaimReadAgain(s0, acts, id, j, k))
  {
    Reachable(s0, acts);
    PassRecord(Exec(s0, acts), id);
    hide Inv;
    hide Step;
    i, j := DoneWasReplaced(s0, acts, id);
    if Exec(s0, acts).attempts[id].t.claimName != "" {
      var _ := FindRead(s0, acts, id, ClaimUid);
      var k := FindClaimAgain(s0, acts, id, j);
    }
  }

  /** Action `k`, after the Ready read `j`, is the attempt's second look at its claim, and the
      claim still has the uid it had when the attempt was authorised. */
  ghost predicate ClaimReadAgain(s0: State, acts: seq<Action>, id: nat, j: nat, k: nat) {
    && j < k < |acts| && acts[k] == Do(id, ReadClaim(false)) && id in Exec(s0, acts).attempts
    && var a, c := Exec(s0, acts).attempts[id], Moment(s0, acts, k).c;
       ClaimRef(a.t) in c.claims && c.claims[ClaimRef(a.t)].uid == a.stableUid
  }

  /** The new uid is known exactly from the Ready read on. */
  lemma NewUidKnown(s: State, id: nat)
    requires Inv(s) && id in s.attempts
    ensures s.attempts[id].pc == PollingReady ==> s.attempts[id].newUid == NO_UID
    ensures s.attempts[id].pc == ReadingClaim || s.attempts[id].pc == ReadingBack ==> s.attempts[id].newUid != NO_UID
  {
    assert AttemptOk(s, s.attempts[id]);
  }

  /** So whatever is done with the new uid in hand comes after the Ready read. */
  lemma AfterReady(s0: State, acts: seq<Action>, id: nat, j: nat, k: nat)
    requires Init(s0) && j <= |acts| && id in Moment(s0, acts, j).attempts && Moment(s0, acts, j).attempts[id].pc == PollingReady
    requires k <= |acts| && id in Moment(s0, acts, k).attempts
    requires Moment(s0, acts, k).attempts[id].pc == ReadingClaim || Moment(s0, acts, k).attempts[id].pc == ReadingBack
    ensures j < k
  {
    hide Inv;
    hide Step;
    Reachable(s0, acts[..k]);
    Reachable(s0, acts[..j]);
    NewUidKnown(Moment(s0, acts, k), id);
    NewUidKnown(Moment(s0, acts, j), id);
    if k <= j { NewUidStays(s0, acts, id, k, j); }
  }

  lemma FindClaimAgain(s0: State, acts: seq<Action>, id: nat, j: nat) returns (k: nat)
    requires Init(s0) && id in Exec(s0, acts).attempts && Exec(s0, acts).attempts[id].claimAfter != NO_UID
    requires j < |acts| && id in Moment(s0, acts, j).attempts && Moment(s0, acts, j).attempts[id].pc == PollingReady
    ensures ClaimReadAgain(s0, acts, id, j, k)
  {
    hide Step;
    hide Exec;
    MomentLast(s0, acts);
    k := FindClaimRead(s0, acts, id);
    IdsFixed(s0, acts, id, k, |acts|);
    AfterReady(s0, acts, id, j, k);
  }

  lemma PassRecord(s: State, id: nat)
    requires Inv(s) && id in s.attempts && s.attempts[id].pc == Finished(Passed)
    ensures var a := s.attempts[id];
      && a.armed && a.wrote && a.file in s.ledger && a.file in s.disk && s.disk[a.file] == s.ledger[a.file]
      && s.ledger[a.file] == Written(Terminal(a, Done, PassOutcome, a.newUid))
      && (a.t.claimName != "" ==> a.claimAfter == a.stableUid)
  {
    var a := s.attempts[id];
    assert AttemptOk(s, a);
    assert PassEvidence(a, s.ledger[a.file].rec);
    assert RecordTrue(s.reqs, a, s.ledger[a.file].rec);
  }

  // ---- the token -------------------------------------------------------------------

  predicate InData(s: State, a: Attempt) {
    (LedgerKey(a.t), a.token) in s.c.data
  }

  /** What identifies an attempt's token never changes once it was written. */
  ghost predicate SameToken(a: Attempt, b: Attempt) {
    b.t == a.t && b.token == a.token && b.wrote
  }

  lemma MoveAddsOnlyItsToken(s: State, id: nat, a: Attempt, move: Move)
    ensures var s' := Advance(s, id, a, move);
      s'.c.data == s.c.data || (a.pc.Writing? && s'.c.data == s.c.data + {(LedgerKey(a.t), a.token)})
  {
    hide Unnamed;
    hide Local;
    hide Intent;
    hide ToClose;
    hide LedgerKey;
    AdvanceIs(s, id, a, move);
    hide Advance;
  }

  lemma LocalKeepsToken(s: State, a: Attempt, move: Move)
    ensures var b := Local(s, a, move); b.t == a.t && b.token == a.token && b.wrote == a.wrote
  {
    if a.pc.Auth? { AuthoriseShape(s.c, a, a.pc.read, move); }
  }

  lemma LateFileMovesKeepToken(s: State, id: nat, a: Attempt)
    requires a.wrote
    ensures forall fill :: SameToken(a, FillLedger(s, id, a, fill).attempts[id])
    ensures forall blocked :: SameToken(a, IssueDelete(s, id, a, blocked).attempts[id])
    ensures forall rec, why, close :: SameToken(a, CloseLedger(s, id, a, rec, why, close).attempts[id])
  {
  }

  lemma OwnMoveKeepsToken(s: State, id: nat, move: Move)
    requires id in s.attempts && s.attempts[id].wrote && !s.attempts[id].pc.Creating? && !s.attempts[id].pc.Writing?
    ensures var s' := Advance(s, id, s.attempts[id], move);
      id in s'.attempts && SameToken(s.attempts[id], s'.attempts[id])
  {
    var a := s.attempts[id];
    AdvanceIs(s, id, a, move);
    if LocalPC(a) { LocalKeepsToken(s, a, move); } else { LateFileMovesKeepToken(s, id, a); }
  }

  lemma WroteMeans(s: State, id: nat)
    requires Inv(s) && id in s.attempts && s.attempts[id].wrote
    ensures !s.attempts[id].pc.Creating? && !s.attempts[id].pc.Writing?
  {
    assert AttemptOk(s, s.attempts[id]);
  }

  lemma WrittenStaysWritten(s: State, act: Action, id: nat)
    requires Inv(s) && id in s.attempts && s.attempts[id].wrote
    ensures id in Step(s, act).attempts && SameToken(s.attempts[id], Step(s, act).attempts[id])
  {
    if act.Do? && act.id == id && Live(s.attempts[id]) {
      WroteMeans(s, id);
      OwnMoveKeepsToken(s, id, act.move);
    } else {
      OthersLeaveItAlone(s, act, id);
    }
  }

  /** A written token that left the data never comes back: nobody else can write it and
      its own attempt writes only once. */
  lemma LostTokenStaysLost(s: State, act: Action, id: nat)
    requires Inv(s) && id in s.attempts && s.attempts[id].wrote && !InData(s, s.attempts[id])
    ensures !InData(Step(s, act), s.attempts[id])
  {
    hide Advance;
    var a := s.attempts[id];
    assert AttemptOk(s, a);
    match act
    case World(d) => DisturbForgesNothing(s.c, d);
    case Serve(index, verdict) =>
    case PowerLoss(fallBack, torn) =>
    case Start(i, t, runId) =>
    case Do(i, move) =>
      if i in s.attempts && Live(s.attempts[i]) {
        MoveAddsOnlyItsToken(s, i, s.attempts[i], move);
        if s.attempts[i].pc.Writing? {
          assert AttemptOk(s, s.attempts[i]);
          assert s.attempts[i].token != a.token || i == id;
        }
      }
  }

  /** So a token that is still there was there all along. */
  lemma {:induction false} PresentTokenNeverLeft(s: State, more: seq<Action>, id: nat)
    requires Inv(s) && id in s.attempts && s.attempts[id].wrote && InData(Exec(s, more), s.attempts[id])
    ensures InData(s, s.attempts[id])
    ensures id in Exec(s, more).attempts && SameToken(s.attempts[id], Exec(s, more).attempts[id])
  {
    WrittenStaysWrittenInRun(s, more, id);
    if more != [] {
      var init := more[..|more| - 1];
      WrittenStaysWrittenInRun(s, init, id);
      RunKeeps(s, init);
      if !InData(Exec(s, init), s.attempts[id]) {
        LostTokenStaysLost(Exec(s, init), more[|more| - 1], id);
      }
      PresentTokenNeverLeft(s, init, id);
    }
  }

  lemma {:induction false} WrittenStaysWrittenInRun(s: State, more: seq<Action>, id: nat)
    requires Inv(s) && id in s.attempts && s.attempts[id].wrote
    ensures id in Exec(s, more).attempts && SameToken(s.attempts[id], Exec(s, more).attempts[id])
  {
    if more != [] {
      var init := more[..|more| - 1];
      WrittenStaysWrittenInRun(s, init, id);
      RunKeeps(s, init);
      WrittenStaysWritten(Exec(s, init), more[|more| - 1], id);
    }
  }

  /** The attempt has read its token back. */
  predicate ReadBackPassed(a: Attempt) {
    a.pc == Finished(Passed) || (a.pc.Closing? && a.pc.why == Passed)
  }

  lemma WaitingDoesNotPass(c: Cluster, a: Attempt, status: RequestStatus, b: bool)
    requires !ReadBackPassed(a)
    ensures !ReadBackPassed(AfterAnswer(a, status, b)) && !ReadBackPassed(AfterPollUid(c, a, b))
    ensures !ReadBackPassed(AfterPollReady(c, a, b)) && !ReadBackPassed(AfterReadClaim(c, a, b))
  {
  }

  lemma OnlyReadingBackPasses(s: State, a: Attempt, move: Move)
    requires LocalPC(a) && Live(a) && ReadBackPassed(Local(s, a, move))
    ensures a.pc.ReadingBack? && InData(s, a) && SameButPC(a, Local(s, a, move))
  {
    hide Authorise;
    hide AfterAnswer;
    hide AfterPollUid;
    hide AfterPollReady;
    hide AfterReadClaim;
    if a.pc.Auth? {
      AuthoriseShape(s.c, a, a.pc.read, move);
    } else if a.pc.Awaiting? && HasRequest(s.reqs, a) && move.Answer? {
      WaitingDoesNotPass(s.c, a, s.reqs[a.req.value].status, move.lost);
    } else if move.PollUid? || move.PollReady? || move.ReadClaim? {
      WaitingDoesNotPass(s.c, a, Pending, move.err);
    }
  }

  lemma ClaimingDoesNotPass(s: State, id: nat, a: Attempt)
    requires id in s.attempts && a == s.attempts[id] && !LocalPC(a) && !a.pc.Closing?
    ensures forall err :: !ReadBackPassed(CreateFile(s, id, a, err).attempts[id])
    ensures forall fill :: !ReadBackPassed(FillLedger(s, id, a, fill).attempts[id])
  {
    hide Intent;
  }

  lemma ChangingDoesNotPass(s: State, id: nat, a: Attempt)
    requires id in s.attempts && a == s.attempts[id] && !LocalPC(a) && !a.pc.Closing?
    ensures forall ok, landed :: !ReadBackPassed(WriteToken(s, id, a, ok, landed).attempts[id])
    ensures forall blocked :: !ReadBackPassed(IssueDelete(s, id, a, blocked).attempts[id])
  {
    hide Terminal;
  }

  lemma ClosingMovePasses(s: State, id: nat, a: Attempt, close: CloseOutcome)
    requires a.pc.Closing? && ReadBackPassed(CloseLedger(s, id, a, a.pc.rec, a.pc.why, close).attempts[id])
    ensures ReadBackPassed(a) && SameButPC(a, CloseLedger(s, id, a, a.pc.rec, a.pc.why, close).attempts[id])
  {
  }

  lemma PassingFileMove(s: State, id: nat, a: Attempt, move: Move)
    requires !LocalPC(a) && id in s.attempts && a == s.attempts[id] && ReadBackPassed(Advance(s, id, a, move).attempts[id])
    ensures ReadBackPassed(a) && SameButPC(a, Advance(s, id, a, move).attempts[id])
  {
    if a.pc.Closing? && move.Close? {
      AdvanceIs(s, id, a, move);
      ClosingMovePasses(s, id, a, move.close);
    } else if a.pc.Closing? {
      AdvanceIs(s, id, a, move);
    } else {
      ClaimingDoesNotPass(s, id, a);
      ChangingDoesNotPass(s, id, a);
      AdvanceIs(s, id, a, move);
    }
  }

  lemma PassingMove(s: State, id: nat, move: Move)
    requires id in s.attempts && Live(s.attempts[id])
    requires var s' := Advance(s, id, s.attempts[id], move); id in s'.attempts && ReadBackPassed(s'.attempts[id])
    ensures SameButPC(s.attempts[id], Advance(s, id, s.attempts[id], move).attempts[id])
    ensures !ReadBackPassed(s.attempts[id]) ==> s.attempts[id].pc.ReadingBack? && InData(s, s.attempts[id])
  {
    var a := s.attempts[id];
    if LocalPC(a) {
      AdvanceIs(s, id, a, move);
      OnlyReadingBackPasses(s, a, move);
    } else {
      PassingFileMove(s, id, a, move);
    }
  }

  /** The step on which the token was read back: the delete had been carried out and the
      data still held the token. */
  lemma ReadingBackMeans(s: State, id: nat)
    requires Inv(s) && id in s.attempts && s.attempts[id].pc.ReadingBack?
    ensures Admitted(s.reqs, s.attempts[id]) && s.attempts[id].wrote
  {
    assert AttemptOk(s, s.attempts[id]);
  }

  lemma {:induction false} FindReadBack(s0: State, acts: seq<Action>, id: nat) returns (k: nat)
    requires Init(s0) && id in Exec(s0, acts).attempts && ReadBackPassed(Exec(s0, acts).attempts[id])
    ensures k < |acts| && id in Exec(s0, acts[..k]).attempts
    ensures var s := Exec(s0, acts[..k]); var a := s.attempts[id];
      && a.pc.ReadingBack? && InData(s, a) && Admitted(s.reqs, a) && a.wrote
      && SameButPC(a, Exec(s0, acts).attempts[id])
  {
    var n := |acts| - 1;
    var t := Exec(s0, acts[..n]);
    var act := acts[n];
    StepToPass(t, act, id);
    if ReadBackPassed(t.attempts[id]) {
      k := FindReadBack(s0, acts[..n], id);
      assert acts[..n][..k] == acts[..k];
    } else {
      k := n;
      Reachable(s0, acts[..n]);
      ReadingBackMeans(t, id);
    }
  }

  lemma OtherActionsKeepPass(s: State, act: Action, id: nat)
    requires id in Step(s, act).attempts && ReadBackPassed(Step(s, act).attempts[id])
    requires !(act.Do? && act.id == id && id in s.attempts && Live(s.attempts[id]))
    ensures id in s.attempts && ReadBackPassed(s.attempts[id]) && SameButPC(s.attempts[id], Step(s, act).attempts[id])
  {
    if act.Do? && act.id in s.attempts {
      AdvanceWithin(s, act.id, s.attempts[act.id], act.move);
    }
  }

  lemma StepToPass(s: State, act: Action, id: nat)
    requires id in Step(s, act).attempts && ReadBackPassed(Step(s, act).attempts[id])
    ensures id in s.attempts && SameButPC(s.attempts[id], Step(s, act).attempts[id])
    ensures !ReadBackPassed(s.attempts[id]) ==> s.attempts[id].pc.ReadingBack? && InData(s, s.attempts[id])
  {
    if act.Do? && act.id == id && id in s.attempts && Live(s.attempts[id]) {
      PassingMove(s, id, act.move);
    } else {
      OtherActionsKeepPass(s, act, id);
    }
  }

  /** The business data survived the rebuild: in a passing recreation the token that was
      read back is the one this attempt wrote, and it was in the data at every moment from
      that write, through the delete and the Ready read, to the read. A second write cannot have
      supplied it. */
  lemma TokenSurvivedTheRebuild(s0: State, acts: seq<Action>, id: nat) returns (k: nat)
    requires Init(s0) && id in Exec(s0, acts).attempts && Exec(s0, acts).attempts[id].pc == Finished(Passed)
    ensures k < |acts| && id in Exec(s0, acts[..k]).attempts
    ensures var s := Exec(s0, acts[..k]); var a := s.attempts[id];
      a.pc.ReadingBack? && Admitted(s.reqs, a) && a.token == Exec(s0, acts).attempts[id].token
    ensures forall j: nat :: j <= k && id in Exec(s0, acts[..j]).attempts && Exec(s0, acts[..j]).attempts[id].wrote ==>
      InData(Exec(s0, acts[..j]), Exec(s0, acts).attempts[id])
    ensures forall i: nat, j: nat :: ReplacedBetween(s0, acts, id, i, j) ==> j < k
  {
    k := FindReadBack(s0, acts, id);
    forall i: nat, j: nat | ReplacedBetween(s0, acts, id, i, j)
      ensures j < k
    {
      AfterReady(s0, acts, id, j, k);
    }
    forall j: nat | j <= k && id in Exec(s0, acts[..j]).attempts && Exec(s0, acts[..j]).attempts[id].wrote
      ensures InData(Exec(s0, acts[..j]), Exec(s0, acts).attempts[id])
    {
      Reachable(s0, acts[..j]);
      ExecSplits(s0, acts[..k], j);
      assert acts[..k][..j] == acts[..j];
      WrittenStaysWrittenInRun(Exec(s0, acts[..j]), acts[..k][j..], id);
      PresentTokenNeverLeft(Exec(s0, acts[..j]), acts[..k][j..], id);
    }
  }

  // ---- what the record does not say ------------------------------------------------------

  /** The uid written into a `done` record need not be the uid of the pod that was read
      Ready: the two are separate reads. From every state in between, one replacement by
      a Ready pod lets the attempt go on with the two different. */
  lemma ReadyMayBeAThirdPod(s: State, id: nat, uid: Uid) returns (more: seq<Action>)
    requires Inv(s) && id in s.attempts && s.attempts[id].pc == PollingReady
    requires uid != NO_UID && uid !in s.c.used
    ensures |more| == 3 && more[2] == Do(id, PollReady(false)) && id in Exec(s, more).attempts
    ensures var a, b, c := s.attempts[id], Exec(s, more).attempts[id], Exec(s, more[..2]).c;
      && b.newUid == a.lastUid != uid && a.podUid != uid
      && StandsAt(c, a.ref, uid) && c.pods[a.ref].ready
  {
    var a := s.attempts[id];
    LastUidIsUsed(s, id);
    var pod := Pod(uid, "", false, NO_UID, {}, {}, true, false);
    more := [World(PodGoes(a.ref)), World(PodAppears(a.ref, pod)), Do(id, PollReady(false))];
    ThreeSteps(s, more);
    TwoSteps(s, more);
    ReplacedPodIsRead(Step(Step(s, more[0]), more[1]), id, pod);
  }

  lemma TwoSteps(s: State, acts: seq<Action>)
    requires |acts| >= 2
    ensures Exec(s, acts[..2]) == Step(Step(s, acts[0]), acts[1])
  {
    assert acts[..2][..1] == acts[..1] && acts[..1][..0] == [];
    assert Exec(s, acts[..1]) == Step(s, acts[0]);
  }

  lemma LastUidIsUsed(s: State, id: nat)
    requires Inv(s) && id in s.attempts && s.attempts[id].pc == PollingReady
    ensures s.attempts[id].lastUid in s.c.used && s.attempts[id].podUid in s.c.used
  {
    assert AttemptOk(s, s.attempts[id]);
  }

  lemma ReplacedPodIsRead(s: State, id: nat, pod: Pod)
    requires id in s.attempts && s.attempts[id].pc == PollingReady && pod.ready
    requires s.attempts[id].ref in s.c.pods && s.c.pods[s.attempts[id].ref] == pod
    ensures var s' := Step(s, Do(id, PollReady(false)));
      && id in s'.attempts && s'.attempts[id] == s.attempts[id].(newUid := s.attempts[id].lastUid, pc := s'.attempts[id].pc)
  {
    AdvanceIs(s, id, s.attempts[id], PollReady(false));
  }

  lemma ThreeSteps(s: State, acts: seq<Action>)
    requires |acts| == 3
    ensures Exec(s, acts) == Step(Step(Step(s, acts[0]), acts[1]), acts[2])
  {
    assert acts[..2][..1] == acts[..1] && acts[..1][..0] == [];
    assert Exec(s, acts[..1]) == Step(s, acts[0]);
    assert Exec(s, acts[..2]) == Step(Exec(s, acts[..1]), acts[1]);
  }
}
