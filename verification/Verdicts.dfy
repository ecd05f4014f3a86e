/** Why an attempt ended as it did: one table of causes, over whole runs and in both directions,
    and what the closed record says of each. */
module Verdicts {
  import opened Wrappers
  import opened Cluster
  import opened Protocol
  import opened Invariant
  import opened Preservation
  import opened StepPreservation
  import opened Safety
  import opened Timeline
  import opened Replacement
  import opened Authorisation
  import opened Persistence
  import opened Gates

  /** The verdict an attempt has reached; whether a pass could be recorded is another matter. */
  function VerdictOf(pc: PC): Option<Reason> {
    match pc
    case Closing(_, why) => Some(why)
    case Finished(why) => Some(if why == LedgerNotClosed then Passed else why)
    case _ => None
  }

  /** The live cluster answers an authorising read with what the target declares. */
  ghost predicate Answers(c: Cluster, a: Attempt, read: AuthRead) {
    var claim := Ref(a.t.ns, a.t.claimName);
    var owner := (a.t.controllerKind, Ref(a.t.ns, a.t.controllerName));
    match read
    case ResolveName => true
    case PodUid => a.ref in c.pods && c.pods[a.ref].uid != NO_UID
    case OwnerName => a.ref in c.pods && c.pods[a.ref].ownerName == a.t.controllerName
    case OwnerFlag => a.ref in c.pods && c.pods[a.ref].ownerIsController
    case ControllerUid => owner in c.controllers && c.controllers[owner] != NO_UID
    case OwnerUid =>
      && a.ref in c.pods && c.pods[a.ref].ownerUid == a.controllerUid
      && (a.t.claimName != "" || (a.t.hostPath != "" && a.t.nodeName != ""))
    case ClaimUid => claim in c.claims && c.claims[claim].uid != NO_UID
    case ClaimMounts => a.ref in c.pods && a.t.claimName in c.pods[a.ref].claims
    case ClaimVolume => claim in c.claims && c.claims[claim].volumeName != ""
    case VolumeRef => a.volume in c.volumes && c.volumes[a.volume] == a.stableUid
    case HostMounts => a.ref in c.pods && a.t.hostPath in c.pods[a.ref].hostPaths
    case NodeUid => a.t.nodeName in c.nodes && c.nodes[a.t.nodeName] != NO_UID
  }

  predicate Resolvable(t: Target, name: string) {
    t.podName != "" || (t.nodeName != "" && t.podSelector != "" && name != "")
  }

  /** The call that decides for `why`: where the attempt stands, what it asks, and what it finds. */
  ghost predicate Decides(s: State, a: Attempt, move: Move, why: Reason) {
    var claim := Ref(a.t.ns, a.t.claimName);
    match why
    case Unauthorised =>
      && a.pc.Auth?
      && (if a.pc.read == ResolveName then move.Resolve? && !Resolvable(a.t, move.name)
          else move.Read? && (move.err || !Answers(s.c, a, a.pc.read)))
    case LedgerError => a.pc == Peeking && move == Peek(true)
    case AlreadyRecorded => a.pc == Peeking && move == Peek(false) && a.file in s.ledger
    case ClaimFailed => (a.pc == Creating && move == Create(true)) || (a.pc == Filling && move.Fill? && move.fill != Flushed)
    case ClaimedElsewhere => a.pc == Creating && move == Create(false) && a.file in s.ledger
    case WriteFailed => a.pc == Writing && move.Write? && !move.ok
    case IdentityChanged => a.pc == Rechecking && move.Recheck? && (move.err || !StandsAt(s.c, a.ref, a.podUid))
    case DeleteRefused =>
      && a.pc == Awaiting && move == Answer(false) && HasRequest(s.reqs, a)
      && s.reqs[a.req.value].status.Rejected? && s.reqs[a.req.value].status.why != ServerError
    case DeleteUnknown =>
      || (a.pc == Issuing && move.Issue? && (move.blocked || Blank(a.ref.ns) || Blank(a.ref.name) || a.podUid == NO_UID))
      || (a.pc == Awaiting && HasRequest(s.reqs, a) &&
            (move == Answer(true) || (move == Answer(false) && s.reqs[a.req.value].status == Rejected(ServerError))))
    case NotReplaced => a.pc == PollingUid && move.GiveUp?
    case ClaimGone => a.pc == ReadingClaim && move.ReadClaim? && (move.err || claim !in s.c.claims || s.c.claims[claim].uid == NO_UID)
    case ClaimReplaced =>
      && a.pc == ReadingClaim && move == ReadClaim(false) && claim in s.c.claims
      && s.c.claims[claim].uid != NO_UID && s.c.claims[claim].uid != a.stableUid
    case StableLost => a.pc == Checking && move == AfterCheck(false)
    case DataLost => a.pc == ReadingBack && move.ReadBack? && (move.err || !InData(s, a))
    case Passed => a.pc == ReadingBack && move == ReadBack(false) && InData(s, a)
    case LedgerNotClosed => false
  }

  predicate AnswerSays(status: RequestStatus, rec: Record) {
    match status
    case Rejected(Conflict) => rec.state == Refused && rec.outcome == DeleteConflict
    case Rejected(Forbidden) => rec.state == Refused && rec.outcome == DeleteForbidden
    case Rejected(NotFound) => rec.state == Refused && rec.outcome == DeleteNotFound
    case Rejected(ServerError) => rec.state == Unknown && rec.outcome == DeleteFail
    case _ => false
  }

  /** What the closed record says: the state, how it came about, and the new pod's uid as far
      as one was read. */
  ghost predicate Says(s: State, a: Attempt, move: Move, rec: Record) {
    var claim := Ref(a.t.ns, a.t.claimName);
    && rec.oldPodUid == a.podUid && rec.oldStableUid == a.stableUid && rec.token == a.token
    && match a.pc
       case Writing => rec.state == Unknown && rec.outcome == WriteFail && rec.newPodUid == NO_UID
       case Rechecking => rec.state == Refused && rec.outcome == IdentityChange && rec.newPodUid == NO_UID
       case Issuing => rec.state == Unknown && rec.outcome == DeleteFail && rec.newPodUid == NO_UID
       case Awaiting =>
         && rec.newPodUid == NO_UID && HasRequest(s.reqs, a)
         && if move == Answer(true) then rec.state == Unknown && rec.outcome == DeleteTimeout
            else AnswerSays(s.reqs[a.req.value].status, rec)
       case PollingUid =>
         && rec.state == Unknown
         && if move == GiveUp(true) then rec.outcome == Cancelled && rec.newPodUid == NO_UID
            else rec.outcome == NotReady && rec.newPodUid == a.lastUid
       case ReadingClaim =>
         && rec.newPodUid == a.newUid
         && if move == ReadClaim(false) && claim in s.c.claims && s.c.claims[claim].uid != NO_UID
            then rec.state == Done && rec.outcome == PvcReplaced else rec.state == Unknown && rec.outcome == PvcGone
       case Checking => rec.state == Done && rec.outcome == IdentityChange && rec.newPodUid == a.newUid
       case ReadingBack =>
         && rec.state == Done && rec.newPodUid == a.newUid
         && rec.outcome == if move == ReadBack(false) && InData(s, a) then PassOutcome else DataGone
       case _ => false
  }

  /** One move of an attempt without a verdict, in full. */
  ghost predicate Judged(s: State, a: Attempt, move: Move, b: Attempt) {
    && (forall why :: VerdictOf(b.pc) == Some(why) <==> Decides(s, a, move, why))
    && (b.pc.Closing? ==> Says(s, a, move, b.pc.rec))
    && (b.pc.Finished? ==> b.armed == a.armed && Early(a.pc))
  }

  /** Before the claim is made. */
  predicate Early(pc: PC) {
    pc.Auth? || pc.Peeking? || pc.Creating? || pc.Filling?
  }

  // ---- one move -----------------------------------------------------------------------------------

  lemma FailedReadJudged(s: State, a: Attempt)
    requires a.pc.Auth? && a.pc.read != ResolveName
    ensures Judged(s, a, Read(true), Refuse(a))
  {
    hide Says;
    hide Answers;
  }

  lemma PodReadJudged(s: State, a: Attempt)
    requires a.pc.Auth? && ReadsPod(a.pc.read)
    ensures Judged(s, a, Read(false), ReadPodFact(s.c, a, a.pc.read))
  {
    hide Blank;
    hide StandsAt;
    hide InData;
    hide Says;
  }

  lemma ObjectReadJudged(s: State, a: Attempt)
    requires a.pc.Auth? && !ReadsPod(a.pc.read) && a.pc.read != ResolveName
    ensures Judged(s, a, Read(false), ReadObject(s.c, a, a.pc.read))
  {
    hide Blank;
    hide StandsAt;
    hide InData;
    hide Says;
  }

  lemma AuthJudged(s: State, a: Attempt, move: Move)
    requires a.pc.Auth?
    ensures Judged(s, a, move, Authorise(s.c, a, a.pc.read, move))
  {
    hide Blank;
    hide StandsAt;
    hide InData;
    hide Says;
    if move.Read? && a.pc.read != ResolveName {
      hide Judged;
      FailedReadJudged(s, a);
      if ReadsPod(a.pc.read) { PodReadJudged(s, a); } else { ObjectReadJudged(s, a); }
    } else {
      hide ReadPodFact;
      hide ReadObject;
      hide Answers;
    }
  }

  lemma PeekJudged(s: State, a: Attempt, move: Move)
    requires a.pc == Peeking || a.pc == PollingReady
    ensures Judged(s, a, move, Local(s, a, move))
  {
    hide Blank;
    hide StandsAt;
    hide InData;
    hide Answers;
    hide Resolvable;
  }

  lemma RecheckJudged(s: State, a: Attempt, move: Move)
    requires a.pc == Rechecking
    ensures Judged(s, a, move, Local(s, a, move))
  {
    hide InData;
    hide Blank;
    hide Answers;
    hide Resolvable;
  }

  lemma CheckJudged(s: State, a: Attempt, move: Move)
    requires a.pc == Checking
    ensures Judged(s, a, move, Local(s, a, move))
  {
    hide Answers;
    hide Resolvable;
    hide InData;
    hide Blank;
    hide StandsAt;
  }

  lemma AnswerJudged(s: State, a: Attempt, lost: bool)
    requires a.pc == Awaiting && HasRequest(s.reqs, a)
    ensures Judged(s, a, Answer(lost), AfterAnswer(a, s.reqs[a.req.value].status, lost))
  {
    hide Answers;
    hide Resolvable;
    hide InData;
    hide Blank;
    hide StandsAt;
  }

  lemma AwaitJudged(s: State, a: Attempt, move: Move)
    requires a.pc == Awaiting && HasRequest(s.reqs, a)
    ensures Judged(s, a, move, Local(s, a, move))
  {
    hide Answers;
    hide Resolvable;
    hide AfterAnswer;
    if move.Answer? {
      AnswerJudged(s, a, move.lost);
      hide Judged;
    }
  }

  lemma PollJudged(s: State, a: Attempt, move: Move)
    requires a.pc == PollingUid
    ensures Judged(s, a, move, Local(s, a, move))
  {
    hide Blank;
    hide StandsAt;
    hide InData;
    hide Answers;
    hide Resolvable;
  }

  lemma ClaimJudged(s: State, a: Attempt, move: Move)
    requires a.pc == ReadingClaim
    ensures Judged(s, a, move, Local(s, a, move))
  {
    hide Blank;
    hide StandsAt;
    hide InData;
    hide Answers;
    hide Resolvable;
  }

  lemma BackJudged(s: State, a: Attempt, move: Move)
    requires a.pc == ReadingBack
    ensures Judged(s, a, move, Local(s, a, move))
  {
    hide Blank;
    hide StandsAt;
    hide Answers;
    hide Resolvable;
    hide LedgerKey;
  }

  lemma CreateJudged(s: State, id: nat, a: Attempt, err: bool)
    requires a.pc == Creating
    ensures Judged(s, a, Create(err), CreateFile(s, id, a, err).attempts[id])
  {
    hide Blank;
    hide StandsAt;
    hide InData;
    hide Answers;
    hide Resolvable;
  }

  lemma FillJudged(s: State, id: nat, a: Attempt, fill: FillOutcome)
    requires a.pc == Filling
    ensures Judged(s, a, Fill(fill), FillLedger(s, id, a, fill).attempts[id])
  {
    hide Answers;
    hide Resolvable;
    hide Intent;
  }

  lemma WriteJudged(s: State, id: nat, a: Attempt, ok: bool, landed: bool)
    requires a.pc == Writing
    ensures Judged(s, a, Write(ok, landed), WriteToken(s, id, a, ok, landed).attempts[id])
  {
    hide Blank;
    hide StandsAt;
    hide InData;
    hide Answers;
    hide Resolvable;
    hide LedgerKey;
  }

  lemma IssueJudged(s: State, id: nat, a: Attempt, blocked: bool)
    requires a.pc == Issuing
    ensures Judged(s, a, Issue(blocked), IssueDelete(s, id, a, blocked).attempts[id])
  {
    hide Blank;
    hide Answers;
    hide Resolvable;
    if blocked || Unnamed(a) { NotSentJudged(s, a, blocked); } else { SentJudged(s, a); }
    hide Judged;
    hide Terminal;
    hide Unnamed;
  }

  lemma NotSentJudged(s: State, a: Attempt, blocked: bool)
    requires a.pc == Issuing && (blocked || Unnamed(a))
    ensures Judged(s, a, Issue(blocked), ToClose(a, Unknown, DeleteFail, NO_UID, DeleteUnknown))
  {
    hide Blank;
    hide Answers;
    hide Resolvable;
    hide InData;
  }

  lemma SentJudged(s: State, a: Attempt)
    requires a.pc == Issuing && !Unnamed(a)
    ensures Judged(s, a, Issue(false), a.(pc := Awaiting, req := Some(|s.reqs|)))
  {
    hide Says;
    hide Blank;
    hide Answers;
    hide Resolvable;
    hide InData;
  }

  lemma OutOfPlaceJudged(s: State, a: Attempt, move: Move)
    requires !LocalPC(a) && !a.pc.Closing?
    ensures !Taken(a, move) ==> Judged(s, a, move, a)
  {
    hide Says;
    hide Blank;
    hide InData;
    hide Answers;
    hide Resolvable;
  }

  lemma CrashJudged(s: State, a: Attempt)
    requires !LocalPC(a) && !a.pc.Closing?
    ensures Judged(s, a, Crash, a.(pc := Crashed))
  {
    hide Says;
    hide Blank;
    hide InData;
    hide Answers;
    hide Resolvable;
  }

  lemma LocalJudged(s: State, a: Attempt, move: Move)
    requires LocalPC(a) && Live(a) && (a.pc.Awaiting? ==> HasRequest(s.reqs, a))
    ensures Judged(s, a, move, Local(s, a, move))
  {
    hide Judged;
    hide Local;
    match a.pc
    case Auth(read) =>
      LocalIsAuthorise(s, a, move);
      AuthJudged(s, a, move);
    case Peeking => PeekJudged(s, a, move);
    case PollingReady => PeekJudged(s, a, move);
    case Rechecking => RecheckJudged(s, a, move);
    case Checking => CheckJudged(s, a, move);
    case Awaiting => AwaitJudged(s, a, move);
    case PollingUid => PollJudged(s, a, move);
    case ReadingClaim => ClaimJudged(s, a, move);
    case ReadingBack => BackJudged(s, a, move);
  }

  lemma FileJudged(s: State, id: nat, move: Move)
    requires id in s.attempts && !LocalPC(s.attempts[id]) && !s.attempts[id].pc.Closing?
    ensures var s' := Advance(s, id, s.attempts[id], move); id in s'.attempts && Judged(s, s.attempts[id], move, s'.attempts[id])
  {
    hide Judged;
    hide Advance;
    hide CreateFile;
    hide FillLedger;
    hide WriteToken;
    hide IssueDelete;
    var a := s.attempts[id];
    FileMoveIs(s, id, move);
    AdvanceIs(s, id, a, move);
    OutOfPlaceJudged(s, a, move);
    CrashJudged(s, a);
    if Taken(a, move) {
      match move
      case Create(err) => CreateJudged(s, id, a, err);
      case Fill(fill) => FillJudged(s, id, a, fill);
      case Write(ok, landed) => WriteJudged(s, id, a, ok, landed);
      case Issue(blocked) => IssueJudged(s, id, a, blocked);
      case _ =>
    }
  }

  /** A move of an attempt without a verdict leads to one exactly as the table says. */
  lemma MoveJudged(s: State, id: nat, move: Move)
    requires Inv(s) && id in s.attempts && Live(s.attempts[id]) && !s.attempts[id].pc.Closing?
    ensures var s' := Advance(s, id, s.attempts[id], move); id in s'.attempts && Judged(s, s.attempts[id], move, s'.attempts[id])
  {
    hide Judged;
    hide Advance;
    hide Local;
    var a := s.attempts[id];
    assert AttemptOk(s, a);
    hide Inv;
    if LocalPC(a) {
      AdvanceIs(s, id, a, move);
      LocalJudged(s, a, move);
    } else {
      FileJudged(s, id, move);
    }
  }

  lemma CloseKeepsVerdict(s: State, id: nat, move: Move)
    requires id in s.attempts && s.attempts[id].pc.Closing? && Sensible(s.attempts[id].pc)
    ensures var s' := Advance(s, id, s.attempts[id], move);
      id in s'.attempts && (s'.attempts[id].pc == Crashed || VerdictOf(s'.attempts[id].pc) == VerdictOf(s.attempts[id].pc))
  {
    hide Advance;
    AdvanceIs(s, id, s.attempts[id], move);
  }

  lemma UnclaimedIsUnarmed(s: State, id: nat)
    requires Inv(s) && id in s.attempts
    ensures Early(s.attempts[id].pc) ==> !s.attempts[id].armed
  {
    assert AttemptOk(s, s.attempts[id]);
  }

  // ---- whole runs --------------------------------------------------------------------------------

  /** A verdict is final, unless a crash cuts off its recording. */
  lemma VerdictStep(s: State, act: Action, id: nat, why: Reason)
    requires id in s.attempts && Sensible(s.attempts[id].pc)
    requires s.attempts[id].pc == Crashed || VerdictOf(s.attempts[id].pc) == Some(why)
    ensures id in Step(s, act).attempts
    ensures var pc := Step(s, act).attempts[id].pc; pc == Crashed || VerdictOf(pc) == Some(why)
  {
    hide Advance;
    if Own(act, id, s) {
      CloseKeepsVerdict(s, id, act.move);
    } else {
      OthersLeaveItAlone(s, act, id);
    }
  }

  /** Only a deciding call leads to a verdict. */
  lemma JudgedStep(s: State, act: Action, id: nat, why: Reason)
    requires Inv(s) && id in Step(s, act).attempts && VerdictOf(Step(s, act).attempts[id].pc) == Some(why)
    requires id in s.attempts ==> Sensible(s.attempts[id].pc) && VerdictOf(s.attempts[id].pc) != Some(why)
    ensures id in s.attempts && act.Do? && act.id == id && Decides(s, s.attempts[id], act.move, why)
    ensures var b := Step(s, act).attempts[id]; b.pc.Closing? ==> Says(s, s.attempts[id], act.move, b.pc.rec)
    ensures Step(s, act).attempts[id].pc.Finished? ==> !Step(s, act).attempts[id].armed && Early(s.attempts[id].pc)
  {
    hide Advance;
    hide Decides;
    hide Says;
    if id !in s.attempts {
      StartedFresh(s, act, id);
    } else if Own(act, id, s) {
      if s.attempts[id].pc.Closing? {
        CloseKeepsVerdict(s, id, act.move);
      } else {
        MoveJudged(s, id, act.move);
        UnclaimedIsUnarmed(s, id);
      }
    } else {
      OthersLeaveItAlone(s, act, id);
    }
  }

  /** Action `k` is the call of attempt `id` that decided for `why`. */
  ghost predicate DecidedAt(s0: State, acts: seq<Action>, id: nat, k: nat, why: Reason) {
    && k < |acts| && acts[k].Do? && acts[k].id == id && id in Moment(s0, acts, k).attempts
    && Decides(Moment(s0, acts, k), Moment(s0, acts, k).attempts[id], acts[k].move, why)
  }

  ghost function VerdictMark(why: Reason): Attempt -> bool {
    (a: Attempt) => VerdictOf(a.pc) == Some(why)
  }

  /** Behind every verdict there is the call that decided for it. */
  lemma FindDecision(s0: State, acts: seq<Action>, id: nat, why: Reason) returns (k: nat)
    requires Init(s0) && id in Exec(s0, acts).attempts && VerdictOf(Exec(s0, acts).attempts[id].pc) == Some(why)
    ensures DecidedAt(s0, acts, id, k, why)
    ensures id in Moment(s0, acts, k + 1).attempts && VerdictOf(Moment(s0, acts, k + 1).attempts[id].pc) == Some(why)
    ensures var a, b := Moment(s0, acts, k).attempts[id], Moment(s0, acts, k + 1).attempts[id];
      (b.pc.Closing? ==> Says(Moment(s0, acts, k), a, acts[k].move, b.pc.rec)) && (b.pc.Finished? ==> !b.armed && Early(a.pc))
  {
    hide Step;
    hide Decides;
    hide Says;
    MomentLast(s0, acts);
    k := LastRise(s0, acts, id, VerdictMark(why), |acts|);
    MomentNext(s0, acts, k);
    assert Marked(s0, acts, k + 1, id, VerdictMark(why));
    RunSensible(s0, acts[..k], id);
    Reachable(s0, acts[..k]);
    JudgedStep(Moment(s0, acts, k), acts[k], id, why);
  }

  lemma {:induction false} VerdictStays(s0: State, acts: seq<Action>, id: nat, k: nat, m: nat, why: Reason)
    requires Init(s0) && k <= m <= |acts| && id in Moment(s0, acts, k).attempts
    requires var pc := Moment(s0, acts, k).attempts[id].pc; pc == Crashed || VerdictOf(pc) == Some(why)
    ensures id in Moment(s0, acts, m).attempts
    ensures var pc := Moment(s0, acts, m).attempts[id].pc; pc == Crashed || VerdictOf(pc) == Some(why)
    decreases m - k
  {
    hide Step;
    if k < m {
      MomentNext(s0, acts, k);
      RunSensible(s0, acts[..k], id);
      VerdictStep(Moment(s0, acts, k), acts[k], id, why);
      VerdictStays(s0, acts, id, k + 1, m, why);
    }
  }

  lemma DecisionTakesEffect(s0: State, acts: seq<Action>, id: nat, k: nat, why: Reason)
    requires Init(s0) && DecidedAt(s0, acts, id, k, why)
    ensures id in Moment(s0, acts, k + 1).attempts && VerdictOf(Moment(s0, acts, k + 1).attempts[id].pc) == Some(why)
  {
    var s := Moment(s0, acts, k);
    DecidingIsLive(s, s.attempts[id], acts[k].move, why);
    hide Advance;
    hide Decides;
    hide Says;
    MomentNext(s0, acts, k);
    Reachable(s0, acts[..k]);
    MoveJudged(s, id, acts[k].move);
  }

  lemma DecidingIsLive(s: State, a: Attempt, move: Move, why: Reason)
    requires Decides(s, a, move, why)
    ensures Live(a) && !a.pc.Closing?
  {
    hide Answers;
    hide Blank;
  }

  /** The verdict table, over every run: an attempt that ended did so for `why` exactly when one
      of its calls decided for it. So a failed check never passes, a refusal is never reported
      as unknown, and nothing else than the listed cause leads to any verdict. */
  lemma EndedBecauseIff(s0: State, acts: seq<Action>, id: nat, why: Reason)
    requires Init(s0) && id in Exec(s0, acts).attempts && Exec(s0, acts).attempts[id].pc.Finished?
    ensures VerdictOf(Exec(s0, acts).attempts[id].pc) == Some(why) <==> exists k :: DecidedAt(s0, acts, id, k, why)
  {
    hide Step;
    hide DecidedAt;
    MomentLast(s0, acts);
    if VerdictOf(Exec(s0, acts).attempts[id].pc) == Some(why) {
      var k := FindDecision(s0, acts, id, why);
    }
    forall k: nat | DecidedAt(s0, acts, id, k, why)
      ensures VerdictOf(Exec(s0, acts).attempts[id].pc) == Some(why)
    {
      DecidedIsInRun(s0, acts, id, k, why);
      DecisionTakesEffect(s0, acts, id, k, why);
      VerdictStays(s0, acts, id, k + 1, |acts|, why);
    }
  }

  lemma DecidedIsInRun(s0: State, acts: seq<Action>, id: nat, k: nat, why: Reason)
    requires DecidedAt(s0, acts, id, k, why)
    ensures k < |acts|
  {
  }

  /** In particular a failed check of the target after its recreation: the attempt never passes,
      whatever the data say. */
  lemma FailedCheckNeverPasses(s0: State, acts: seq<Action>, id: nat, k: nat)
    requires Init(s0) && k < |acts| && acts[k] == Do(id, AfterCheck(false)) && id in Moment(s0, acts, k).attempts
    requires Moment(s0, acts, k).attempts[id].pc == Checking
    ensures id in Exec(s0, acts).attempts
    ensures var pc := Exec(s0, acts).attempts[id].pc; pc == Crashed || VerdictOf(pc) == Some(StableLost)
  {
    assert DecidedAt(s0, acts, id, k, StableLost);
    hide Step;
    hide DecidedAt;
    DecisionTakesEffect(s0, acts, id, k, StableLost);
    VerdictStays(s0, acts, id, k + 1, |acts|, StableLost);
    MomentLast(s0, acts);
  }

  // ---- what the ledger says ------------------------------------------------------------------------

  /** The file still holds the open intent, or the record `rec`. */
  ghost predicate OpenOr(f: File, rec: Record) {
    f.Written? && (f.rec.state == Attempted || f.rec == rec)
  }

  /** Attempt `id` is closing with `rec`, or over, and its file says nothing else. */
  ghost predicate ClosesWith(s: State, id: nat, rec: Record) {
    && id in s.attempts
    && var a := s.attempts[id];
       && a.armed && (if a.pc.Closing? then a.pc.rec == rec else !Live(a))
       && a.file in s.ledger && OpenOr(s.ledger[a.file], rec) && a.file in s.disk && OpenOr(s.disk[a.file], rec)
  }

  /** Nobody else's move touches the file of an armed attempt. */
  lemma OtherLeavesFile(s: State, i: nat, move: Move, id: nat)
    requires Inv(s) && i in s.attempts && id in s.attempts && i != id && s.attempts[id].armed
    ensures var f, s' := s.attempts[id].file, Advance(s, i, s.attempts[i], move);
      && f in s.ledger && f in s'.ledger && s'.ledger[f] == s.ledger[f]
      && f in s.disk && f in s'.disk && s'.disk[f] == s.disk[f]
  {
    hide Advance;
    assert AttemptOk(s, s.attempts[id]);
    if s.attempts[i].file != s.attempts[id].file {
      hide Inv;
      AdvanceWithin(s, i, s.attempts[i], move);
    } else {
      SharerLeavesFiles(s, i, move, id);
    }
  }

  lemma SharerLeavesFiles(s: State, i: nat, move: Move, id: nat)
    requires Inv(s) && i in s.attempts && id in s.attempts && i != id && s.attempts[id].armed
    requires s.attempts[i].file == s.attempts[id].file && s.attempts[id].file in s.ledger
    ensures var s' := Advance(s, i, s.attempts[i], move); s'.ledger == s.ledger && s'.disk == s.disk
  {
    hide Advance;
    hide Local;
    hide Unnamed;
    hide LedgerKey;
    hide Terminal;
    var a := s.attempts[i];
    assert AttemptOk(s, a);
    assert !Holds(a);
    hide Inv;
    hide LedgerOk;
    AdvanceIs(s, i, a, move);
  }

  lemma OwnCloseKeeps(s: State, id: nat, move: Move, rec: Record)
    requires ClosesWith(s, id, rec) && Live(s.attempts[id])
    ensures ClosesWith(Advance(s, id, s.attempts[id], move), id, rec)
  {
    hide Advance;
    hide Local;
    hide Unnamed;
    hide LedgerKey;
    AdvanceIs(s, id, s.attempts[id], move);
  }

  lemma ClosesWithStep(s: State, act: Action, id: nat, rec: Record)
    requires Inv(s) && ClosesWith(s, id, rec)
    ensures ClosesWith(Step(s, act), id, rec)
  {
    hide Advance;
    hide Inv;
    hide OpenOr;
    if Own(act, id, s) {
      OwnCloseKeeps(s, id, act.move, rec);
    } else {
      OthersLeaveItAlone(s, act, id);
      if act.Do? && act.id in s.attempts && act.id != id { OtherLeavesFile(s, act.id, act.move, id); }
    }
  }

  lemma {:induction false} ClosesWithStays(s0: State, acts: seq<Action>, id: nat, k: nat, m: nat, rec: Record)
    requires Init(s0) && k <= m <= |acts| && ClosesWith(Moment(s0, acts, k), id, rec)
    ensures ClosesWith(Moment(s0, acts, m), id, rec)
    decreases m - k
  {
    hide Step;
    hide ClosesWith;
    if k < m {
      MomentNext(s0, acts, k);
      Reachable(s0, acts[..k]);
      ClosesWithStep(Moment(s0, acts, k), acts[k], id, rec);
      ClosesWithStays(s0, acts, id, k + 1, m, rec);
    }
  }

  lemma ClosingIsOpen(s: State, id: nat)
    requires Inv(s) && id in s.attempts && s.attempts[id].pc.Closing?
    ensures ClosesWith(s, id, s.attempts[id].pc.rec)
  {
    assert AttemptOk(s, s.attempts[id]);
  }

  /** What the ledger says of an attempt that ended: the open intent, if closing failed, or what
      the call that decided for its verdict calls for; whatever happens later. */
  lemma RecordSays(s0: State, acts: seq<Action>, id: nat) returns (k: nat)
    requires Init(s0) && id in Exec(s0, acts).attempts && Exec(s0, acts).attempts[id].armed && Exec(s0, acts).attempts[id].pc.Finished?
    ensures DecidedAt(s0, acts, id, k, VerdictOf(Exec(s0, acts).attempts[id].pc).value) && !Early(Moment(s0, acts, k).attempts[id].pc)
    ensures var s, f := Exec(s0, acts), Exec(s0, acts).attempts[id].file; var was := Moment(s0, acts, k);
      && f in s.ledger && s.ledger[f].Written? && f in s.disk && s.disk[f].Written?
      && (s.ledger[f].rec.state == Attempted || Says(was, was.attempts[id], acts[k].move, s.ledger[f].rec))
      && (s.disk[f].rec.state == Attempted || Says(was, was.attempts[id], acts[k].move, s.disk[f].rec))
  {
    hide Step;
    hide Decides;
    hide Says;
    var why := VerdictOf(Exec(s0, acts).attempts[id].pc).value;
    MomentLast(s0, acts);
    k := FindDecision(s0, acts, id, why);
    var s := Moment(s0, acts, k + 1);
    if !s.attempts[id].pc.Closing? {
      ExecSplits(s0, acts, k + 1);
      RunExtends(s, acts[k + 1..]);
      assert false;
    } else {
      Reachable(s0, acts[..k + 1]);
      ClosingIsOpen(s, id);
      ClosesWithStays(s0, acts, id, k + 1, |acts|, s.attempts[id].pc.rec);
      SaysIsLate(Moment(s0, acts, k), Moment(s0, acts, k).attempts[id], acts[k].move, s.attempts[id].pc.rec);
    }
  }

  lemma SaysIsLate(s: State, a: Attempt, move: Move, rec: Record)
    requires Says(s, a, move, rec)
    ensures !Early(a.pc)
  {
  }

  /** An attempt that never claimed its file ended on the way there. */
  lemma UnclaimedEndedEarly(s0: State, acts: seq<Action>, id: nat) returns (k: nat)
    requires Init(s0) && id in Exec(s0, acts).attempts && !Exec(s0, acts).attempts[id].armed && Exec(s0, acts).attempts[id].pc.Finished?
    ensures DecidedAt(s0, acts, id, k, VerdictOf(Exec(s0, acts).attempts[id].pc).value) && Early(Moment(s0, acts, k).attempts[id].pc)
  {
    hide Step;
    hide Decides;
    hide Says;
    MomentLast(s0, acts);
    k := FindDecision(s0, acts, id, VerdictOf(Exec(s0, acts).attempts[id].pc).value);
    var s := Moment(s0, acts, k + 1);
    if s.attempts[id].pc.Closing? {
      Reachable(s0, acts[..k + 1]);
      ClosingIsOpen(s, id);
      ClosesWithStays(s0, acts, id, k + 1, |acts|, s.attempts[id].pc.rec);
      assert false;
    }
  }
}
