/** Every step of the protocol keeps the invariant. */
module Preservation {
  import opened Wrappers
  import opened Cluster
  import opened Protocol
  import opened Invariant

  // ---- moves that change only the attempt's own locals ------------------------

  /** What a local move never touches. */
  ghost predicate SameCore(a: Attempt, b: Attempt) {
    && b.t == a.t && b.file == a.file && b.token == a.token
    && b.armed == a.armed && b.wrote == a.wrote && b.req == a.req
    && (a.armed ==> b.ref == a.ref && b.podUid == a.podUid && b.stableUid == a.stableUid)
    && (b.pc.Filling? ==> a.pc.Filling?)
  }

  /** What the authorisation and the ledger record were made from. */
  ghost predicate SameAuth(a: Attempt, b: Attempt) {
    && b.t == a.t && b.ref == a.ref && b.podUid == a.podUid
    && b.controllerUid == a.controllerUid && b.stableUid == a.stableUid && b.volume == a.volume
    && b.file == a.file && b.token == a.token && b.armed == a.armed && b.wrote == a.wrote && b.req == a.req
  }

  /** A live armed attempt that moved on needs only its progress re-established: the
      files it owns still say nothing more than that it began. */
  lemma MovedOn(s: State, a: Attempt, b: Attempt)
    requires AttemptOk(s, a) && Live(a) && a.armed && SameAuth(a, b)
    requires !b.pc.Auth? && !b.pc.Filling? && !b.pc.Finished?
    requires (b.lastUid != NO_UID ==> b.lastUid in s.c.used) && PolledOk(s.c, b) && ProgressOk(s, b)
    ensures SameCore(a, b) && AttemptOk(s, b)
  {
  }

  lemma CrashKeeps(s: State, a: Attempt)
    requires AttemptOk(s, a)
    ensures AttemptOk(s, a.(pc := Crashed))
  {
    var b := a.(pc := Crashed);
    if a.armed {
      assert FileTrue(s.reqs, b, s.ledger[b.file]);
      assert FileTrue(s.reqs, b, s.disk[b.file]);
    }
  }

  // ---- authorisation ---------------------------------------------------------

  /** During authorisation nothing is claimed or sent yet. */
  ghost predicate Fresh(a: Attempt) {
    !a.armed && !a.wrote && a.req.None? && a.token == 0
  }

  /** What the reads of an authorisation may set. */
  ghost predicate OnlyReads(a: Attempt, b: Attempt) {
    b == a.(ref := b.ref, pc := b.pc, podUid := b.podUid, controllerUid := b.controllerUid,
            stableUid := b.stableUid, volume := b.volume)
  }

  lemma AuthMoved(s: State, a: Attempt, b: Attempt)
    requires AttemptOk(s, a) && a.pc.Auth?
    requires OnlyReads(a, b)
    requires b.pc.Auth? || b.pc.Peeking? || b.pc == Finished(Unauthorised)
    requires AuthOk(s.c, b)
    ensures SameCore(a, b) && AttemptOk(s, b)
  {
    assert Fresh(b);
  }

  /** A read leaves the uid alone or sets it to one that stands; a read that is let through
      leads on along the target's own path. */
  lemma PodReadKeeps(c: Cluster, a: Attempt, read: AuthRead)
    requires ClusterOk(c) && AuthOk(c, a) && !a.armed && a.pc == Auth(read) && ReadsPod(read)
    ensures AuthOk(c, ReadPodFact(c, a, read))
  {
  }

  lemma ObjectReadKeeps(c: Cluster, a: Attempt, read: AuthRead)
    requires AuthOk(c, a) && !a.armed && a.pc == Auth(read) && !ReadsPod(read) && read != ResolveName
    ensures AuthOk(c, ReadObject(c, a, read))
  {
  }

  lemma AuthReadKeeps(c: Cluster, a: Attempt, read: AuthRead, move: Move)
    requires ClusterOk(c) && AuthOk(c, a) && !a.armed && a.pc == Auth(read)
    ensures AuthOk(c, Authorise(c, a, read, move))
  {
    hide ReadPodFact;
    hide ReadObject;
    if move.Read? && !move.err && read != ResolveName {
      if ReadsPod(read) { PodReadKeeps(c, a, read); } else { ObjectReadKeeps(c, a, read); }
    }
  }

  lemma AuthoriseShape(c: Cluster, a: Attempt, read: AuthRead, move: Move)
    requires a.pc == Auth(read)
    ensures var b := Authorise(c, a, read, move);
      && OnlyReads(a, b)
      && (b.pc.Auth? || b.pc.Peeking? || b.pc == Finished(Unauthorised))
  {
    ObjectReadShape(c, a, read);
    hide ReadObject;
  }

  lemma ObjectReadShape(c: Cluster, a: Attempt, read: AuthRead)
    requires a.pc == Auth(read)
    ensures var b := ReadObject(c, a, read);
      && OnlyReads(a, b)
      && (b.pc.Auth? || b.pc.Peeking? || b.pc == Finished(Unauthorised))
  {
  }

  lemma AuthoriseKeeps(s: State, a: Attempt, read: AuthRead, move: Move)
    requires ClusterOk(s.c) && AttemptOk(s, a) && a.pc == Auth(read)
    ensures SameCore(a, Authorise(s.c, a, read, move)) && AttemptOk(s, Authorise(s.c, a, read, move))
  {
    var b := Authorise(s.c, a, read, move);
    AuthReadKeeps(s.c, a, read, move);
    AuthoriseShape(s.c, a, read, move);
    AuthMoved(s, a, b);
  }

  // ---- after the claim -------------------------------------------------------

  /** A record that claims neither a refusal nor a completed change needs no evidence. */
  lemma CloseUnknownKeeps(s: State, a: Attempt, outcome: Outcome, newUid: Uid, why: Reason)
    requires AttemptOk(s, a) && a.armed && Live(a) && why != Passed
    ensures SameCore(a, ToClose(a, Unknown, outcome, newUid, why)) && AttemptOk(s, ToClose(a, Unknown, outcome, newUid, why))
  {
    MovedOn(s, a, ToClose(a, Unknown, outcome, newUid, why));
  }

  lemma CloseRefusedKeeps(s: State, a: Attempt, outcome: Outcome, why: Reason)
    requires AttemptOk(s, a) && a.armed && Live(a) && why != Passed && Harmless(s.reqs, a)
    ensures SameCore(a, ToClose(a, Refused, outcome, NO_UID, why)) && AttemptOk(s, ToClose(a, Refused, outcome, NO_UID, why))
  {
    MovedOn(s, a, ToClose(a, Refused, outcome, NO_UID, why));
  }

  lemma CloseDoneKeeps(s: State, a: Attempt, outcome: Outcome, why: Reason)
    requires AttemptOk(s, a) && a.armed && Live(a) && Replaced(s.reqs, a)
    requires why == Passed ==> outcome == PassOutcome && (a.t.claimName != "" ==> a.claimAfter == a.stableUid)
    ensures SameCore(a, ToClose(a, Done, outcome, a.newUid, why)) && AttemptOk(s, ToClose(a, Done, outcome, a.newUid, why))
  {
    MovedOn(s, a, ToClose(a, Done, outcome, a.newUid, why));
  }

  lemma RefusedAnswerKeeps(s: State, a: Attempt, why: RejectReason)
    requires AttemptOk(s, a) && a.pc.Awaiting? && s.reqs[a.req.value].status == Rejected(why) && why != ServerError
    ensures SameCore(a, AfterAnswer(a, Rejected(why), false)) && AttemptOk(s, AfterAnswer(a, Rejected(why), false))
  {
    var outcome := if why == Conflict then DeleteConflict else if why == NotFound then DeleteNotFound else DeleteForbidden;
    CloseRefusedKeeps(s, a, outcome, DeleteRefused);
  }

  lemma AnswerKeeps(s: State, a: Attempt, status: RequestStatus, lost: bool)
    requires AttemptOk(s, a) && a.pc.Awaiting? && status == s.reqs[a.req.value].status
    ensures SameCore(a, AfterAnswer(a, status, lost)) && AttemptOk(s, AfterAnswer(a, status, lost))
  {
    if lost {
      CloseUnknownKeeps(s, a, DeleteTimeout, NO_UID, DeleteUnknown);
    } else if status.Accepted? {
      MovedOn(s, a, a.(pc := PollingUid));
    } else if status == Rejected(ServerError) {
      CloseUnknownKeeps(s, a, DeleteFail, NO_UID, DeleteUnknown);
    } else if status.Rejected? {
      RefusedAnswerKeeps(s, a, status.why);
    }
  }

  lemma PollUidKeeps(s: State, a: Attempt, err: bool)
    requires ClusterOk(s.c) && AttemptOk(s, a) && a.pc.PollingUid?
    ensures SameCore(a, AfterPollUid(s.c, a, err)) && AttemptOk(s, AfterPollUid(s.c, a, err))
  {
    MovedOn(s, a, AfterPollUid(s.c, a, err));
  }

  /** The Ready status was read after the old pod had left the name, so it cannot be
      the old pod's, although uid and status are two separate reads. */
  lemma PollReadyKeeps(s: State, a: Attempt, err: bool)
    requires ClusterOk(s.c) && AttemptOk(s, a) && a.pc.PollingReady?
    ensures SameCore(a, AfterPollReady(s.c, a, err)) && AttemptOk(s, AfterPollReady(s.c, a, err))
  {
    MovedOn(s, a, AfterPollReady(s.c, a, err));
  }

  lemma ReadClaimKeeps(s: State, a: Attempt, err: bool)
    requires AttemptOk(s, a) && a.pc.ReadingClaim?
    ensures SameCore(a, AfterReadClaim(s.c, a, err)) && AttemptOk(s, AfterReadClaim(s.c, a, err))
  {
    var b := AfterReadClaim(s.c, a, err);
    if b.pc.Checking? {
      MovedOn(s, a, b);
    } else if b.pc.rec.state == Unknown {
      CloseUnknownKeeps(s, a, PvcGone, a.newUid, ClaimGone);
    } else {
      CloseDoneKeeps(s, a, PvcReplaced, ClaimReplaced);
    }
  }

  lemma CheckKeeps(s: State, a: Attempt, ok: bool)
    requires AttemptOk(s, a) && a.pc.Checking?
    ensures SameCore(a, Local(s, a, AfterCheck(ok))) && AttemptOk(s, Local(s, a, AfterCheck(ok)))
  {
    if ok {
      MovedOn(s, a, a.(pc := ReadingBack));
    } else {
      CloseDoneKeeps(s, a, IdentityChange, StableLost);
    }
  }

  lemma ReadBackKeeps(s: State, a: Attempt, err: bool)
    requires AttemptOk(s, a) && a.pc.ReadingBack?
    ensures SameCore(a, AfterReadBack(s.c, a, err)) && AttemptOk(s, AfterReadBack(s.c, a, err))
  {
    var b := AfterReadBack(s.c, a, err);
    CloseDoneKeeps(s, a, b.pc.rec.outcome, b.pc.why);
  }

  lemma RecheckKeeps(s: State, a: Attempt, err: bool)
    requires AttemptOk(s, a) && a.pc.Rechecking?
    ensures SameCore(a, Local(s, a, Recheck(err))) && AttemptOk(s, Local(s, a, Recheck(err)))
  {
    CloseRefusedKeeps(s, a, IdentityChange, IdentityChanged);
    MovedOn(s, a, a.(pc := Issuing));
  }

  lemma GiveUpKeeps(s: State, a: Attempt, cancelled: bool)
    requires AttemptOk(s, a) && a.pc.PollingUid?
    ensures SameCore(a, Local(s, a, GiveUp(cancelled))) && AttemptOk(s, Local(s, a, GiveUp(cancelled)))
  {
    CloseUnknownKeeps(s, a, Cancelled, NO_UID, NotReplaced);
    CloseUnknownKeeps(s, a, NotReady, a.lastUid, NotReplaced);
  }

  lemma PeekKeeps(s: State, a: Attempt, err: bool)
    requires AttemptOk(s, a) && a.pc.Peeking?
    ensures SameCore(a, Local(s, a, Peek(err))) && AttemptOk(s, Local(s, a, Peek(err)))
  {
  }

  predicate LocalPC(a: Attempt) {
    !a.pc.Creating? && !a.pc.Filling? && !a.pc.Writing? && !a.pc.Issuing? && !a.pc.Closing?
  }

  lemma PollKeeps(s: State, a: Attempt, move: Move)
    requires ClusterOk(s.c) && AttemptOk(s, a) && (a.pc.PollingUid? || a.pc.PollingReady?)
    ensures SameCore(a, Local(s, a, move)) && AttemptOk(s, Local(s, a, move))
  {
    hide AttemptOk;
    hide AfterPollUid;
    hide AfterPollReady;
    if move.Crash? {
      CrashKeeps(s, a);
    } else if a.pc.PollingReady? && move.PollReady? {
      PollReadyKeeps(s, a, move.err);
    } else if a.pc.PollingUid? && move.PollUid? {
      PollUidKeeps(s, a, move.err);
    } else if a.pc.PollingUid? && move.GiveUp? {
      GiveUpKeeps(s, a, move.cancelled);
    } else {
      assert Local(s, a, move) == a;
    }
  }

  lemma AwaitKeeps(s: State, a: Attempt, move: Move)
    requires AttemptOk(s, a) && a.pc.Awaiting?
    ensures SameCore(a, Local(s, a, move)) && AttemptOk(s, Local(s, a, move))
  {
    if move.Crash? {
      CrashKeeps(s, a);
    } else if move.Answer? {
      AnswerKeeps(s, a, s.reqs[a.req.value].status, move.lost);
    } else {
      assert Local(s, a, move) == a;
    }
  }

  lemma LateKeeps(s: State, a: Attempt, move: Move)
    requires AttemptOk(s, a) && (a.pc.ReadingClaim? || a.pc.Checking? || a.pc.ReadingBack?)
    ensures SameCore(a, Local(s, a, move)) && AttemptOk(s, Local(s, a, move))
  {
    hide AttemptOk;
    hide AfterReadClaim;
    hide AfterReadBack;
    if move.Crash? {
      CrashKeeps(s, a);
    } else if a.pc.ReadingClaim? && move.ReadClaim? {
      ReadClaimKeeps(s, a, move.err);
    } else if a.pc.Checking? && move.AfterCheck? {
      CheckKeeps(s, a, move.ok);
    } else if a.pc.ReadingBack? && move.ReadBack? {
      ReadBackKeeps(s, a, move.err);
    } else {
      assert Local(s, a, move) == a;
    }
  }

  lemma LocalKeeps(s: State, a: Attempt, move: Move)
    requires ClusterOk(s.c) && AttemptOk(s, a) && LocalPC(a)
    ensures SameCore(a, Local(s, a, move)) && AttemptOk(s, Local(s, a, move))
  {
    hide AttemptOk;
    hide Authorise;
    if a.pc.Auth? {
      AuthoriseKeeps(s, a, a.pc.read, move);
    } else if a.pc.Awaiting? {
      AwaitKeeps(s, a, move);
    } else if a.pc.PollingUid? || a.pc.PollingReady? {
      PollKeeps(s, a, move);
    } else if a.pc.ReadingClaim? || a.pc.Checking? || a.pc.ReadingBack? {
      LateKeeps(s, a, move);
    } else if a.pc.Rechecking? && move.Recheck? {
      RecheckKeeps(s, a, move.err);
    } else if a.pc.Peeking? && move.Peek? {
      PeekKeeps(s, a, move.err);
    } else if move.Crash? {
      CrashKeeps(s, a);
    } else {
      assert Local(s, a, move) == a;
    }
  }

  // ---- one attempt moves, the others stand still ------------------------------

  /** The two file listings agree except possibly on one name. */
  ghost predicate OnlyFile(m: map<string, File>, m': map<string, File>, f: string) {
    forall g :: g != f ==> (g in m <==> g in m') && (g in m ==> m'[g] == m[g])
  }

  /** Nobody else owns the ledger file of attempt `id`. */
  ghost predicate Alone(s: State, id: nat)
    requires id in s.attempts
  {
    forall i :: i in s.attempts && i != id && Holds(s.attempts[i]) ==> s.attempts[i].file != s.attempts[id].file
  }

  ghost predicate OnlyAttempt(s: State, s': State, id: nat) {
    && id in s.attempts && s'.attempts.Keys == s.attempts.Keys
    && (forall i :: i in s.attempts && i != id ==> s'.attempts[i] == s.attempts[i])
  }

  lemma OthersStay(s: State, s': State, id: nat)
    requires Inv(s) && Later(s.c, s'.c) && ReqsLater(s.reqs, s'.reqs) && OnlyAttempt(s, s', id)
    requires OnlyFile(s.ledger, s'.ledger, s.attempts[id].file) && OnlyFile(s.disk, s'.disk, s.attempts[id].file)
    requires Alone(s, id) || (s'.ledger == s.ledger && s'.disk == s.disk)
    ensures forall i :: i in s.attempts && i != id ==> AttemptOk(s', s'.attempts[i])
  {
    forall i | i in s.attempts && i != id
      ensures AttemptOk(s', s'.attempts[i])
    {
      var b := s.attempts[i];
      assert AttemptOk(s, b);
      AttemptStays(s, s', b);
    }
  }

  lemma ExclusiveStays(s: State, s': State, id: nat)
    requires Exclusive(s) && OnlyAttempt(s, s', id) && s'.attempts[id].file == s.attempts[id].file
    requires Holds(s'.attempts[id]) ==> Alone(s, id)
    ensures Exclusive(s')
  {
  }

  lemma RequestsStay(s: State, s': State, id: nat)
    requires forall i: nat :: i < |s.reqs| ==> RequestOk(s, i)
    requires ReqsLater(s.reqs, s'.reqs) && OnlyAttempt(s, s', id)
    requires SameCore(s.attempts[id], s'.attempts[id]) || s.attempts[id].req.None?
    ensures forall i: nat :: i < |s.reqs| ==> RequestOk(s', i)
  {
    forall i: nat | i < |s.reqs|
      ensures RequestOk(s', i)
    {
      assert RequestOk(s, i);
      assert s'.reqs[i].(status := s.reqs[i].status) == s.reqs[i];
    }
  }

  lemma TokensStay(s: State, s': State, id: nat)
    requires TokensOk(s) && s'.c.data == s.c.data && OnlyAttempt(s, s', id)
    requires var a, b := s.attempts[id], s'.attempts[id]; b.token == a.token && b.t == a.t && b.wrote == a.wrote
    ensures TokensOk(s')
  {
  }

  /** The invariant after attempt `id` made a move that sent nothing. */
  lemma Assemble(s: State, s': State, id: nat)
    requires Inv(s) && Later(s.c, s'.c) && s'.reqs == s.reqs && OnlyAttempt(s, s', id)
    requires OnlyFile(s.ledger, s'.ledger, s.attempts[id].file) && OnlyFile(s.disk, s'.disk, s.attempts[id].file)
    requires Alone(s, id) || (s'.ledger == s.ledger && s'.disk == s.disk)
    requires s'.attempts[id].file == s.attempts[id].file && (Holds(s'.attempts[id]) ==> Alone(s, id))
    requires SameCore(s.attempts[id], s'.attempts[id]) || (s.attempts[id].req.None? && s'.attempts[id].req.None?)
    requires AttemptOk(s', s'.attempts[id]) && TokensOk(s')
    ensures Inv(s')
  {
    hide AttemptOk;
    hide TokensOk;
    OthersStay(s, s', id);
    ExclusiveStays(s, s', id);
    RequestsStay(s, s', id);
  }

  lemma LaterReflexive(c: Cluster)
    requires ClusterOk(c)
    ensures Later(c, c)
  {
  }

  lemma HolderAlone(s: State, id: nat)
    requires Exclusive(s) && id in s.attempts && Holds(s.attempts[id])
    ensures Alone(s, id)
  {
  }

  lemma LocalStepKeeps(s: State, id: nat, move: Move)
    requires Inv(s) && id in s.attempts && LocalPC(s.attempts[id])
    ensures Inv(With(s, id, Local(s, s.attempts[id], move)))
  {
    var a := s.attempts[id];
    assert AttemptOk(s, a);
    LocalKeeps(s, a, move);
    hide AttemptOk;
    hide Local;
    var s' := With(s, id, Local(s, a, move));
    LaterReflexive(s.c);
    TokensStay(s, s', id);
    if Holds(a) { HolderAlone(s, id); }
    Assemble(s, s', id);
  }
}
