/** The moves that touch files, data or requests, and the steps of the rest of the
    system. Together with the local moves they show the invariant of every run. */
module StepPreservation {
  import opened Wrappers
  import opened Cluster
  import opened Protocol
  import opened Invariant
  import opened Preservation

  lemma MintIsLater(c: Cluster)
    requires ClusterOk(c)
    ensures Later(c, c.(minted := c.minted + 1))
  {
  }

  /** While an attempt is not past its claim, the files say nothing about it. */
  lemma UnarmedMoved(s: State, s': State, a: Attempt, b: Attempt)
    requires AttemptOk(s, a) && Later(s.c, s'.c) && !a.armed && a.req.None?
    requires b == a.(pc := b.pc, token := b.token)
    requires !b.pc.Auth? && (Live(b) ==> Live(a) && !a.pc.Auth?)
    requires b.pc.Filling? ==> a.file in s'.ledger
    requires b.pc != Finished(Passed) && (b.pc.Peeking? || b.pc.Creating? || b.pc.Filling? || !Live(b))
    requires (b.pc.Peeking? || b.pc.Creating? ==> b.token == 0) && b.token <= s'.c.minted
    requires b.pc.Filling? ==> !a.wrote && b.token != 0
    requires b.pc.Peeking? || b.pc.Creating? ==> !a.wrote
    ensures AttemptOk(s', b)
  {
    AuthStays(s.c, s'.c, a);
  }

  /** An absent ledger file has no owner, alive or not. */
  lemma NobodyHolds(s: State, file: string)
    requires Inv(s) && file !in s.ledger
    ensures forall i :: i in s.attempts && Holds(s.attempts[i]) ==> s.attempts[i].file != file
  {
    forall i | i in s.attempts && Holds(s.attempts[i])
      ensures s.attempts[i].file != file
    {
      assert AttemptOk(s, s.attempts[i]);
    }
  }

  lemma FreshTokenOk(s: State, s': State, id: nat)
    requires Inv(s) && OnlyAttempt(s, s', id) && s'.c.data == s.c.data && s'.attempts[id].token == s.c.minted + 1
    ensures TokensOk(s')
  {
    forall i | i in s.attempts && i != id
      ensures s.attempts[i].token <= s.c.minted
    {
      assert AttemptOk(s, s.attempts[i]);
    }
  }

  lemma CreatedOk(s: State, s': State, id: nat)
    requires Inv(s) && id in s.attempts && s.attempts[id].pc.Creating?
    requires Later(s.c, s'.c) && s'.c.minted == s.c.minted + 1 && s.attempts[id].file in s'.ledger
    ensures AttemptOk(s', s.attempts[id].(pc := Filling, token := s.c.minted + 1)) && s.attempts[id].req.None?
  {
    assert AttemptOk(s, s.attempts[id]);
    UnarmedMoved(s, s', s.attempts[id], s.attempts[id].(pc := Filling, token := s.c.minted + 1));
  }

  lemma CreatedKeeps(s: State, s': State, id: nat)
    requires Inv(s) && id in s.attempts && s.attempts[id].pc.Creating? && s.attempts[id].file !in s.ledger
    requires s' == CreateFile(s, id, s.attempts[id], false)
    ensures Inv(s')
  {
    hide AttemptOk;
    hide TokensOk;
    MintIsLater(s.c);
    NobodyHolds(s, s.attempts[id].file);
    CreatedOk(s, s', id);
    FreshTokenOk(s, s', id);
    Assemble(s, s', id);
  }

  /** A claim that ends without owning the file. */
  lemma NotCreatedKeeps(s: State, id: nat, why: Reason)
    requires Inv(s) && id in s.attempts && s.attempts[id].pc.Creating? && why != Passed
    ensures Inv(With(s, id, s.attempts[id].(pc := Finished(why))))
  {
    var a := s.attempts[id];
    var s' := With(s, id, a.(pc := Finished(why)));
    assert AttemptOk(s, a);
    LaterReflexive(s.c);
    UnarmedMoved(s, s', a, s'.attempts[id]);
    TokensStay(s, s', id);
    hide AttemptOk;
    hide TokensOk;
    Assemble(s, s', id);
  }

  lemma CreateKeeps(s: State, id: nat, err: bool)
    requires Inv(s) && id in s.attempts && s.attempts[id].pc.Creating?
    ensures Inv(CreateFile(s, id, s.attempts[id], err))
  {
    if err {
      NotCreatedKeeps(s, id, ClaimFailed);
    } else if s.attempts[id].file in s.ledger {
      NotCreatedKeeps(s, id, ClaimedElsewhere);
    } else {
      CreatedKeeps(s, CreateFile(s, id, s.attempts[id], err), id);
    }
  }

  lemma ArmedOk(s: State, s': State, a: Attempt, b: Attempt)
    requires AttemptOk(s, a) && a.pc.Filling? && s'.c == s.c && s'.reqs == s.reqs
    requires b == a.(pc := Writing, armed := true)
    requires b.file in s'.ledger && s'.ledger[b.file] == Written(Intent(a))
    requires b.file in s'.disk && s'.disk[b.file] == Written(Intent(a))
    ensures AttemptOk(s', b)
  {
  }

  lemma FillingHasSentNothing(s: State, a: Attempt)
    requires AttemptOk(s, a) && a.pc.Filling?
    ensures a.req.None?
  {
  }

  lemma FlushedKeeps(s: State, s': State, id: nat)
    requires Inv(s) && id in s.attempts && s.attempts[id].pc.Filling?
    requires s' == FillLedger(s, id, s.attempts[id], Flushed)
    ensures Inv(s')
  {
    hide AttemptOk;
    hide TokensOk;
    var a := s.attempts[id];
    LaterReflexive(s.c);
    HolderAlone(s, id);
    FillingHasSentNothing(s, a);
    ArmedOk(s, s', a, s'.attempts[id]);
    TokensStay(s, s', id);
    Assemble(s, s', id);
  }

  /** A claim that failed half way and was taken back, or left a blocking file. */
  lemma NotFlushedKeeps(s: State, s': State, id: nat, ledger: map<string, File>, disk: map<string, File>)
    requires Inv(s) && id in s.attempts && s.attempts[id].pc.Filling?
    requires OnlyFile(s.ledger, ledger, s.attempts[id].file) && OnlyFile(s.disk, disk, s.attempts[id].file)
    requires s' == With(s, id, s.attempts[id].(pc := Finished(ClaimFailed))).(ledger := ledger, disk := disk)
    ensures Inv(s')
  {
    var a := s.attempts[id];
    assert Later(s.c, s'.c) by { LaterReflexive(s.c); }
    HolderAlone(s, id);
    assert AttemptOk(s', s'.attempts[id]) && a.req.None? by {
      assert AttemptOk(s, a);
      UnarmedMoved(s, s', a, s'.attempts[id]);
    }
    TokensStay(s, s', id);
    Assemble(s, s', id);
  }

  lemma FillKeeps(s: State, id: nat, fill: FillOutcome)
    requires Inv(s) && id in s.attempts && s.attempts[id].pc.Filling?
    ensures Inv(FillLedger(s, id, s.attempts[id], fill))
  {
    var s' := FillLedger(s, id, s.attempts[id], fill);
    if fill.Flushed? {
      FlushedKeeps(s, s', id);
    } else {
      NotFlushedKeeps(s, s', id, s'.ledger, s'.disk);
    }
  }

  // ---- writing, deleting, closing ----------------------------------------------

  lemma DataWriteIsLater(c: Cluster, d: (string, Token))
    requires ClusterOk(c) && d.1 <= c.minted
    ensures Later(c, c.(data := c.data + {d}))
  {
  }

  lemma WrittenTokenOk(s: State, s': State, id: nat)
    requires Inv(s) && OnlyAttempt(s, s', id)
    requires var a, b := s.attempts[id], s'.attempts[id];
      b.token == a.token != 0 && b.t == a.t && b.wrote && s'.c.data == s.c.data + {(LedgerKey(a.t), a.token)}
    ensures TokensOk(s')
  {
    hide AttemptOk;
    hide ClusterOk;
    hide Exclusive;
    hide OwnRequests;
  }

  lemma WrittenOk(s: State, s': State, a: Attempt, b: Attempt, why: Reason)
    requires AttemptOk(s, a) && a.pc.Writing? && Later(s.c, s'.c)
    requires s'.ledger == s.ledger && s'.disk == s.disk && s'.reqs == s.reqs
    requires b == a.(wrote := b.wrote, pc := b.pc)
    requires (b.pc == Rechecking && b.wrote) || (b.pc == Closing(Terminal(a, Unknown, WriteFail, NO_UID), why) && why != Passed)
    ensures AttemptOk(s', b)
  {
    AttemptStays(s, s', a);
    assert LedgerOk(s', b);
  }

  lemma WritingFacts(s: State, a: Attempt)
    requires AttemptOk(s, a) && a.pc.Writing?
    ensures Holds(a) && !a.wrote && a.req.None? && 0 != a.token <= s.c.minted
  {
  }

  /** A write that left its token behind, whether or not it was reported as done. */
  lemma LandedKeeps(s: State, s': State, id: nat, ok: bool, landed: bool)
    requires Inv(s) && id in s.attempts && s.attempts[id].pc.Writing? && (ok || landed)
    requires s' == WriteToken(s, id, s.attempts[id], ok, landed)
    ensures Inv(s')
  {
    hide AttemptOk;
    hide Later;
    hide TokensOk;
    hide LedgerKey;
    var a := s.attempts[id];
    WritingFacts(s, a);
    DataWriteIsLater(s.c, (LedgerKey(a.t), a.token));
    WrittenOk(s, s', a, s'.attempts[id], WriteFailed);
    WrittenTokenOk(s, s', id);
    HolderAlone(s, id);
    Assemble(s, s', id);
  }

  lemma NotLandedKeeps(s: State, s': State, id: nat)
    requires Inv(s) && id in s.attempts && s.attempts[id].pc.Writing?
    requires s' == WriteToken(s, id, s.attempts[id], false, false)
    ensures Inv(s')
  {
    hide AttemptOk;
    hide Later;
    hide TokensOk;
    var a := s.attempts[id];
    WritingFacts(s, a);
    LaterReflexive(s.c);
    WrittenOk(s, s', a, s'.attempts[id], WriteFailed);
    TokensStay(s, s', id);
    HolderAlone(s, id);
    Assemble(s, s', id);
  }

  lemma WriteKeeps(s: State, id: nat, ok: bool, landed: bool)
    requires Inv(s) && id in s.attempts && s.attempts[id].pc.Writing?
    ensures Inv(WriteToken(s, id, s.attempts[id], ok, landed))
  {
    hide Inv;
    var s' := WriteToken(s, id, s.attempts[id], ok, landed);
    if ok || landed { LandedKeeps(s, s', id, ok, landed); } else { NotLandedKeeps(s, s', id); }
  }

  lemma BlockedKeeps(s: State, id: nat)
    requires Inv(s) && id in s.attempts && s.attempts[id].pc.Issuing?
    ensures Inv(IssueDelete(s, id, s.attempts[id], true))
  {
    var a := s.attempts[id];
    var s' := IssueDelete(s, id, a, true);
    assert AttemptOk(s, a);
    CloseUnknownKeeps(s, a, DeleteFail, NO_UID, DeleteUnknown);
    LaterReflexive(s.c);
    TokensStay(s, s', id);
    HolderAlone(s, id);
    Assemble(s, s', id);
  }

  lemma SentOk(s: State, s': State, a: Attempt, b: Attempt)
    requires AttemptOk(s, a) && a.pc.Issuing? && ClusterOk(s.c)
    requires s'.c == s.c && s'.ledger == s.ledger && s'.disk == s.disk
    requires |s'.reqs| == |s.reqs| + 1 && ReqsLater(s.reqs, s'.reqs)
    requires b == a.(pc := Awaiting, req := Some(|s.reqs|))
    ensures AttemptOk(s', b)
  {
    LaterReflexive(s.c);
    AttemptStays(s, s', a);
    assert LedgerOk(s', b);
  }

  lemma SentAttemptOk(s: State, s': State, id: nat)
    requires Inv(s) && id in s.attempts && s.attempts[id].pc.Issuing? && !Unnamed(s.attempts[id])
    requires s' == IssueDelete(s, id, s.attempts[id], false)
    ensures AttemptOk(s', s'.attempts[id]) && s.attempts[id].armed && s.attempts[id].req.None?
  {
    assert AttemptOk(s, s.attempts[id]);
    SentOk(s, s', s.attempts[id], s'.attempts[id]);
  }

  lemma SentRequestsOk(s: State, s': State, id: nat)
    requires Inv(s) && id in s.attempts && s.attempts[id].armed && s.attempts[id].req.None?
    requires OnlyAttempt(s, s', id) && s'.attempts[id] == s.attempts[id].(pc := Awaiting, req := Some(|s.reqs|))
    requires s'.reqs == s.reqs + [Request(id, s.attempts[id].file, s.attempts[id].ref, s.attempts[id].podUid, Pending)]
    ensures forall i: nat :: i < |s'.reqs| ==> RequestOk(s', i)
  {
    hide AttemptOk;
    hide TokensOk;
    hide Exclusive;
    hide OwnRequests;
    RequestsStay(s, s', id);
    hide Inv;
    var n := |s.reqs|;
    assert s'.reqs[n].attempt == id && s'.attempts[id].req == Some(n);
    assert RequestOk(s', n);
    hide RequestOk;
    hide OnlyAttempt;
  }

  lemma SentIsOwn(s: State, s': State, id: nat, r: Request)
    requires OwnRequests(s) && OnlyAttempt(s, s', id) && s'.attempts[id].req == Some(|s.reqs|)
    requires s'.reqs == s.reqs + [r] && r.attempt == id
    ensures OwnRequests(s')
  {
  }

  lemma SendKeeps(s: State, id: nat)
    requires Inv(s) && id in s.attempts && s.attempts[id].pc.Issuing? && !Unnamed(s.attempts[id])
    ensures Inv(IssueDelete(s, id, s.attempts[id], false))
  {
    var s' := IssueDelete(s, id, s.attempts[id], false);
    SentAttemptOk(s, s', id);
    LaterReflexive(s.c);
    HolderAlone(s, id);
    OthersStay(s, s', id);
    ExclusiveStays(s, s', id);
    SentRequestsOk(s, s', id);
    SentIsOwn(s, s', id, s'.reqs[|s.reqs|]);
    TokensStay(s, s', id);
  }

  lemma ClosedOk(s: State, s': State, a: Attempt, b: Attempt)
    requires AttemptOk(s, a) && a.pc.Closing? && s'.c == s.c && s'.reqs == s.reqs
    requires b == a.(pc := b.pc) && b.pc.Finished? && b.pc.reason == a.pc.why
    requires b.file in s'.ledger && s'.ledger[b.file] == Written(a.pc.rec)
    requires b.file in s'.disk && s'.disk[b.file] == Written(a.pc.rec)
    ensures AttemptOk(s', b)
  {
  }

  lemma HalfClosedOk(s: State, s': State, a: Attempt, b: Attempt)
    requires AttemptOk(s, a) && a.pc.Closing? && s'.c == s.c && s'.reqs == s.reqs
    requires b == a.(pc := b.pc) && b.pc.Finished? && b.pc.reason != Passed
    requires b.file in s'.ledger && (s'.ledger[b.file] == s.ledger[b.file] || s'.ledger[b.file] == Written(a.pc.rec))
    requires b.file in s'.disk && (s'.disk[b.file] == s.disk[b.file] || s'.disk[b.file] == Written(a.pc.rec))
    ensures AttemptOk(s', b)
  {
  }

  lemma ClosingAttemptOk(s: State, s': State, id: nat, close: CloseOutcome)
    requires Inv(s) && id in s.attempts && s.attempts[id].pc.Closing?
    requires s' == CloseLedger(s, id, s.attempts[id], s.attempts[id].pc.rec, s.attempts[id].pc.why, close)
    ensures AttemptOk(s', s'.attempts[id]) && s.attempts[id].armed
  {
    var a := s.attempts[id];
    assert AttemptOk(s, a);
    if close.Closed? { ClosedOk(s, s', a, s'.attempts[id]); } else { HalfClosedOk(s, s', a, s'.attempts[id]); }
  }

  lemma ClosedFilesKeep(s: State, s': State, id: nat, b: Attempt, ledger: map<string, File>, disk: map<string, File>)
    requires Inv(s) && id in s.attempts && s.attempts[id].armed && b == s.attempts[id].(pc := b.pc) && !b.pc.Filling?
    requires OnlyFile(s.ledger, ledger, b.file) && OnlyFile(s.disk, disk, b.file)
    requires s' == With(s, id, b).(ledger := ledger, disk := disk) && AttemptOk(s', b)
    ensures Inv(s')
  {
    assert Later(s.c, s'.c) by { LaterReflexive(s.c); }
    HolderAlone(s, id);
    TokensStay(s, s', id);
    Assemble(s, s', id);
  }

  lemma CloseKeeps(s: State, id: nat, close: CloseOutcome)
    requires Inv(s) && id in s.attempts && s.attempts[id].pc.Closing?
    ensures Inv(CloseLedger(s, id, s.attempts[id], s.attempts[id].pc.rec, s.attempts[id].pc.why, close))
  {
    var s' := CloseLedger(s, id, s.attempts[id], s.attempts[id].pc.rec, s.attempts[id].pc.why, close);
    ClosingAttemptOk(s, s', id, close);
    ClosedFilesKeep(s, s', id, s'.attempts[id], s'.ledger, s'.disk);
  }

  /** Which of the moves the step function takes. */
  lemma AdvanceIs(s: State, id: nat, a: Attempt, move: Move)
    ensures LocalPC(a) ==> Advance(s, id, a, move) == With(s, id, Local(s, a, move))
    ensures !LocalPC(a) && move.Crash? ==> Advance(s, id, a, move) == With(s, id, a.(pc := Crashed))
    ensures a.pc.Creating? && move.Create? ==> Advance(s, id, a, move) == CreateFile(s, id, a, move.err)
    ensures a.pc.Filling? && move.Fill? ==> Advance(s, id, a, move) == FillLedger(s, id, a, move.fill)
    ensures a.pc.Writing? && move.Write? ==> Advance(s, id, a, move) == WriteToken(s, id, a, move.ok, move.landed)
    ensures a.pc.Issuing? && move.Issue? ==> Advance(s, id, a, move) == IssueDelete(s, id, a, move.blocked)
    ensures a.pc.Closing? && move.Close? ==> Advance(s, id, a, move) == CloseLedger(s, id, a, a.pc.rec, a.pc.why, move.close)
    ensures Taken(a, move) || Advance(s, id, a, move) == With(s, id, a)
  {
  }

  predicate Taken(a: Attempt, move: Move) {
    || LocalPC(a) || move.Crash? || (a.pc.Creating? && move.Create?) || (a.pc.Filling? && move.Fill?)
    || (a.pc.Writing? && move.Write?) || (a.pc.Issuing? && move.Issue?) || (a.pc.Closing? && move.Close?)
  }

  /** A move of one attempt, whatever it is. */
  lemma AdvanceKeeps(s: State, id: nat, move: Move)
    requires Inv(s) && id in s.attempts
    ensures Inv(Advance(s, id, s.attempts[id], move))
  {
    var a := s.attempts[id];
    AdvanceIs(s, id, a, move);
    if LocalPC(a) {
      LocalStepKeeps(s, id, move);
    } else if move.Crash? {
      CrashStepKeeps(s, id);
    } else if !Taken(a, move) {
      NoMove(s, id);
    } else {
      FileMoveKeeps(s, id, move);
    }
  }

  lemma NoMove(s: State, id: nat)
    requires id in s.attempts
    ensures With(s, id, s.attempts[id]) == s
  {
    assert s.attempts[id := s.attempts[id]] == s.attempts;
  }

  lemma FileMoveKeeps(s: State, id: nat, move: Move)
    requires Inv(s) && id in s.attempts && !LocalPC(s.attempts[id]) && !move.Crash? && Taken(s.attempts[id], move)
    ensures Inv(Advance(s, id, s.attempts[id], move))
  {
    AdvanceIs(s, id, s.attempts[id], move);
    match move
    case Create(err) => CreateKeeps(s, id, err);
    case Fill(fill) => FillKeeps(s, id, fill);
    case Write(ok, landed) => WriteKeeps(s, id, ok, landed);
    case Issue(blocked) => IssueKeeps(s, id, blocked);
    case Close(close) => CloseKeeps(s, id, close);
  }

  lemma IssueKeeps(s: State, id: nat, blocked: bool)
    requires Inv(s) && id in s.attempts && s.attempts[id].pc.Issuing?
    ensures Inv(IssueDelete(s, id, s.attempts[id], blocked))
  {
    if blocked || Unnamed(s.attempts[id]) { BlockedKeeps(s, id); } else { SendKeeps(s, id); }
  }

  lemma CrashStepKeeps(s: State, id: nat)
    requires Inv(s) && id in s.attempts
    ensures Inv(With(s, id, s.attempts[id].(pc := Crashed)))
  {
    var a := s.attempts[id];
    var s' := With(s, id, a.(pc := Crashed));
    hide AttemptOk;
    hide Later;
    hide TokensOk;
    CrashKeeps(s, a);
    BystanderStays(s, s', s'.attempts[id]);
    LaterReflexive(s.c);
    if Holds(a) { HolderAlone(s, id); }
    TokensStay(s, s', id);
    Assemble(s, s', id);
  }

  // ---- everybody else ------------------------------------------------------------

  /** The cluster and the answers move on; attempts and files stand still. */
  lemma WorldMoves(s: State, s': State)
    requires Inv(s) && Later(s.c, s'.c) && Unforged(s.c, s'.c) && ReqsLater(s.reqs, s'.reqs) && |s'.reqs| == |s.reqs|
    requires s'.attempts == s.attempts && s'.ledger == s.ledger && s'.disk == s.disk
    ensures Inv(s')
  {
    forall i | i in s'.attempts
      ensures AttemptOk(s', s'.attempts[i])
    {
      assert AttemptOk(s, s.attempts[i]);
      AttemptStays(s, s', s.attempts[i]);
    }
    forall i: nat | i < |s'.reqs|
      ensures RequestOk(s', i)
    {
      assert RequestOk(s, i);
      assert s'.reqs[i].(status := s.reqs[i].status) == s.reqs[i];
    }
    forall i | i in s.attempts && s.attempts[i].req.Some?
      ensures s.attempts[i].req.value < |s'.reqs| && s'.reqs[s.attempts[i].req.value].attempt == i
    {
      var k := s.attempts[i].req.value;
      assert s'.reqs[k].(status := s.reqs[k].status) == s.reqs[k];
    }
    forall i, d | i in s.attempts && d in s'.c.data && s.attempts[i].token != 0 && d.1 == s.attempts[i].token
      ensures s.attempts[i].wrote && d.0 == LedgerKey(s.attempts[i].t)
    {
      assert AttemptOk(s, s.attempts[i]);
      assert d in s.c.data;
    }
  }

  lemma ServedIsLater(c: Cluster, r: Request, verdict: Verdict)
    requires ClusterOk(c)
    ensures Later(c, Served(c, r, verdict).0) && Unforged(c, Served(c, r, verdict).0)
  {
    LaterReflexive(c);
    if verdict.Admit? && r.ref in c.pods && c.pods[r.ref].uid == r.uid {
      if verdict.graceful {
        PlacedPodIsLater(c, r.ref, c.pods[r.ref].(terminating := true));
      } else {
        PodLossIsLater(c, r.ref);
      }
    }
  }

  lemma ServeKeeps(s: State, index: nat, verdict: Verdict)
    requires Inv(s)
    ensures Inv(ServeRequest(s, index, verdict))
  {
    var s' := ServeRequest(s, index, verdict);
    if s' != s {
      ServedIsLater(s.c, s.reqs[index], verdict);
      WorldMoves(s, s');
    }
  }

  lemma BystanderStays(s: State, s': State, a: Attempt)
    requires AttemptOk(s, a) && ClusterOk(s.c) && s' == s.(attempts := s'.attempts)
    ensures AttemptOk(s', a)
  {
    LaterReflexive(s.c);
    AttemptStays(s, s', a);
  }

  lemma NewAttemptOk(s: State, t: Target, runId: string)
    ensures AttemptOk(s, NewAttempt(t, runId))
  {
  }

  lemma StartKeeps(s: State, id: nat, t: Target, runId: string)
    requires Inv(s) && id !in s.attempts
    ensures Inv(With(s, id, NewAttempt(t, runId)))
  {
    hide AttemptOk;
    hide Later;
    var s' := With(s, id, NewAttempt(t, runId));
    NewAttemptOk(s', t, runId);
    forall i | i in s'.attempts
      ensures AttemptOk(s', s'.attempts[i])
    {
      if i != id {
        assert AttemptOk(s, s.attempts[i]);
        BystanderStays(s, s', s.attempts[i]);
      }
    }
    forall i: nat | i < |s'.reqs|
      ensures RequestOk(s', i)
    {
      assert RequestOk(s, i);
    }
  }

  /** A power loss ends every live attempt and keeps what was flushed. */
  lemma CutOffOk(s: State, s': State, a: Attempt)
    requires AttemptOk(s, a) && s'.c == s.c && s'.reqs == s.reqs && s'.disk == s'.ledger
    requires a.armed ==>
      a.file in s'.ledger && (s'.ledger[a.file] == s.ledger[a.file] || s'.ledger[a.file] == s.disk[a.file])
    ensures AttemptOk(s', if Live(a) then a.(pc := Crashed) else a)
  {
    var b := if Live(a) then a.(pc := Crashed) else a;
    if a.armed {
      assert FileTrue(s'.reqs, b, s'.ledger[b.file]);
    }
  }

  lemma SurvivorsOk(s: State, a: Attempt, fallBack: set<string>, torn: set<string>)
    requires AttemptOk(s, a)
    ensures AttemptOk(LosePower(s, fallBack, torn), if Live(a) then a.(pc := Crashed) else a)
  {
    CutOffOk(s, LosePower(s, fallBack, torn), a);
  }

  /** Attempts only lose their program counter; every other part of the state that the
      pairwise conditions read is as before. */
  lemma CutOffPairs(s: State, s': State)
    requires Inv(s) && s'.c == s.c && s'.reqs == s.reqs && s'.attempts.Keys == s.attempts.Keys
    requires forall i :: i in s.attempts ==> s'.attempts[i] == s.attempts[i].(pc := s'.attempts[i].pc)
    requires forall i :: i in s.attempts ==> !s'.attempts[i].pc.Filling?
    ensures Exclusive(s') && TokensOk(s') && OwnRequests(s')
    ensures forall i: nat :: i < |s'.reqs| ==> RequestOk(s', i)
  {
    hide AttemptOk;
    forall i: nat | i < |s'.reqs|
      ensures RequestOk(s', i)
    {
      assert RequestOk(s, i);
    }
  }

  lemma PowerLossKeeps(s: State, fallBack: set<string>, torn: set<string>)
    requires Inv(s)
    ensures Inv(LosePower(s, fallBack, torn))
  {
    hide AttemptOk;
    hide TokensOk;
    hide Exclusive;
    hide OwnRequests;
    hide Survivors;
    var s' := LosePower(s, fallBack, torn);
    forall i | i in s'.attempts
      ensures AttemptOk(s', s'.attempts[i])
    {
      assert AttemptOk(s, s.attempts[i]);
      SurvivorsOk(s, s.attempts[i], fallBack, torn);
    }
    CutOffPairs(s, s');
  }

  lemma StepKeeps(s: State, act: Action)
    requires Inv(s)
    ensures Inv(Step(s, act))
  {
    match act
    case World(d) =>
      DisturbIsLater(s.c, d);
      DisturbForgesNothing(s.c, d);
      WorldMoves(s, Step(s, act));
    case Serve(index, verdict) => ServeKeeps(s, index, verdict);
    case PowerLoss(fallBack, torn) => PowerLossKeeps(s, fallBack, torn);
    case Start(id, t, runId) => if id !in s.attempts { StartKeeps(s, id, t, runId); }
    case Do(id, move) => if id in s.attempts && Live(s.attempts[id]) { AdvanceKeeps(s, id, move); }
  }

  lemma {:induction false} RunKeeps(s: State, acts: seq<Action>)
    requires Inv(s)
    ensures Inv(Exec(s, acts))
  {
    if acts != [] {
      RunKeeps(s, acts[..|acts| - 1]);
      StepKeeps(Exec(s, acts[..|acts| - 1]), acts[|acts| - 1]);
    }
  }

  lemma ExecSnoc(s: State, acts: seq<Action>, act: Action)
    ensures Exec(s, acts + [act]) == Step(Exec(s, acts), act)
  {
    hide Step;
    assert (acts + [act])[..|acts|] == acts;
  }

  /** The invariant holds after every run of the protocol from any site. */
  lemma Reachable(s: State, acts: seq<Action>)
    requires Init(s)
    ensures Inv(Exec(s, acts))
  {
    RunKeeps(s, acts);
  }
}
