/** When exactly a one-change budget is spent: the file is there, it would survive a power
    loss, and nobody is still half way through creating it. */
module Budget {
  import opened Wrappers
  import opened Cluster
  import opened Protocol
  import opened Invariant
  import opened Preservation
  import opened StepPreservation
  import opened Safety
  import opened Timeline
  import opened Persistence
  import opened Completeness

  /** The record stands, now and after a power loss, and no claim of it is half made. */
  ghost predicate Locked(s: State, file: string) {
    && file in s.ledger && file in s.disk
    && (forall i :: i in s.attempts && s.attempts[i].file == file ==> !s.attempts[i].pc.Filling?)
  }

  /** Attempt `id`, if it is there, does not own the file. */
  ghost predicate Barred(s: State, file: string, id: nat) {
    id in s.attempts && s.attempts[id].file == file ==> !s.attempts[id].armed
  }

  // ---- a locked file stays locked ---------------------------------------------------------

  /** The ledger and the flushed directory still hold the file after any move on it. */
  ghost predicate StillThere(s: State, s': State, id: nat, file: string) {
    && file in s'.ledger && file in s'.disk && id in s'.attempts && s'.attempts[id].file == file
    && !s'.attempts[id].pc.Filling? && s'.attempts == s.attempts[id := s'.attempts[id]]
  }

  lemma FileMoveLeavesIt(s: State, id: nat, move: Move)
    requires id in s.attempts && !LocalPC(s.attempts[id]) && !s.attempts[id].pc.Filling?
    requires s.attempts[id].file in s.ledger && s.attempts[id].file in s.disk
    ensures StillThere(s, Advance(s, id, s.attempts[id], move), id, s.attempts[id].file)
  {
    hide Advance;
    hide Terminal;
    hide Unnamed;
    hide LedgerKey;
    hide Local;
    AdvanceIs(s, id, s.attempts[id], move);
  }

  lemma LockedOwnMove(s: State, id: nat, move: Move, file: string)
    requires Inv(s) && Locked(s, file) && id in s.attempts && s.attempts[id].file == file
    ensures var s' := Advance(s, id, s.attempts[id], move);
      StillThere(s, s', id, file) && (s'.attempts[id].armed ==> s.attempts[id].armed)
  {
    hide Advance;
    hide Local;
    var a := s.attempts[id];
    assert AttemptOk(s, a);
    hide AttemptOk;
    if LocalPC(a) {
      AdvanceIs(s, id, a, move);
      LocalKeeps(s, a, move);
    } else {
      hide Inv;
      FileMoveLeavesIt(s, id, move);
      FileMoveIs(s, id, move);
    }
  }

  lemma LockedMove(s: State, i: nat, move: Move, file: string, id: nat)
    requires Inv(s) && Locked(s, file) && Barred(s, file, id) && i in s.attempts
    ensures var s' := Advance(s, i, s.attempts[i], move); Locked(s', file) && Barred(s', file, id)
  {
    hide Advance;
    hide Inv;
    if s.attempts[i].file == file {
      LockedOwnMove(s, i, move, file);
    } else {
      AdvanceWithin(s, i, s.attempts[i], move);
    }
  }

  lemma LockedStep(s: State, act: Action, file: string, id: nat)
    requires Inv(s) && Locked(s, file) && Barred(s, file, id)
    ensures Locked(Step(s, act), file) && Barred(Step(s, act), file, id)
  {
    hide Advance;
    hide Inv;
    if act.Do? && act.id in s.attempts && Live(s.attempts[act.id]) { LockedMove(s, act.id, act.move, file, id); }
  }

  lemma {:induction false} LockedRun(s: State, more: seq<Action>, file: string, id: nat)
    requires Inv(s) && Locked(s, file) && Barred(s, file, id)
    ensures Locked(Exec(s, more), file) && Barred(Exec(s, more), file, id)
  {
    hide Step;
    hide Inv;
    if more != [] {
      LockedRun(s, more[..|more| - 1], file, id);
      RunKeeps(s, more[..|more| - 1]);
      LockedStep(Exec(s, more[..|more| - 1]), more[|more| - 1], file, id);
    }
  }

  /** Once the file is locked, no new attempt on it ever passes, whoever else is alive. */
  lemma LockedBudgetNeverPasses(s: State, more: seq<Action>, id: nat, t: Target, runId: string)
    requires Inv(s) && id !in s.attempts && Locked(s, LedgerFile(runId, t))
    ensures !Passes(s, more, id, t, runId)
  {
    hide Inv;
    hide Exec;
    hide LedgerFile;
    LockedRun(s, more, LedgerFile(runId, t), id);
    RunKeeps(s, more);
    if Passes(s, more, id, t, runId) { PassRecord(Exec(s, more), id); }
  }

  // ---- an unlocked file can be claimed ---------------------------------------------------------

  /** Any site where the file is not locked has a way to a state without it: it is not there,
      or its creator takes it back, or a power loss forgets what was never flushed. */
  lemma WayToUnspent(s: State, file: string) returns (acts: seq<Action>)
    requires Inv(s) && !Locked(s, file)
    ensures file !in Exec(s, acts).ledger && Exec(s, acts).c == s.c && Exec(s, acts).attempts.Keys == s.attempts.Keys
  {
    hide Inv;
    acts := [];
    if file in s.ledger {
      var act;
      if i :| i in s.attempts && s.attempts[i].file == file && s.attempts[i].pc.Filling? {
        act := Do(i, Fill(FailedRemoved(false)));
        FileMove(s, i, Fill(FailedRemoved(false)));
      } else {
        act := PowerLoss({file}, {});
      }
      assert file !in Step(s, act).ledger && Step(s, act).c == s.c && Step(s, act).attempts.Keys == s.attempts.Keys;
      hide Step;
      ExecCons(s, act, []);
      acts := [act];
    }
  }

  lemma UnlockedBudgetCanPass(s: State, id: nat, t: Target, listed: string, runId: string) returns (acts: seq<Action>)
    requires Inv(s) && id !in s.attempts && Matches(s.c, t, listed) && !Locked(s, LedgerFile(runId, t))
    ensures Passes(s, acts, id, t, runId)
  {
    assert ClusterOk(s.c);
    hide Inv;
    hide Exec;
    hide Matches;
    hide LedgerFile;
    var free := WayToUnspent(s, LedgerFile(runId, t));
    var pass := UnspentBudgetCanPass(Exec(s, free), id, t, listed, runId);
    PassesJoin(s, free, pass, id, t, runId);
    acts := free + pass;
  }

  /** The budget of a target is spent, in the sense that no run whatsoever lets a new attempt
      pass, exactly when its file is locked. */
  lemma SpentIffLocked(s: State, id: nat, t: Target, listed: string, runId: string)
    requires Inv(s) && id !in s.attempts && Matches(s.c, t, listed)
    ensures (forall acts :: !Passes(s, acts, id, t, runId)) <==> Locked(s, LedgerFile(runId, t))
  {
    hide Inv;
    hide Exec;
    hide Matches;
    hide Locked;
    hide Passes;
    hide LedgerFile;
    if Locked(s, LedgerFile(runId, t)) {
      forall acts
        ensures !Passes(s, acts, id, t, runId)
      {
        LockedBudgetNeverPasses(s, acts, id, t, runId);
      }
    } else {
      var acts := UnlockedBudgetCanPass(s, id, t, listed, runId);
    }
  }

  // ---- a second call after a recorded intent ---------------------------------------------------------

  /** The intent reaches the disk but flushing reports an error, so its creator removes it. */
  lemma TakenBackRun(s: State, id: nat) returns (acts: seq<Action>)
    requires id in s.attempts && s.attempts[id].pc == Peeking && s.attempts[id].file !in s.ledger
    ensures var a, s' := s.attempts[id], Exec(s, acts);
      && s'.attempts.Keys == s.attempts.Keys && s'.attempts[id] == a.(pc := Finished(ClaimFailed), token := s.c.minted + 1)
      && s'.c == s.c.(minted := s.c.minted + 1) && s'.ledger == s.ledger
      && a.file in s'.disk && s'.disk[a.file] == Written(Intent(s'.attempts[id]))
  {
    hide Intent;
    var peek, create, fill := Do(id, Peek(false)), Do(id, Create(false)), Do(id, Fill(FailedRemoved(true)));
    acts := [peek, create, fill];
    ThreeSteps(s, acts);
    LocalMove(s, id, Peek(false));
    var s1 := Step(s, peek);
    assert s1 == With(s, id, s.attempts[id].(pc := Creating));
    hide Step;
    hide Exec;
    hide Advance;
    CreateStep(s1, id);
    TakeBackStep(Step(s1, create), id, s.ledger);
  }

  lemma TakeBackStep(s: State, id: nat, before: map<string, File>)
    requires id in s.attempts && s.attempts[id].pc == Filling
    requires s.attempts[id].file !in before && s.ledger == before[s.attempts[id].file := Partial]
    ensures var a, s' := s.attempts[id], Step(s, Do(id, Fill(FailedRemoved(true))));
      && s'.attempts == s.attempts[id := a.(pc := Finished(ClaimFailed))] && s'.c == s.c && s'.ledger == before
      && a.file in s'.disk && s'.disk[a.file] == Written(Intent(s'.attempts[id]))
  {
    hide Intent;
    FileMove(s, id, Fill(FailedRemoved(true)));
    IntentDepends(s.attempts[id], s.attempts[id].(pc := Finished(ClaimFailed)));
  }

  lemma IntentDepends(a: Attempt, b: Attempt)
    requires SameButPC(a, b)
    ensures Intent(a) == Intent(b)
  {
  }

  /** The intent of attempt `id` is on disk, where nobody sees it, and the attempt is over. */
  ghost predicate TakenBack(s: State, id: nat, file: string) {
    && id in s.attempts && s.attempts[id].file == file && s.attempts[id].pc == Finished(ClaimFailed)
    && file !in s.ledger && file in s.disk && s.disk[file] == Written(Intent(s.attempts[id]))
  }

  lemma GivesUpRun(s: State, id: nat, t: Target, listed: string, runId: string) returns (acts: seq<Action>)
    requires id !in s.attempts && Matches(s.c, t, listed) && LedgerFile(runId, t) !in s.ledger
    ensures var s' := Exec(s, acts);
      && TakenBack(s', id, LedgerFile(runId, t)) && s'.attempts.Keys == s.attempts.Keys + {id}
      && s'.c == s.c.(minted := s.c.minted + 1)
  {
    hide LedgerFile;
    hide Matches;
    hide Cleared;
    hide Exec;
    hide Intent;
    var auth := AuthorisedRun(s, id, t, listed, runId);
    var back := TakenBackRun(Exec(s, auth), id);
    ExecJoin(s, auth, back);
    acts := auth + back;
  }

  lemma PowerLossBringsItBack(s: State, id: nat, file: string)
    requires TakenBack(s, id, file)
    ensures Locked(Step(s, PowerLoss({file}, {})), file)
  {
    hide Intent;
  }

  /** Recording the intent does not mean that a second call can only be refused. From every
      matching site with an unspent budget there is a run on which attempt `id` has its intent
      on disk and gives up, and then attempt `other` passes on the very same file. Had the
      power failed in between instead, the first record could have come back and locked it. */
  lemma SecondCallCanPass(s: State, id: nat, other: nat, t: Target, listed: string, runId: string)
    returns (acts: seq<Action>, k: nat)
    requires Inv(s) && id !in s.attempts && other !in s.attempts && other != id
    requires Matches(s.c, t, listed) && LedgerFile(runId, t) !in s.ledger
    ensures k <= |acts| && Passes(s, acts, other, t, runId)
    ensures TakenBack(Exec(s, acts[..k]), id, LedgerFile(runId, t))
    ensures Locked(Step(Exec(s, acts[..k]), PowerLoss({LedgerFile(runId, t)}, {})), LedgerFile(runId, t))
  {
    assert ClusterOk(s.c);
    hide Inv;
    hide LedgerFile;
    hide Matches;
    hide Exec;
    hide Step;
    hide Passes;
    hide Locked;
    var first := GivesUpRun(s, id, t, listed, runId);
    var mid := Exec(s, first);
    PowerLossBringsItBack(mid, id, LedgerFile(runId, t));
    SameObjectsMatch(s.c, mid.c, t, listed);
    var second := UnspentBudgetCanPass(mid, other, t, listed, runId);
    PassesJoin(s, first, second, other, t, runId);
    acts, k := first + second, |first|;
    assert acts[..k] == first;
  }

  lemma PassesJoin(s: State, first: seq<Action>, second: seq<Action>, id: nat, t: Target, runId: string)
    requires Passes(Exec(s, first), second, id, t, runId)
    ensures Passes(s, first + second, id, t, runId)
  {
    hide Exec;
    ExecJoin(s, first, second);
  }

  lemma SameObjectsMatch(c: Cluster, c': Cluster, t: Target, listed: string)
    requires c' == c.(minted := c'.minted) && c.minted <= c'.minted && ClusterOk(c) && Matches(c, t, listed)
    ensures ClusterOk(c') && Matches(c', t, listed)
  {
  }
}
