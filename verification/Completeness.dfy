/** The protocol is not merely safe: on a site that matches the declaration and whose budget
    is unspent a new attempt can pass. */
module Completeness {
  import opened Wrappers
  import opened Cluster
  import opened Protocol
  import opened Invariant
  import opened Preservation
  import opened StepPreservation
  import opened Safety
  import opened Timeline
  import opened Replacement
  import opened Persistence

  /** Which pod is meant: the declared one, or `listed`, the daemon pod found on the node. */
  function PodRef(t: Target, listed: string): Ref {
    Ref(t.ns, if t.podName != "" then t.podName else listed)
  }

  /** The live claim is bound to a volume that is bound back to it, and the pod mounts it. */
  predicate ClaimMatches(c: Cluster, t: Target, p: Pod) {
    && ClaimRef(t) in c.claims && c.claims[ClaimRef(t)].uid != NO_UID
    && c.claims[ClaimRef(t)].volumeName != "" && c.claims[ClaimRef(t)].volumeName in c.volumes
    && c.volumes[c.claims[ClaimRef(t)].volumeName] == c.claims[ClaimRef(t)].uid
    && t.claimName in p.claims
  }

  predicate NodeMatches(c: Cluster, t: Target, p: Pod) {
    t.hostPath != "" && t.nodeName != "" && t.hostPath in p.hostPaths && t.nodeName in c.nodes && c.nodes[t.nodeName] != NO_UID
  }

  /** The cluster is as the target declares it: the named pod, or the one listed on the
      declared node, stands, is controlled by the declared controller at its live uid, and
      uses the declared storage. */
  predicate Matches(c: Cluster, t: Target, listed: string) {
    && (t.podName == "" ==> t.nodeName != "" && t.podSelector != "" && listed != "")
    && PodRef(t, listed) in c.pods && !Blank(t.ns) && !Blank(PodRef(t, listed).name)
    && var p, key := c.pods[PodRef(t, listed)], (t.controllerKind, Ref(t.ns, t.controllerName));
       && p.uid != NO_UID && p.ownerName == t.controllerName && p.ownerIsController
       && key in c.controllers && c.controllers[key] != NO_UID && p.ownerUid == c.controllers[key]
       && (if t.claimName != "" then ClaimMatches(c, t, p) else NodeMatches(c, t, p))
  }

  // ---- authorising -------------------------------------------------------------------------------

  /** What an undisturbed attempt has gathered when it stands before `read`. */
  ghost predicate Gathered(c: Cluster, a: Attempt, listed: string, read: AuthRead)
    requires Matches(c, a.t, listed)
  {
    && a.pc == Auth(read) && !a.armed && !a.wrote && a.req.None? && a.lastUid == NO_UID
    && (Rank(read) > 0 ==> a.ref == PodRef(a.t, listed))
    && (Rank(read) > 1 ==> a.podUid == c.pods[PodRef(a.t, listed)].uid)
    && (Rank(read) > 4 ==> a.controllerUid == c.controllers[(a.t.controllerKind, Ref(a.t.ns, a.t.controllerName))])
    && (Rank(read) > 5 ==> (a.t.claimName != "" <==> read.ClaimUid? || read.ClaimMounts? || read.ClaimVolume? || read.VolumeRef?))
    && (a.t.claimName != "" && Rank(read) > 6 ==> a.stableUid == c.claims[ClaimRef(a.t)].uid)
    && (a.t.claimName != "" && Rank(read) > 8 ==> a.volume == c.claims[ClaimRef(a.t)].volumeName)
  }

  /** What it holds once authorised. */
  ghost predicate Cleared(c: Cluster, a: Attempt, listed: string) {
    && !a.armed && !a.wrote && a.req.None? && a.lastUid == NO_UID
    && a.ref == PodRef(a.t, listed) && StandsAt(c, a.ref, a.podUid) && !Unnamed(a) && StableStill(c, a)
  }

  predicate StableStill(c: Cluster, a: Attempt) {
    a.t.claimName != "" ==> ClaimRef(a.t) in c.claims && c.claims[ClaimRef(a.t)].uid == a.stableUid != NO_UID
  }

  function ReadMove(listed: string, read: AuthRead): Move {
    if read == ResolveName then Resolve(listed) else Read(false)
  }

  /** A read moved the attempt on, to the next read or past the last one. */
  ghost predicate MovedOn(c: Cluster, a: Attempt, listed: string, read: AuthRead, b: Attempt)
    requires Matches(c, a.t, listed)
  {
    && b.t == a.t && b.file == a.file
    && (if b.pc.Auth? then Gathered(c, b, listed, b.pc.read) && Rank(b.pc.read) > Rank(read) else b.pc == Peeking && Cleared(c, b, listed))
  }

  lemma OwnerRead(c: Cluster, a: Attempt, listed: string, read: AuthRead)
    requires Matches(c, a.t, listed) && Gathered(c, a, listed, read) && Rank(read) <= 5
    ensures MovedOn(c, a, listed, read, Authorise(c, a, read, ReadMove(listed, read)))
  {
    hide Cleared;
    hide ClaimMatches;
  }

  lemma StorageRead(c: Cluster, a: Attempt, listed: string, read: AuthRead)
    requires Matches(c, a.t, listed) && Gathered(c, a, listed, read) && Rank(read) > 5
    ensures MovedOn(c, a, listed, read, Authorise(c, a, read, ReadMove(listed, read)))
  {
  }

  /** Nothing but the attempt has moved. */
  ghost predicate OnlyMoved(s: State, s': State, id: nat) {
    id in s'.attempts && s' == With(s, id, s'.attempts[id])
  }

  lemma LocalMove(s: State, id: nat, move: Move)
    requires id in s.attempts && Live(s.attempts[id]) && LocalPC(s.attempts[id])
    ensures Step(s, Do(id, move)) == With(s, id, Local(s, s.attempts[id], move))
  {
    hide Advance;
    hide Local;
    AdvanceIs(s, id, s.attempts[id], move);
  }

  lemma {:induction false} AuthoriseRun(s: State, id: nat, listed: string, read: AuthRead) returns (acts: seq<Action>)
    requires id in s.attempts && Matches(s.c, s.attempts[id].t, listed) && Gathered(s.c, s.attempts[id], listed, read)
    ensures var s' := Exec(s, acts);
      && OnlyMoved(s, s', id) && s'.attempts[id].pc == Peeking && Cleared(s.c, s'.attempts[id], listed)
      && s'.attempts[id].t == s.attempts[id].t && s'.attempts[id].file == s.attempts[id].file
    decreases 10 - Rank(read)
  {
    hide Matches;
    hide Cleared;
    hide Step;
    var act := Do(id, ReadMove(listed, read));
    ReadStep(s, id, listed, read);
    var s1 := Step(s, act);
    var b := s1.attempts[id];
    hide Gathered;
    if b.pc.Auth? {
      var rest := AuthoriseRun(s1, id, listed, b.pc.read);
      acts := [act] + rest;
      ExecCons(s, act, rest);
    } else {
      acts := [act];
      ExecCons(s, act, []);
    }
  }

  lemma ReadStep(s: State, id: nat, listed: string, read: AuthRead)
    requires id in s.attempts && Matches(s.c, s.attempts[id].t, listed) && Gathered(s.c, s.attempts[id], listed, read)
    ensures var s' := Step(s, Do(id, ReadMove(listed, read)));
      OnlyMoved(s, s', id) && MovedOn(s.c, s.attempts[id], listed, read, s'.attempts[id])
  {
    var a := s.attempts[id];
    if Rank(read) <= 5 { OwnerRead(s.c, a, listed, read); } else { StorageRead(s.c, a, listed, read); }
    LocalMove(s, id, ReadMove(listed, read));
    hide Matches;
    hide Cleared;
    hide Authorise;
    hide MovedOn;
    hide Advance;
  }

  lemma ExecCons(s: State, act: Action, rest: seq<Action>)
    ensures Exec(s, [act] + rest) == Exec(Step(s, act), rest)
  {
    hide Step;
    var acts := [act] + rest;
    ExecSplits(s, acts, 1);
    assert acts[..1] == [act] && acts[1..] == rest && [act][..0] == [];
  }

  // ---- claiming, writing, asking -------------------------------------------------------------------

  lemma FileMove(s: State, id: nat, move: Move)
    requires id in s.attempts && Live(s.attempts[id])
    ensures Step(s, Do(id, move)) == Advance(s, id, s.attempts[id], move)
  {
    hide Advance;
  }

  /** An unspent budget is claimed: the intent is flushed, the pods are as they were. */
  lemma ClaimRun(s: State, id: nat) returns (acts: seq<Action>)
    requires id in s.attempts && s.attempts[id].pc == Peeking && s.attempts[id].file !in s.ledger
    ensures var s' := Exec(s, acts);
      && id in s'.attempts && s'.attempts[id] == s.attempts[id].(pc := Writing, armed := true, token := s.c.minted + 1)
      && s'.c == s.c.(minted := s.c.minted + 1) && s'.reqs == s.reqs
  {
    var peek, create, fill := Do(id, Peek(false)), Do(id, Create(false)), Do(id, Fill(Flushed));
    acts := [peek, create, fill];
    ThreeSteps(s, acts);
    LocalMove(s, id, Peek(false));
    var s1 := Step(s, peek);
    assert s1 == With(s, id, s.attempts[id].(pc := Creating));
    hide Step;
    hide Exec;
    hide Advance;
    CreateStep(s1, id);
    FillStep(Step(s1, create), id);
  }

  lemma CreateStep(s: State, id: nat)
    requires id in s.attempts && s.attempts[id].pc == Creating && s.attempts[id].file !in s.ledger
    ensures var a, s' := s.attempts[id], Step(s, Do(id, Create(false)));
      && s'.attempts == s.attempts[id := a.(pc := Filling, token := s.c.minted + 1)] && s'.c == s.c.(minted := s.c.minted + 1)
      && s'.ledger == s.ledger[a.file := Partial] && s'.reqs == s.reqs
  {
    FileMove(s, id, Create(false));
  }

  lemma FillStep(s: State, id: nat)
    requires id in s.attempts && s.attempts[id].pc == Filling
    ensures var a, s' := s.attempts[id], Step(s, Do(id, Fill(Flushed)));
      s'.attempts == s.attempts[id := a.(pc := Writing, armed := true)] && s'.c == s.c && s'.reqs == s.reqs
  {
    FileMove(s, id, Fill(Flushed));
  }

  lemma AskRun(s: State, id: nat) returns (acts: seq<Action>)
    requires id in s.attempts && s.attempts[id].pc == Writing && StandsAt(s.c, s.attempts[id].ref, s.attempts[id].podUid)
    requires !Unnamed(s.attempts[id])
    ensures var a, s' := s.attempts[id], Exec(s, acts);
      && id in s'.attempts && s'.attempts[id] == a.(pc := Awaiting, wrote := true, req := Some(|s.reqs|))
      && s'.c == s.c.(data := s.c.data + {(LedgerKey(a.t), a.token)})
      && s'.reqs == s.reqs + [Request(id, a.file, a.ref, a.podUid, Pending)]
  {
    hide LedgerKey;
    var write, recheck, issue := Do(id, Write(true, true)), Do(id, Recheck(false)), Do(id, Issue(false));
    acts := [write, recheck, issue];
    ThreeSteps(s, acts);
    hide Step;
    hide Exec;
    hide Advance;
    WriteStep(s, id);
    var s1 := Step(s, write);
    LocalMove(s1, id, Recheck(false));
    var s2 := Step(s1, recheck);
    assert s2 == With(s1, id, s1.attempts[id].(pc := Issuing));
    IssueStep(s2, id);
  }

  lemma WriteStep(s: State, id: nat)
    requires id in s.attempts && s.attempts[id].pc == Writing
    ensures var a, s' := s.attempts[id], Step(s, Do(id, Write(true, true)));
      && id in s'.attempts && s'.attempts[id] == a.(pc := Rechecking, wrote := true)
      && s'.c == s.c.(data := s.c.data + {(LedgerKey(a.t), a.token)}) && s'.reqs == s.reqs
  {
    hide LedgerKey;
    hide ToClose;
  }

  lemma IssueStep(s: State, id: nat)
    requires id in s.attempts && s.attempts[id].pc == Issuing && !Unnamed(s.attempts[id])
    ensures var a, s' := s.attempts[id], Step(s, Do(id, Issue(false)));
      && id in s'.attempts && s'.attempts[id] == a.(pc := Awaiting, req := Some(|s.reqs|)) && s'.c == s.c
      && s'.reqs == s.reqs + [Request(id, a.file, a.ref, a.podUid, Pending)]
  {
    hide ToClose;
  }

  // ---- the replacement ------------------------------------------------------------------------------

  /** The server carries the delete out and the controller brings up a new Ready pod. */
  lemma ReplaceRun(s: State, id: nat, pod: Pod) returns (acts: seq<Action>)
    requires id in s.attempts && s.attempts[id].pc == Awaiting
    requires var a := s.attempts[id];
      a.req.Some? && a.req.value < |s.reqs| && s.reqs[a.req.value] == Request(id, a.file, a.ref, a.podUid, Pending) && StandsAt(s.c, a.ref, a.podUid)
    requires pod.uid != NO_UID && pod.uid !in s.c.used
    ensures var a, s' := s.attempts[id], Exec(s, acts);
      && id in s'.attempts && s'.attempts[id] == a.(pc := PollingUid)
      && s'.c.pods == s.c.pods[a.ref := pod] && s'.c.claims == s.c.claims && s'.c.data == s.c.data
  {
    var a := s.attempts[id];
    var serve, appear, answer := Serve(a.req.value, Admit(false)), World(PodAppears(a.ref, pod)), Do(id, Answer(false));
    acts := [serve, appear, answer];
    ThreeSteps(s, acts);
    var s1 := Step(s, serve);
    assert s1.c == s.c.(pods := s.c.pods - {a.ref}) && s1.reqs[a.req.value].status == Accepted && s1.attempts == s.attempts;
    var s2 := Step(s1, appear);
    assert s2.c.pods == s.c.pods[a.ref := pod] && s2.reqs == s1.reqs && s2.attempts == s.attempts;
    LocalMove(s2, id, Answer(false));
    assert Local(s2, a, Answer(false)) == a.(pc := PollingUid);
    hide Step;
    hide Exec;
  }

  lemma PollRun(s: State, id: nat) returns (acts: seq<Action>)
    requires id in s.attempts && s.attempts[id].pc == PollingUid && s.attempts[id].ref in s.c.pods
    requires var p := s.c.pods[s.attempts[id].ref]; p.ready && p.uid != NO_UID && p.uid != s.attempts[id].podUid
    ensures var a, s' := s.attempts[id], Exec(s, acts);
      && OnlyMoved(s, s', id)
      && s'.attempts[id] == a.(pc := if a.t.claimName != "" then ReadingClaim else Checking,
                               lastUid := s.c.pods[a.ref].uid, newUid := s.c.pods[a.ref].uid)
  {
    var a := s.attempts[id];
    var b := a.(lastUid := s.c.pods[a.ref].uid, pc := PollingReady);
    var uid, ready := Do(id, PollUid(false)), Do(id, PollReady(false));
    LocalMove(s, id, PollUid(false));
    var s1 := Step(s, uid);
    assert s1 == With(s, id, b);
    LocalMove(s1, id, PollReady(false));
    var s2 := Step(s1, ready);
    assert s2 == With(s1, id, b.(newUid := s.c.pods[a.ref].uid, pc := if a.t.claimName != "" then ReadingClaim else Checking));
    hide Step;
    acts := [uid, ready];
    ExecCons(s1, ready, []);
    ExecCons(s, uid, [ready]);
    assert [uid] + [ready] == acts;
  }

  // ---- confirming -----------------------------------------------------------------------------------

  lemma ClaimUnchangedRun(s: State, id: nat) returns (acts: seq<Action>)
    requires id in s.attempts && s.attempts[id].pc == (if s.attempts[id].t.claimName != "" then ReadingClaim else Checking)
    requires StableStill(s.c, s.attempts[id])
    ensures var a, s' := s.attempts[id], Exec(s, acts);
      && OnlyMoved(s, s', id)
      && s'.attempts[id] == a.(pc := Checking, claimAfter := s'.attempts[id].claimAfter)
  {
    acts := [];
    if s.attempts[id].t.claimName != "" {
      var act := Do(id, ReadClaim(false));
      LocalMove(s, id, ReadClaim(false));
      hide Step;
      acts := [act];
      ExecCons(s, act, []);
    }
  }

  lemma ConfirmRun(s: State, id: nat) returns (acts: seq<Action>)
    requires id in s.attempts && s.attempts[id].pc == Checking && InData(s, s.attempts[id])
    ensures id in Exec(s, acts).attempts && Exec(s, acts).attempts[id].pc == Finished(Passed)
    ensures Exec(s, acts).attempts[id].file == s.attempts[id].file && Exec(s, acts).attempts[id].t == s.attempts[id].t
  {
    hide LedgerKey;
    var a := s.attempts[id];
    var check, back, close := Do(id, AfterCheck(true)), Do(id, ReadBack(false)), Do(id, Close(Closed));
    acts := [check, back, close];
    ThreeSteps(s, acts);
    LocalMove(s, id, AfterCheck(true));
    var s1 := Step(s, check);
    assert s1 == With(s, id, a.(pc := ReadingBack));
    hide Step;
    hide Exec;
    hide Advance;
    ReadBackStep(s1, id);
    ClosedPass(Step(s1, back), id);
  }

  lemma ReadBackStep(s: State, id: nat)
    requires id in s.attempts && s.attempts[id].pc == ReadingBack && InData(s, s.attempts[id])
    ensures var a, s' := s.attempts[id], Step(s, Do(id, ReadBack(false)));
      && id in s'.attempts && SameButPC(a, s'.attempts[id]) && s'.attempts[id].pc.Closing? && s'.attempts[id].pc.why == Passed
  {
    hide LedgerKey;
    hide Terminal;
    LocalMove(s, id, ReadBack(false));
  }

  lemma ClosedPass(s: State, id: nat)
    requires id in s.attempts && s.attempts[id].pc.Closing? && s.attempts[id].pc.why == Passed
    ensures var s' := Step(s, Do(id, Close(Closed)));
      id in s'.attempts && s'.attempts[id] == s.attempts[id].(pc := Finished(Passed))
  {
  }

  // ---- the whole run -----------------------------------------------------------------------------------

  lemma ExecJoin(s: State, a: seq<Action>, b: seq<Action>)
    ensures Exec(s, a + b) == Exec(Exec(s, a), b)
  {
    hide Exec;
    ExecSplits(s, a + b, |a|);
    assert (a + b)[..|a|] == a && (a + b)[|a|..] == b;
  }

  /** A new attempt on a matching site gets through its authorisation. */
  lemma AuthorisedRun(s: State, id: nat, t: Target, listed: string, runId: string) returns (acts: seq<Action>)
    requires id !in s.attempts && Matches(s.c, t, listed)
    ensures var s' := Exec(s, acts);
      && OnlyMoved(s, s', id) && s'.attempts[id].pc == Peeking && Cleared(s.c, s'.attempts[id], listed)
      && s'.attempts[id].t == t && s'.attempts[id].file == LedgerFile(runId, t)
  {
    hide LedgerFile;
    hide Matches;
    hide Cleared;
    var start := Start(id, t, runId);
    var s1 := Step(s, start);
    assert s1 == With(s, id, NewAttempt(t, runId));
    NewGathered(s.c, t, listed, runId);
    hide Step;
    hide Exec;
    var auth := AuthoriseRun(s1, id, listed, ResolveName);
    ExecCons(s, start, auth);
    acts := [start] + auth;
  }

  lemma StartRun(s: State, id: nat, t: Target, listed: string, runId: string) returns (acts: seq<Action>)
    requires id !in s.attempts && Matches(s.c, t, listed) && LedgerFile(runId, t) !in s.ledger
    ensures var s' := Exec(s, acts);
      && id in s'.attempts && s'.attempts[id].pc == Writing && s'.attempts[id].t == t
      && s'.attempts[id].file == LedgerFile(runId, t)
      && Cleared(s.c, s'.attempts[id].(armed := false), listed) && s'.c == s.c.(minted := s.c.minted + 1)
  {
    hide LedgerFile;
    hide Matches;
    hide Step;
    hide Exec;
    var auth := AuthorisedRun(s, id, t, listed, runId);
    var claim := ClaimRun(Exec(s, auth), id);
    ExecJoin(s, auth, claim);
    acts := auth + claim;
  }

  lemma NewGathered(c: Cluster, t: Target, listed: string, runId: string)
    requires Matches(c, t, listed)
    ensures Gathered(c, NewAttempt(t, runId), listed, ResolveName)
  {
    hide Matches;
  }

  lemma ChangeRun(s: State, id: nat, listed: string, pod: Pod) returns (acts: seq<Action>)
    requires id in s.attempts && s.attempts[id].pc == Writing && Cleared(s.c, s.attempts[id].(armed := false), listed)
    requires pod.ready && pod.uid != NO_UID && pod.uid !in s.c.used && s.attempts[id].podUid in s.c.used
    ensures var a, s' := s.attempts[id], Exec(s, acts);
      && id in s'.attempts && s'.attempts[id].pc == (if a.t.claimName != "" then ReadingClaim else Checking)
      && s'.attempts[id].t == a.t && s'.attempts[id].file == a.file && StableStill(s'.c, s'.attempts[id]) && InData(s', s'.attempts[id])
  {
    hide LedgerKey;
    hide Exec;
    var ask := AskRun(s, id);
    var s1 := Exec(s, ask);
    var replace := ReplaceRun(s1, id, pod);
    var s2 := Exec(s1, replace);
    var poll := PollRun(s2, id);
    ExecJoin(s1, replace, poll);
    ExecJoin(s, ask, replace + poll);
    acts := ask + (replace + poll);
  }

  lemma {:induction false} FreshUid(used: set<Uid>) returns (uid: Uid)
    ensures uid != NO_UID && forall u :: u in used ==> u < uid
  {
    if used == {} {
      uid := 1;
    } else {
      var u :| u in used;
      var v := FreshUid(used - {u});
      uid := if u < v then v else u + 1;
      assert used == (used - {u}) + {u};
    }
  }

  /** The run brings attempt `id`, on this target and base run, to a pass. */
  ghost predicate Passes(s: State, acts: seq<Action>, id: nat, t: Target, runId: string) {
    && id in Exec(s, acts).attempts
    && var a := Exec(s, acts).attempts[id]; a.t == t && a.file == LedgerFile(runId, t) && a.pc == Finished(Passed)
  }

  /** On any site whose cluster matches the declaration and whose ledger file is not there, a
      new attempt has a run on which it passes. */
  lemma UnspentBudgetCanPass(s: State, id: nat, t: Target, listed: string, runId: string) returns (acts: seq<Action>)
    requires ClusterOk(s.c) && id !in s.attempts && Matches(s.c, t, listed) && LedgerFile(runId, t) !in s.ledger
    ensures Passes(s, acts, id, t, runId)
  {
    hide LedgerFile;
    hide LedgerKey;
    hide Exec;
    hide Matches;
    var uid := FreshUid(s.c.used);
    var start := StartRun(s, id, t, listed, runId);
    var s1 := Exec(s, start);
    var change := ChangeRun(s1, id, listed, Pod(uid, "", false, NO_UID, {}, {}, true, false));
    var s2 := Exec(s1, change);
    var same := ClaimUnchangedRun(s2, id);
    var s3 := Exec(s2, same);
    var confirm := ConfirmRun(s3, id);
    ExecJoin(s2, same, confirm);
    ExecJoin(s1, change, same + confirm);
    ExecJoin(s, start, change + (same + confirm));
    acts := start + (change + (same + confirm));
  }
}
