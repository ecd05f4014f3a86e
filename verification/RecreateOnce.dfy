/** The program text of one recreation, line by line, against the transition system:
    every call reads or writes the live site, everybody else may act before it, and the
    control flow compares what was read as the program does. The contracts say that
    the program is exactly one attempt of the protocol, so the run-wide promises of
    Safety and Persistence are promises about this code. */
module RecreateOnce {
  import opened Wrappers
  import opened Cluster
  import opened Protocol
  import opened Invariant
  import opened Preservation
  import opened StepPreservation
  import opened Safety
  import opened Timeline
  import opened Persistence
  import opened Verdicts
  import opened Driver

  datatype Status = Pass | Failed | NotRun

  /** A step's outcome as the plan layer sees it. */
  datatype StepResult = StepResult(status: Status, quota: Option<LedgerState>)

  datatype DeleteOutcome =
    | OutcomeDeleted | OutcomeConflict | OutcomeNotFound | OutcomeForbidden | OutcomeTimeout | OutcomeFailed

  /** The attempt never created its ledger file. */
  predicate Untouched(a: Attempt) {
    !a.armed && !a.pc.Filling? && a.pc != Finished(ClaimFailed)
  }

  lemma UntouchedFileMoves(s: State, id: nat, a: Attempt)
    ensures forall err :: var s' := CreateFile(s, id, a, err); Untouched(s'.attempts[id]) ==> s'.ledger == s.ledger
    ensures forall fill :: !Untouched(FillLedger(s, id, a, fill).attempts[id])
    ensures forall ok, landed :: WriteToken(s, id, a, ok, landed).ledger == s.ledger
    ensures forall blocked :: IssueDelete(s, id, a, blocked).ledger == s.ledger
  {
  }

  lemma LocalKeepsUntouched(s: State, a: Attempt, move: Move)
    requires LocalPC(a) && Live(a)
    ensures Untouched(Local(s, a, move)) ==> Untouched(a)
  {
    if a.pc.Auth? { AuthoriseShape(s.c, a, a.pc.read, move); }
  }

  lemma ClosingIsArmed(s: State, id: nat)
    requires Inv(s) && id in s.attempts
    ensures s.attempts[id].pc.Closing? || s.attempts[id].pc.Writing? || s.attempts[id].pc.Issuing? ==> s.attempts[id].armed
  {
    assert AttemptOk(s, s.attempts[id]);
  }

  /** Until an attempt creates its file, it changes no file at all. */
  lemma UntouchedMove(s: State, id: nat, move: Move, s': State)
    requires Inv(s) && id in s.attempts && Live(s.attempts[id]) && !move.Crash?
    requires s' == Advance(s, id, s.attempts[id], move) && id in s'.attempts && Untouched(s'.attempts[id])
    ensures Untouched(s.attempts[id]) && s'.ledger == s.ledger
  {
    hide Advance;
    hide Local;
    hide Inv;
    var a := s.attempts[id];
    ClosingIsArmed(s, id);
    AdvanceIs(s, id, a, move);
    if LocalPC(a) {
      LocalKeepsUntouched(s, a, move);
    } else {
      UntouchedFileMoves(s, id, a);
    }
  }

  class Site {
    ghost const s0: State
    ghost var acts: seq<Action>
    var s: State
    var clock: nat
    var polls: nat
    const alone: bool
    ghost var current: nat
    ghost var base: map<string, File>
    ghost var file: string

    ghost predicate Valid()
      reads this
    {
      Init(s0) && s == Exec(s0, acts) && Solitary()
    }

    /** When no other attempt runs, only the current attempt's file can have changed since
        it began, and nothing has before it created that file. */
    ghost predicate Solitary()
      reads this
    {
      alone ==>
        && OnlyFile(base, s.ledger, file)
        && (current in s.attempts ==>
              s.attempts[current].file == file && (Untouched(s.attempts[current]) ==> s.ledger == base))
    }

    /** The action is the cluster's, the server's, or the current attempt's own. */
    ghost predicate Permitted(act: Action)
      reads this
    {
      alone ==> NoAttempt(act) || (act.Do? && act.id == current && !act.move.Crash?)
    }

    lemma PermittedKeepsSolitary(act: Action)
      requires Valid() && Permitted(act)
      ensures alone ==>
        var s' := Step(s, act);
        && OnlyFile(base, s'.ledger, file)
        && (current in s'.attempts ==>
              s'.attempts[current].file == file && (Untouched(s'.attempts[current]) ==> s'.ledger == base))
    {
      hide Inv;
      hide Advance;
      hide Exec;
      if alone && act.Do? && current in s.attempts && Live(s.attempts[current]) {
        AdvanceWithin(s, current, s.attempts[current], act.move);
        Reachable(s0, acts);
        if Untouched(Step(s, act).attempts[current]) { UntouchedMove(s, current, act.move, Step(s, act)); }
      }
    }

    /** Valid, and attempt `id` stands exactly where the program text is. */
    ghost predicate At(id: nat, a: Attempt)
      reads this
    {
      Valid() && id in s.attempts && s.attempts[id] == a && (alone ==> id == current)
    }

    /** Where the attempt will end, each of its remaining calls meeting its fate. */
    ghost function Ahead(id: nat, fate: Fate): State
      reads this
    {
      Drive(s, id, fate, clock, polls, alone)
    }

    /** The same once the others have acted and the attempt's own call is next. */
    ghost function AheadNow(id: nat, fate: Fate): State
      requires id in s.attempts
      reads this
    {
      Due(s, id, fate, clock, polls, alone)
    }

    /** The run only grew, and the attempt is still on its way to the same end. */
    twostate predicate Onward(id: nat, fate: Fate)
      reads this
    {
      old(acts) <= acts && Ahead(id, fate) == old(Ahead(id, fate))
    }

    constructor (site: State, alone: bool)
      requires Init(site)
      ensures Valid() && s == site && acts == [] && this.alone == alone
    {
      s0, s, acts, clock, polls := site, site, [], 0, 0;
      this.alone := alone;
      current, base, file := 0, site.ledger, "";
    }

    method Act(act: Action)
      requires Valid() && Permitted(act)
      modifies `s, `acts, `clock, `polls
      ensures Valid() && s == Step(old(s), act) && acts == old(acts) + [act] && clock == old(clock) && polls == old(polls)
    {
      hide Step;
      hide Exec;
      hide Init;
      hide OnlyFile;
      hide Untouched;
      PermittedKeepsSolitary(act);
      ExecSnoc(s0, acts, act);
      s := Step(s, act);
      acts := acts + [act];
    }

    /** Anything others do leaves this attempt's own locals alone. */
    method OthersAct(id: nat, others: seq<Action>)
      requires Valid() && (alone ==> id == current) && id in s.attempts
      modifies `s, `acts, `clock, `polls
      ensures At(id, old(s.attempts[id])) && clock == old(clock) && polls == old(polls) && old(acts) <= acts
      ensures s == Exec(old(s), Around(others, id, alone))
    {
      hide Step;
      hide Exec;
      ExecNone(s);
      for n := 0 to |others|
        invariant At(id, old(s.attempts[id])) && clock == old(clock) && polls == old(polls) && old(acts) <= acts
        invariant s == Exec(old(s), Around(others[..n], id, alone))
      {
        assert others[..n + 1] == others[..n] + [others[n]];
        AroundSnoc(others[..n], others[n], id, alone);
        if Elsewhere(others[n], id) && (alone ==> NoAttempt(others[n])) {
          ElsewhereLeavesAlone(s, others[n], id);
          ExecSnoc(old(s), Around(others[..n], id, alone), others[n]);
          Act(others[n]);
        }
      }
      assert others[..|others|] == others;
    }

    /** What happens before the attempt's next call. */
    method Interfere(id: nat, fate: Fate)
      requires Valid() && (alone ==> id == current) && id in s.attempts && Live(s.attempts[id])
      modifies `s, `acts, `clock, `polls
      ensures At(id, old(s.attempts[id])) && clock == old(clock) && polls == old(polls) && old(acts) <= acts
      ensures AheadNow(id, fate) == old(Ahead(id, fate))
    {
      DriveTurns(s0, acts, id, fate, clock, polls, alone);
      hide Drive;
      hide Due;
      hide Exec;
      OthersAct(id, fate.others(clock));
    }

    /** The attempt's own move. */
    method Take(id: nat, a: Attempt, move: Move, fate: Fate)
      requires At(id, a) && Live(a) && move == MoveFor(s, a, fate, clock, polls) && !move.Crash?
      modifies `s, `acts, `clock, `polls
      ensures Valid() && s == Advance(old(s), id, a, move) && clock == old(clock) + 1 && old(acts) <= acts
      ensures polls == PollsLeft(move, old(polls)) && Ahead(id, fate) == old(AheadNow(id, fate))
    {
      hide Advance;
      hide Exec;
      hide Drive;
      Act(Do(id, move));
      clock := clock + 1;
      polls := PollsLeft(move, polls);
    }

    /** A call of this attempt that only reads. */
    method Call(id: nat, a: Attempt, move: Move, fate: Fate)
      requires At(id, a) && Live(a) && LocalPC(a) && move == MoveFor(s, a, fate, clock, polls) && !move.Crash?
      modifies `s, `acts, `clock, `polls
      ensures At(id, Local(old(s), a, move)) && clock == old(clock) + 1 && old(acts) <= acts
      ensures polls == PollsLeft(move, old(polls)) && Ahead(id, fate) == old(AheadNow(id, fate))
    {
      AdvanceIs(s, id, a, move);
      hide Advance;
      hide Local;
      hide Exec;
      hide Drive;
      hide Due;
      Take(id, a, move, fate);
    }

    // ---- reads of the authorisation ------------------------------------------------

    /** One field of the pod at the name; None when the read fails or nothing is there. */
    method ReadPod(id: nat, a: Attempt, read: AuthRead, fate: Fate) returns (pod: Option<Pod>)
      requires At(id, a) && a.pc == Auth(read) && ReadsPod(read)
      modifies `s, `acts, `clock, `polls
      ensures Onward(id, fate)
      ensures pod.None? ==> At(id, Refuse(a))
      ensures pod.Some? && !PodFact(a, read, pod.value) ==> At(id, Refuse(a))
      ensures pod.Some? && PodFact(a, read, pod.value) ==>
        At(id, a.(pc := Next(a.t, read), podUid := if read == PodUid then pod.value.uid else a.podUid))
      ensures fate.err(old(clock)) ==> pod.None?
    {
      hide Init;
      hide OnlyFile;
      hide Untouched;
      hide Drive;
      hide Due;
      hide Exec;
      hide Step;
      Interfere(id, fate);
      var err := fate.err(clock);
      pod := if err || a.ref !in s.c.pods then None else Some(s.c.pods[a.ref]);
      Call(id, a, Read(err), fate);
    }

    method ReadControllerUid(id: nat, a: Attempt, fate: Fate) returns (uid: Uid)
      requires At(id, a) && a.pc == Auth(ControllerUid)
      modifies `s, `acts, `clock, `polls
      ensures Onward(id, fate)
      ensures At(id, if uid == NO_UID then Refuse(a) else a.(pc := Auth(OwnerUid), controllerUid := uid))
      ensures fate.err(old(clock)) ==> uid == NO_UID
    {
      hide Init;
      hide OnlyFile;
      hide Untouched;
      hide Drive;
      hide Due;
      hide Exec;
      hide Step;
      Interfere(id, fate);
      var err := fate.err(clock);
      var key := (a.t.controllerKind, Ref(a.t.ns, a.t.controllerName));
      uid := if err || key !in s.c.controllers then NO_UID else s.c.controllers[key];
      Call(id, a, Read(err), fate);
    }

    method ReadClaimUid(id: nat, a: Attempt, fate: Fate) returns (uid: Uid)
      requires At(id, a) && a.pc == Auth(ClaimUid)
      modifies `s, `acts, `clock, `polls
      ensures Onward(id, fate)
      ensures At(id, if uid == NO_UID then Refuse(a) else a.(pc := Auth(ClaimMounts), stableUid := uid))
      ensures fate.err(old(clock)) ==> uid == NO_UID
    {
      hide Init;
      hide OnlyFile;
      hide Untouched;
      hide Drive;
      hide Due;
      hide Exec;
      hide Step;
      Interfere(id, fate);
      var err := fate.err(clock);
      var key := Ref(a.t.ns, a.t.claimName);
      uid := if err || key !in s.c.claims then NO_UID else s.c.claims[key].uid;
      Call(id, a, Read(err), fate);
    }

    method ReadClaimVolume(id: nat, a: Attempt, fate: Fate) returns (volume: string)
      requires At(id, a) && a.pc == Auth(ClaimVolume)
      modifies `s, `acts, `clock, `polls
      ensures Onward(id, fate)
      ensures At(id, if volume == "" then Refuse(a) else a.(pc := Auth(VolumeRef), volume := volume))
      ensures fate.err(old(clock)) ==> volume == ""
    {
      hide Init;
      hide OnlyFile;
      hide Untouched;
      hide Drive;
      hide Due;
      hide Exec;
      hide Step;
      Interfere(id, fate);
      var err := fate.err(clock);
      var key := Ref(a.t.ns, a.t.claimName);
      volume := if err || key !in s.c.claims then "" else s.c.claims[key].volumeName;
      Call(id, a, Read(err), fate);
    }

    method ReadVolumeClaimant(id: nat, a: Attempt, fate: Fate) returns (uid: Option<Uid>)
      requires At(id, a) && a.pc == Auth(VolumeRef)
      modifies `s, `acts, `clock, `polls
      ensures Onward(id, fate)
      ensures At(id, if uid == Some(a.stableUid) then a.(pc := Peeking) else Refuse(a))
      ensures fate.err(old(clock)) ==> uid.None?
    {
      hide Init;
      hide OnlyFile;
      hide Untouched;
      hide Drive;
      hide Due;
      hide Exec;
      hide Step;
      Interfere(id, fate);
      var err := fate.err(clock);
      uid := if err || a.volume !in s.c.volumes then None else Some(s.c.volumes[a.volume]);
      Call(id, a, Read(err), fate);
    }

    method ReadNodeUid(id: nat, a: Attempt, fate: Fate) returns (uid: Uid)
      requires At(id, a) && a.pc == Auth(NodeUid)
      modifies `s, `acts, `clock, `polls
      ensures Onward(id, fate)
      ensures At(id, if uid == NO_UID then Refuse(a) else a.(pc := Peeking, stableUid := uid))
      ensures fate.err(old(clock)) ==> uid == NO_UID
    {
      hide Init;
      hide OnlyFile;
      hide Untouched;
      hide Drive;
      hide Due;
      hide Exec;
      hide Step;
      Interfere(id, fate);
      var err := fate.err(clock);
      uid := if err || a.t.nodeName !in s.c.nodes then NO_UID else s.c.nodes[a.t.nodeName];
      Call(id, a, Read(err), fate);
    }

    /** Which pod is meant: the declared one, or the daemon pod listed on the node. */
    method ResolvePod(id: nat, a: Attempt, fate: Fate) returns (name: string)
      requires At(id, a) && a.pc == Auth(ResolveName)
      modifies `s, `acts, `clock, `polls
      ensures Onward(id, fate)
      ensures At(id, if name == "" then Refuse(a) else a.(ref := Ref(a.t.ns, name), pc := Auth(PodUid)))
      ensures name == (if a.t.podName != "" then a.t.podName
                       else if a.t.nodeName != "" && a.t.podSelector != "" && !fate.err(old(clock)) then fate.listed(old(clock)) else "")
    {
      hide Drive;
      hide Due;
      hide Exec;
      hide Step;
      Interfere(id, fate);
      name := a.t.podName;
      if name == "" && a.t.nodeName != "" && a.t.podSelector != "" && !fate.err(clock) {
        name := fate.listed(clock);
      }
      Call(id, a, Resolve(name), fate);
    }

    // ---- authorizeTarget -------------------------------------------------------------

    method AuthorizeOwnerName(id: nat, fate: Fate) returns (ok: bool)
      requires Valid() && (alone ==> id == current) && id in s.attempts && s.attempts[id].pc == Auth(PodUid)
      modifies `s, `acts, `clock, `polls
      ensures Onward(id, fate)
      ensures Valid() && id in s.attempts && s.attempts[id].t == old(s.attempts[id].t)
      ensures s.attempts[id].file == old(s.attempts[id].file) && s.attempts[id].armed == old(s.attempts[id].armed)
      ensures s.attempts[id].pc == if ok then Auth(OwnerFlag) else Finished(Unauthorised)
    {
      hide Valid;
      hide Ahead;
      var a := s.attempts[id];
      var pod := ReadPod(id, a, PodUid, fate);
      if pod.None? || pod.value.uid == NO_UID { return false; }
      a := s.attempts[id];
      pod := ReadPod(id, a, OwnerName, fate);
      ok := pod.Some? && pod.value.ownerName == a.t.controllerName;
    }

    /** The live controller's uid is the one the pod names as its owner. */
    method AuthorizeGeneration(id: nat, fate: Fate) returns (ok: bool)
      requires Valid() && (alone ==> id == current) && id in s.attempts && s.attempts[id].pc == Auth(ControllerUid)
      modifies `s, `acts, `clock, `polls
      ensures Onward(id, fate)
      ensures Valid() && id in s.attempts && s.attempts[id].t == old(s.attempts[id].t)
      ensures s.attempts[id].file == old(s.attempts[id].file) && s.attempts[id].armed == old(s.attempts[id].armed)
      ensures s.attempts[id].pc == if ok then Next(s.attempts[id].t, OwnerUid) else Finished(Unauthorised)
    {
      hide Drive;
      hide Due;
      hide Exec;
      hide Step;
      var a := s.attempts[id];
      var controllerUid := ReadControllerUid(id, a, fate);
      if controllerUid == NO_UID { return false; }
      a := s.attempts[id];
      var pod := ReadPod(id, a, OwnerUid, fate);
      ok := pod.Some? && pod.value.ownerUid == controllerUid;
    }

    /** Owner generation: the pod's controlling owner is the declared controller at its
        live uid. Each of the five reads may see a different pod. */
    method AuthorizeOwner(id: nat, fate: Fate) returns (ok: bool)
      requires Valid() && (alone ==> id == current) && id in s.attempts && s.attempts[id].pc == Auth(PodUid)
      modifies `s, `acts, `clock, `polls
      ensures Onward(id, fate)
      ensures Valid() && id in s.attempts && s.attempts[id].t == old(s.attempts[id].t)
      ensures s.attempts[id].file == old(s.attempts[id].file) && s.attempts[id].armed == old(s.attempts[id].armed)
      ensures s.attempts[id].pc == if ok then Next(s.attempts[id].t, OwnerUid) else Finished(Unauthorised)
    {
      hide Valid;
      hide Ahead;
      ok := AuthorizeOwnerName(id, fate);
      if !ok { return; }
      var a := s.attempts[id];
      var pod := ReadPod(id, a, OwnerFlag, fate);
      if pod.None? || !pod.value.ownerIsController { return false; }
      ok := AuthorizeGeneration(id, fate);
    }

    /** The declared claim is mounted, bound, and its volume points back at it. */
    method AuthorizeClaim(id: nat, fate: Fate) returns (ok: bool)
      requires Valid() && (alone ==> id == current) && id in s.attempts && s.attempts[id].pc == Auth(ClaimUid)
      modifies `s, `acts, `clock, `polls
      ensures Onward(id, fate)
      ensures Valid() && id in s.attempts && s.attempts[id].t == old(s.attempts[id].t)
      ensures s.attempts[id].file == old(s.attempts[id].file) && s.attempts[id].armed == old(s.attempts[id].armed)
      ensures s.attempts[id].pc == if ok then Peeking else Finished(Unauthorised)
    {
      hide Valid;
      hide Local;
      hide Ahead;
      ok := false;
      var a := s.attempts[id];
      var stableUid := ReadClaimUid(id, a, fate);
      if stableUid == NO_UID { return; }
      ok := AuthorizeMount(id, fate);
    }

    method AuthorizeMount(id: nat, fate: Fate) returns (ok: bool)
      requires Valid() && (alone ==> id == current) && id in s.attempts && s.attempts[id].pc == Auth(ClaimMounts)
      modifies `s, `acts, `clock, `polls
      ensures Onward(id, fate)
      ensures Valid() && id in s.attempts && s.attempts[id].t == old(s.attempts[id].t)
      ensures s.attempts[id].file == old(s.attempts[id].file) && s.attempts[id].armed == old(s.attempts[id].armed)
      ensures s.attempts[id].pc == if ok then Peeking else Finished(Unauthorised)
    {
      hide Valid;
      hide Ahead;
      hide Local;
      var a := s.attempts[id];
      var pod := ReadPod(id, a, ClaimMounts, fate);
      if pod.None? || a.t.claimName !in pod.value.claims { return false; }
      ok := AuthorizeVolume(id, fate);
    }

    method AuthorizeVolume(id: nat, fate: Fate) returns (ok: bool)
      requires Valid() && (alone ==> id == current) && id in s.attempts && s.attempts[id].pc == Auth(ClaimVolume)
      modifies `s, `acts, `clock, `polls
      ensures Onward(id, fate)
      ensures Valid() && id in s.attempts && s.attempts[id].t == old(s.attempts[id].t)
      ensures s.attempts[id].file == old(s.attempts[id].file) && s.attempts[id].armed == old(s.attempts[id].armed)
      ensures s.attempts[id].pc == if ok then Peeking else Finished(Unauthorised)
    {
      hide Valid;
      hide Ahead;
      var a := s.attempts[id];
      var volume := ReadClaimVolume(id, a, fate);
      if volume == "" { return false; }
      a := s.attempts[id];
      var claimant := ReadVolumeClaimant(id, a, fate);
      ok := claimant == Some(a.stableUid);
    }

    /** A collector's state is its node's directory: really mounted, on a readable node. */
    method AuthorizeHostPath(id: nat, fate: Fate) returns (ok: bool)
      requires Valid() && (alone ==> id == current) && id in s.attempts && s.attempts[id].pc == Auth(HostMounts)
      modifies `s, `acts, `clock, `polls
      ensures Onward(id, fate)
      ensures Valid() && id in s.attempts && s.attempts[id].t == old(s.attempts[id].t)
      ensures s.attempts[id].file == old(s.attempts[id].file) && s.attempts[id].armed == old(s.attempts[id].armed)
      ensures s.attempts[id].pc == if ok then Peeking else Finished(Unauthorised)
    {
      hide Drive;
      hide Due;
      ok := false;
      var a := s.attempts[id];
      var pod := ReadPod(id, a, HostMounts, fate);
      if pod.None? || a.t.hostPath !in pod.value.hostPaths { return; }
      a := s.attempts[id];
      var nodeUid := ReadNodeUid(id, a, fate);
      if nodeUid == NO_UID { return; }
      ok := true;
    }

    method AuthorizeTarget(id: nat, fate: Fate) returns (ok: bool)
      requires Valid() && (alone ==> id == current) && id in s.attempts && s.attempts[id].pc == Auth(ResolveName)
      modifies `s, `acts, `clock, `polls
      ensures Onward(id, fate)
      ensures Valid() && id in s.attempts && s.attempts[id].t == old(s.attempts[id].t)
      ensures s.attempts[id].file == old(s.attempts[id].file) && s.attempts[id].armed == old(s.attempts[id].armed)
      ensures s.attempts[id].pc == if ok then Peeking else Finished(Unauthorised)
    {
      hide Valid;
      hide Ahead;
      var a := s.attempts[id];
      var name := ResolvePod(id, a, fate);
      if name == "" { return false; }
      ok := AuthorizeOwner(id, fate);
      if !ok { return; }
      ok := AuthorizeStorage(id, fate);
    }

    method AuthorizeStorage(id: nat, fate: Fate) returns (ok: bool)
      requires Valid() && (alone ==> id == current) && id in s.attempts && s.attempts[id].pc == Next(s.attempts[id].t, OwnerUid)
      modifies `s, `acts, `clock, `polls
      ensures Onward(id, fate)
      ensures Valid() && id in s.attempts && s.attempts[id].t == old(s.attempts[id].t)
      ensures s.attempts[id].file == old(s.attempts[id].file) && s.attempts[id].armed == old(s.attempts[id].armed)
      ensures s.attempts[id].pc == if ok then Peeking else Finished(Unauthorised)
    {
      hide Drive;
      hide Due;
      var a := s.attempts[id];
      if a.t.claimName != "" {
        ok := AuthorizeClaim(id, fate);
      } else if a.t.hostPath != "" && a.t.nodeName != "" {
        ok := AuthorizeHostPath(id, fate);
      } else {
        ok := false;
      }
    }

    // ---- the ledger --------------------------------------------------------------------

    method PeekLedger(id: nat, a: Attempt, fate: Fate) returns (err: bool, found: Option<File>)
      requires At(id, a) && a.pc == Peeking && Untouched(a)
      modifies `s, `acts, `clock, `polls
      ensures Onward(id, fate)
      ensures alone ==> (found.Some? <==> a.file in base)
      ensures At(id, a.(pc := if err then Finished(LedgerError) else if found.Some? then Finished(AlreadyRecorded) else Creating))
      ensures err == fate.err(old(clock))
      ensures alone && found.Some? ==> found.value == base[a.file]
    {
      hide Drive;
      hide Due;
      Interfere(id, fate);
      err := fate.err(clock);
      found := if a.file in s.ledger then Some(s.ledger[a.file]) else None;
      Call(id, a, Peek(err), fate);
    }

    method CreateExclusive(id: nat, a: Attempt, fate: Fate) returns (err: bool, created: bool, existing: Option<File>)
      requires At(id, a) && a.pc == Creating && Untouched(a)
      modifies `s, `acts, `clock, `polls
      ensures Onward(id, fate)
      ensures existing.Some? <==> !created && !err
      ensures alone && existing.Some? ==> a.file in base
      ensures created ==> !err && Valid() && id in s.attempts && s.attempts[id] == a.(pc := Filling, token := s.attempts[id].token)
      ensures !created ==> At(id, a.(pc := Finished(if err then ClaimFailed else ClaimedElsewhere)))
      ensures err == fate.err(old(clock))
    {
      hide Drive;
      hide Due;
      hide Exec;
      hide Advance;
      Interfere(id, fate);
      err := fate.err(clock);
      created := !err && a.file !in s.ledger;
      existing := if err || created then None else Some(s.ledger[a.file]);
      AdvanceIs(s, id, a, Create(err));
      Take(id, a, Create(err), fate);
    }

    method FlushIntent(id: nat, a: Attempt, fate: Fate) returns (err: bool)
      requires At(id, a) && a.pc == Filling
      modifies `s, `acts, `clock, `polls
      ensures Onward(id, fate)
      ensures At(id, if err then a.(pc := Finished(ClaimFailed)) else a.(pc := Writing, armed := true))
      ensures err <==> fate.fill(old(clock)) != Flushed
    {
      hide Drive;
      hide Due;
      hide Exec;
      hide Advance;
      Interfere(id, fate);
      var fill := fate.fill(clock);
      AdvanceIs(s, id, a, Fill(fill));
      Take(id, a, Fill(fill), fate);
      err := !fill.Flushed?;
    }

    /** The exclusive create, then the flushed write: two steps others can get between. */
    method ClaimLedger(id: nat, a: Attempt, fate: Fate) returns (err: bool, created: bool, existing: Option<File>)
      requires At(id, a) && a.pc == Creating && Untouched(a)
      modifies `s, `acts, `clock, `polls
      ensures Onward(id, fate)
      ensures Valid() && id in s.attempts && !(err && created) && (existing.Some? <==> !created && !err)
      ensures alone && existing.Some? ==> a.file in base
      ensures created ==> s.attempts[id] == a.(token := s.attempts[id].token, armed := true, pc := Writing)
      ensures !created ==> s.attempts[id].pc == Finished(if err then ClaimFailed else ClaimedElsewhere)
      ensures s.attempts[id].t == a.t && s.attempts[id].file == a.file
    {
      hide Drive;
      hide Due;
      err, created, existing := CreateExclusive(id, a, fate);
      if created {
        var b := s.attempts[id];
        err := FlushIntent(id, b, fate);
        created := !err;
      }
    }

    /** Rewrites the record with its terminal state. */
    method FinalizeLedger(id: nat, a: Attempt, rec: Record, fate: Fate) returns (err: bool)
      requires At(id, a) && a.pc.Closing? && a.pc.rec == rec
      modifies `s, `acts, `clock, `polls
      ensures Onward(id, fate)
      ensures At(id, a.(pc := Finished(if err && a.pc.why == Passed then LedgerNotClosed else a.pc.why)))
      ensures err <==> fate.close(old(clock)) != Closed
    {
      hide Drive;
      hide Due;
      Interfere(id, fate);
      var close := fate.close(clock);
      CloseFile(id, a, close, fate);
      err := !close.Closed?;
    }

    method CloseFile(id: nat, a: Attempt, close: CloseOutcome, fate: Fate)
      requires At(id, a) && a.pc.Closing? && close == fate.close(clock)
      modifies `s, `acts, `clock, `polls
      ensures old(acts) <= acts && Ahead(id, fate) == old(AheadNow(id, fate))
      ensures At(id, a.(pc := Finished(if !close.Closed? && a.pc.why == Passed then LedgerNotClosed else a.pc.why)))
    {
      hide Drive;
      hide Due;
      hide Exec;
      hide Advance;
      AdvanceIs(s, id, a, Close(close));
      Take(id, a, Close(close), fate);
    }

    /** Closing the record ends the attempt; a pass that could not be recorded is none. */
    method CloseRecord(id: nat, rec: Record, why: Reason, fate: Fate) returns (r: StepResult)
      requires Valid() && (alone ==> id == current) && id in s.attempts
      requires s.attempts[id].pc == Closing(rec, why) && !ForQuota(why)
      modifies `s, `acts, `clock, `polls
      ensures Onward(id, fate)
      ensures Valid() && id in s.attempts
      ensures !QuotaRefused(s.attempts[id])
      ensures Ended(s.attempts[id].pc, r.status, r.quota)
      ensures why != Passed ==> r == StepResult(Failed, BudgetAfter(why))
      ensures s.attempts[id].t == old(s.attempts[id].t) && s.attempts[id].file == old(s.attempts[id].file)
    {
      hide Valid;
      hide Ahead;
      var err := FinalizeLedger(id, s.attempts[id], rec, fate);
      if why != Passed { return StepResult(Failed, BudgetAfter(why)); }
      r := if err then StepResult(Failed, Some(Attempted)) else StepResult(Pass, Some(Done));
    }

    // ---- the change ----------------------------------------------------------------------

    method WriteThrough(id: nat, a: Attempt, fate: Fate) returns (ok: bool)
      requires At(id, a) && a.pc == Writing
      modifies `s, `acts, `clock, `polls
      ensures Onward(id, fate)
      ensures Valid() && id in s.attempts
      ensures ok ==> s.attempts[id] == a.(wrote := true, pc := Rechecking)
      ensures !ok ==> s.attempts[id] == a.(wrote := s.attempts[id].wrote,
                                           pc := Closing(Terminal(a, Unknown, WriteFail, NO_UID), WriteFailed))
      ensures ok == fate.ok(old(clock))
    {
      hide Drive;
      hide Due;
      hide Exec;
      hide Advance;
      Interfere(id, fate);
      ok := fate.ok(clock);
      var landed := fate.err(clock);
      AdvanceIs(s, id, a, Write(ok, landed));
      Take(id, a, Write(ok, landed), fate);
    }

    method RecheckUid(id: nat, a: Attempt, fate: Fate) returns (live: Uid)
      requires At(id, a) && a.pc == Rechecking && a.podUid != NO_UID
      modifies `s, `acts, `clock, `polls
      ensures Onward(id, fate)
      ensures At(id, if live == a.podUid then a.(pc := Issuing)
                     else a.(pc := Closing(Terminal(a, Refused, IdentityChange, NO_UID), IdentityChanged)))
      ensures fate.err(old(clock)) ==> live == NO_UID
    {
      hide Init;
      hide OnlyFile;
      hide Untouched;
      hide Exec;
      hide Step;
      hide Drive;
      hide Due;
      Interfere(id, fate);
      var err := fate.err(clock);
      live := if err || a.ref !in s.c.pods then NO_UID else s.c.pods[a.ref].uid;
      Call(id, a, Recheck(err), fate);
    }

    method SendDelete(id: nat, a: Attempt, blocked: bool, fate: Fate)
      requires At(id, a) && a.pc == Issuing && blocked == NotSent(a, fate.cancelled(clock))
      modifies `s, `acts, `clock, `polls
      ensures old(acts) <= acts && Ahead(id, fate) == old(AheadNow(id, fate))
      ensures Valid() && id in s.attempts
      ensures blocked ==> s.attempts[id] == a.(pc := AfterDelete(a, OutcomeFailed))
      ensures !blocked ==> s.attempts[id] == a.(pc := Awaiting, req := s.attempts[id].req) && HasRequest(s.reqs, s.attempts[id])
    {
      hide Drive;
      hide Due;
      hide Exec;
      hide Advance;
      AdvanceIs(s, id, a, Issue(blocked));
      Take(id, a, Issue(blocked), fate);
    }

    method AwaitAnswer(id: nat, a: Attempt, fate: Fate) returns (outcome: DeleteOutcome)
      requires At(id, a) && a.pc == Awaiting && a.req.Some?
      modifies `s, `acts, `clock, `polls
      ensures Onward(id, fate)
      ensures At(id, a.(pc := AfterDelete(a, outcome)))
      ensures fate.err(old(clock)) ==> outcome == OutcomeTimeout
    {
      hide Drive;
      hide Due;
      Interfere(id, fate);
      ReqStays(id, a);
      var status := s.reqs[a.req.value].status;
      var lost := fate.err(clock) || status.Pending?;
      AnswerMatches(a, status, lost);
      Call(id, a, Answer(lost), fate);
      outcome := Classify(status, lost);
    }

    /** The conditional delete: never sent without a name, a uid and a live context; a
        request that got no answer is reported as a timeout and not sent again. */
    method DeletePodWithUIDPrecondition(id: nat, a: Attempt, fate: Fate) returns (outcome: DeleteOutcome)
      requires At(id, a) && a.pc == Issuing
      modifies `s, `acts, `clock, `polls
      ensures Onward(id, fate)
      ensures Valid() && id in s.attempts
      ensures s.attempts[id] == a.(req := s.attempts[id].req, pc := AfterDelete(a, outcome))
      ensures Blank(a.ref.ns) || Blank(a.ref.name) || a.podUid == NO_UID || fate.cancelled(old(clock)) ==> outcome == OutcomeFailed
    {
      hide Exec;
      hide Step;
      hide AfterDelete;
      hide Drive;
      hide Due;
      Interfere(id, fate);
      var blocked := Blank(a.ref.ns) || Blank(a.ref.name) || a.podUid == NO_UID || fate.cancelled(clock);
      SendDelete(id, a, blocked, fate);
      if blocked { return OutcomeFailed; }
      var b := s.attempts[id];
      outcome := AwaitAnswer(id, b, fate);
      AfterDeleteDepends(a, b, outcome);
    }

    // ---- after the change ------------------------------------------------------------------

    /** The uid at the name; the one last read is kept when this read fails. */
    method ReadUid(id: nat, a: Attempt, fate: Fate) returns (lastUid: Uid)
      requires At(id, a) && a.pc == PollingUid && polls > 0 && !fate.cancelled(clock)
      modifies `s, `acts, `clock, `polls
      ensures Onward(id, fate)
      ensures polls == old(polls) - 1
      ensures At(id, a.(lastUid := lastUid, pc := if lastUid != NO_UID && lastUid != a.podUid then PollingReady else PollingUid))
      ensures fate.err(old(clock)) ==> lastUid == a.lastUid
    {
      hide Init;
      hide OnlyFile;
      hide Untouched;
      hide Drive;
      hide Due;
      hide Exec;
      hide Step;
      Interfere(id, fate);
      var err := fate.err(clock);
      lastUid := a.lastUid;
      if !err && a.ref in s.c.pods && s.c.pods[a.ref].uid != NO_UID { lastUid := s.c.pods[a.ref].uid; }
      Call(id, a, PollUid(err), fate);
    }

    method ReadReady(id: nat, a: Attempt, fate: Fate) returns (ready: bool)
      requires At(id, a) && a.pc == PollingReady
      modifies `s, `acts, `clock, `polls
      ensures Onward(id, fate)
      ensures polls == old(polls)
      ensures Valid() && id in s.attempts
      ensures s.attempts[id] ==
        a.(newUid := if ready then a.lastUid else a.newUid,
           pc := if !ready then PollingUid else if a.t.claimName != "" then ReadingClaim else Checking)
      ensures fate.err(old(clock)) ==> !ready
    {
      hide Drive;
      hide Due;
      hide Exec;
      hide Step;
      Interfere(id, fate);
      var err := fate.err(clock);
      ready := !err && a.ref in s.c.pods && s.c.pods[a.ref].ready;
      Call(id, a, PollReady(err), fate);
    }

    method PollOnce(id: nat, a: Attempt, fate: Fate) returns (ready: bool)
      requires At(id, a) && a.pc == PollingUid && polls > 0 && !fate.cancelled(clock)
      modifies `s, `acts, `clock, `polls
      ensures Onward(id, fate)
      ensures polls == old(polls) - 1
      ensures Valid() && id in s.attempts && s.attempts[id].t == a.t && s.attempts[id].file == a.file
      ensures s.attempts[id].pc == if !ready then PollingUid else if a.t.claimName != "" then ReadingClaim else Checking
    {
      hide Drive;
      hide Due;
      var lastUid := ReadUid(id, a, fate);
      if lastUid == NO_UID || lastUid == a.podUid { return false; }
      var b := s.attempts[id];
      ready := ReadReady(id, b, fate);
    }

    /** Waits as long as polls are left; a wait that is cancelled or runs out leaves `unknown`
        in the ledger. */
    method WaitForReplacedPod(id: nat, fate: Fate) returns (ready: bool)
      requires Valid() && (alone ==> id == current) && id in s.attempts && s.attempts[id].pc == PollingUid
      modifies `s, `acts, `clock, `polls
      ensures Onward(id, fate)
      ensures Valid() && id in s.attempts && s.attempts[id].t == old(s.attempts[id].t)
      ensures s.attempts[id].file == old(s.attempts[id].file)
      ensures ready ==> s.attempts[id].pc == if s.attempts[id].t.claimName != "" then ReadingClaim else Checking
      ensures !ready ==> Ended(s.attempts[id].pc, Failed, Some(Unknown)) && !QuotaRefused(s.attempts[id])
    {
      hide Valid;
      hide Ahead;
      while polls > 0
        invariant Valid() && id in s.attempts && s.attempts[id].pc == PollingUid
        invariant s.attempts[id].t == old(s.attempts[id].t) && s.attempts[id].file == old(s.attempts[id].file)
        invariant Onward(id, fate)
        decreases polls
      {
        if fate.cancelled(clock) {
          GiveUpWaiting(id, true, fate);
          return false;
        }
        var a := s.attempts[id];
        ready := PollOnce(id, a, fate);
        if ready { return; }
      }
      GiveUpWaiting(id, false, fate);
      ready := false;
    }

    method GiveUpWaiting(id: nat, cancelled: bool, fate: Fate)
      requires Valid() && (alone ==> id == current) && id in s.attempts && s.attempts[id].pc == PollingUid
      requires polls == 0 || fate.cancelled(clock)
      requires cancelled <==> polls > 0
      modifies `s, `acts, `clock, `polls
      ensures Onward(id, fate)
      ensures At(id, old(s.attempts[id]).(pc := Finished(NotReplaced)))
    {
      hide Init;
      hide OnlyFile;
      hide Untouched;
      hide Exec;
      hide Step;
      hide Drive;
      hide Due;
      var a := s.attempts[id];
      Interfere(id, fate);
      Call(id, a, GiveUp(cancelled), fate);
      var b := s.attempts[id];
      var rec := if cancelled then Terminal(a, Unknown, Cancelled, NO_UID) else Terminal(a, Unknown, NotReady, a.lastUid);
      var _ := FinalizeLedger(id, b, rec, fate);
    }

    method RereadClaim(id: nat, a: Attempt, fate: Fate) returns (uid: Uid)
      requires At(id, a) && a.pc == ReadingClaim
      modifies `s, `acts, `clock, `polls
      ensures Onward(id, fate)
      ensures At(id,
        if uid == NO_UID then a.(pc := Closing(Terminal(a, Unknown, PvcGone, a.newUid), ClaimGone))
        else if uid != a.stableUid then a.(pc := Closing(Terminal(a, Done, PvcReplaced, a.newUid), ClaimReplaced))
        else a.(claimAfter := uid, pc := Checking))
      ensures fate.err(old(clock)) ==> uid == NO_UID
    {
      hide Drive;
      hide Due;
      hide Exec;
      hide Step;
      Interfere(id, fate);
      var err := fate.err(clock);
      var key := Ref(a.t.ns, a.t.claimName);
      uid := if err || key !in s.c.claims then NO_UID else s.c.claims[key].uid;
      Call(id, a, ReadClaim(err), fate);
    }

    method CheckAfterRecreation(id: nat, a: Attempt, fate: Fate) returns (ok: bool)
      requires At(id, a) && a.pc == Checking
      modifies `s, `acts, `clock, `polls
      ensures Onward(id, fate)
      ensures At(id, if ok then a.(pc := ReadingBack)
                     else a.(pc := Closing(Terminal(a, Done, IdentityChange, a.newUid), StableLost)))
      ensures ok == fate.ok(old(clock))
    {
      hide Drive;
      hide Due;
      Interfere(id, fate);
      ok := fate.ok(clock);
      Call(id, a, AfterCheck(ok), fate);
    }

    method ReadTokenBack(id: nat, a: Attempt, fate: Fate) returns (ok: bool)
      requires At(id, a) && a.pc == ReadingBack
      modifies `s, `acts, `clock, `polls
      ensures Onward(id, fate)
      ensures At(id, if ok then a.(pc := Closing(Terminal(a, Done, PassOutcome, a.newUid), Passed))
                     else a.(pc := Closing(Terminal(a, Done, DataGone, a.newUid), DataLost)))
      ensures fate.err(old(clock)) ==> !ok
    {
      hide Drive;
      hide Due;
      Interfere(id, fate);
      var err := fate.err(clock);
      ok := !err && (LedgerKey(a.t), a.token) in s.c.data;
      Call(id, a, ReadBack(err), fate);
    }

    // ---- recreateOnce ------------------------------------------------------------------------

    /** Look at the ledger, then claim it. */
    method PeekAndClaim(id: nat, fate: Fate) returns (claimed: bool, quota: Option<LedgerState>)
      requires Valid() && (alone ==> id == current) && id in s.attempts && s.attempts[id].pc == Peeking
      modifies `s, `acts, `clock, `polls
      ensures Onward(id, fate)
      ensures Valid() && id in s.attempts
      ensures s.attempts[id].t == old(s.attempts[id].t) && s.attempts[id].file == old(s.attempts[id].file)
      ensures if claimed then s.attempts[id].pc == Writing else Ended(s.attempts[id].pc, Failed, quota)
      ensures alone && s.attempts[id].file !in base ==> !QuotaRefused(s.attempts[id])
      ensures alone && s.attempts[id].file in base ==> !claimed && Untouched(s.attempts[id])
      ensures alone && s.attempts[id].file in base && quota.Some? ==>
        quota.value == if base[s.attempts[id].file].Written? then base[s.attempts[id].file].rec.state else Unknown
    {
      hide Valid;
      hide Ahead;
      hide Local;
      var a := s.attempts[id];
      PeekingIsUntouched(id, a);
      var err, found := PeekLedger(id, a, fate);
      if err { return false, None; }
      if found.Some? { return false, Some(RecordedState(found.value)); }
      claimed, quota := Claim(id, fate);
    }

    method Claim(id: nat, fate: Fate) returns (claimed: bool, quota: Option<LedgerState>)
      requires Valid() && (alone ==> id == current) && id in s.attempts
      requires s.attempts[id].pc == Creating && Untouched(s.attempts[id]) && (alone ==> s.attempts[id].file !in base)
      modifies `s, `acts, `clock, `polls
      ensures Onward(id, fate)
      ensures Valid() && id in s.attempts
      ensures s.attempts[id].t == old(s.attempts[id].t) && s.attempts[id].file == old(s.attempts[id].file)
      ensures if claimed then s.attempts[id].pc == Writing else Ended(s.attempts[id].pc, Failed, quota)
      ensures alone ==> !QuotaRefused(s.attempts[id])
    {
      hide Valid;
      hide Untouched;
      hide RecordedState;
      hide Ahead;
      var err, existing;
      err, claimed, existing := ClaimLedger(id, s.attempts[id], fate);
      quota := if existing.Some? then Some(RecordedState(existing.value)) else if claimed then Some(Attempted) else None;
    }

    /** Authorise, look at the ledger, claim it. */
    method Begin(id: nat, fate: Fate) returns (claimed: bool, quota: Option<LedgerState>)
      requires Valid() && (alone ==> id == current) && id in s.attempts && s.attempts[id].pc == Auth(ResolveName)
      modifies `s, `acts, `clock, `polls
      ensures Onward(id, fate)
      ensures Valid() && id in s.attempts
      ensures s.attempts[id].t == old(s.attempts[id].t) && s.attempts[id].file == old(s.attempts[id].file)
      ensures if claimed then s.attempts[id].pc == Writing else Ended(s.attempts[id].pc, Failed, quota)
      ensures alone && s.attempts[id].file !in base ==> !QuotaRefused(s.attempts[id])
      ensures alone && s.attempts[id].file in base ==> !claimed && Untouched(s.attempts[id])
      ensures alone && s.attempts[id].file in base && quota.Some? ==>
        quota.value == if base[s.attempts[id].file].Written? then base[s.attempts[id].file].rec.state else Unknown
    {
      hide Valid;
      hide Ahead;
      BeginsUnarmed(id);
      var ok := AuthorizeTarget(id, fate);
      if ok {
        claimed, quota := PeekAndClaim(id, fate);
      } else {
        claimed, quota := false, None;
      }
    }

    /** Write, then look once more whether the name still holds the authorised pod. */
    method WriteAndRecheck(id: nat, fate: Fate) returns (go: bool, quota: LedgerState)
      requires Valid() && (alone ==> id == current) && id in s.attempts && s.attempts[id].pc == Writing
      modifies `s, `acts, `clock, `polls
      ensures Onward(id, fate)
      ensures Valid() && id in s.attempts
      ensures s.attempts[id].t == old(s.attempts[id].t) && s.attempts[id].file == old(s.attempts[id].file)
      ensures if go then s.attempts[id].pc == Issuing else Ended(s.attempts[id].pc, Failed, Some(quota))
      ensures !QuotaRefused(s.attempts[id])
    {
      hide Valid;
      hide Ended;
      hide Ahead;
      hide Local;
      hide LedgerKey;
      hide Terminal;
      var a := s.attempts[id];
      var ok := WriteThrough(id, a, fate);
      if !ok {
        var _ := CloseRecord(id, Terminal(a, Unknown, WriteFail, NO_UID), WriteFailed, fate);
        return false, Attempted;
      }
      go := RecheckIdentity(id, fate);
      quota := if go then Attempted else Refused;
    }

    method RecheckIdentity(id: nat, fate: Fate) returns (go: bool)
      requires Valid() && (alone ==> id == current) && id in s.attempts && s.attempts[id].pc == Rechecking
      modifies `s, `acts, `clock, `polls
      ensures Onward(id, fate)
      ensures Valid() && id in s.attempts
      ensures s.attempts[id].t == old(s.attempts[id].t) && s.attempts[id].file == old(s.attempts[id].file)
      ensures if go then s.attempts[id].pc == Issuing else Ended(s.attempts[id].pc, Failed, Some(Refused))
      ensures !QuotaRefused(s.attempts[id])
    {
      hide Valid;
      hide Ended;
      hide Ahead;
      hide Terminal;
      var a := s.attempts[id];
      ArmedHasUid(id, a);
      var live := RecheckUid(id, a, fate);
      go := live == a.podUid;
      if !go {
        var _ := CloseRecord(id, Terminal(a, Refused, IdentityChange, NO_UID), IdentityChanged, fate);
      }
    }

    /** The one conditional delete, and what its outcome lets the record say. */
    method DeleteOnce(id: nat, fate: Fate) returns (deleted: bool, quota: LedgerState)
      requires Valid() && (alone ==> id == current) && id in s.attempts && s.attempts[id].pc == Issuing
      modifies `s, `acts, `clock, `polls
      ensures Onward(id, fate)
      ensures Valid() && id in s.attempts
      ensures s.attempts[id].t == old(s.attempts[id].t) && s.attempts[id].file == old(s.attempts[id].file)
      ensures if deleted then s.attempts[id].pc == PollingUid else Ended(s.attempts[id].pc, Failed, Some(quota))
      ensures !QuotaRefused(s.attempts[id])
    {
      hide Valid;
      hide Ended;
      hide Ahead;
      hide Local;
      hide LedgerKey;
      hide Terminal;
      var a := s.attempts[id];
      var outcome := DeletePodWithUIDPrecondition(id, a, fate);
      var rec, why;
      match outcome {
        case OutcomeDeleted => return true, Attempted;
        case OutcomeConflict => rec, why := Terminal(a, Refused, DeleteConflict, NO_UID), DeleteRefused;
        case OutcomeForbidden => rec, why := Terminal(a, Refused, DeleteForbidden, NO_UID), DeleteRefused;
        case OutcomeNotFound => rec, why := Terminal(a, Refused, DeleteNotFound, NO_UID), DeleteRefused;
        case OutcomeTimeout => rec, why := Terminal(a, Unknown, DeleteTimeout, NO_UID), DeleteUnknown;
        case OutcomeFailed => rec, why := Terminal(a, Unknown, DeleteFail, NO_UID), DeleteUnknown;
      }
      deleted, quota := false, if why == DeleteRefused then Refused else Unknown;
      var _ := CloseRecord(id, rec, why, fate);
    }

    /** The storage identity and the data must still be what they were. */
    method Confirm(id: nat, fate: Fate) returns (r: StepResult)
      requires Valid() && (alone ==> id == current) && id in s.attempts
      requires s.attempts[id].pc == if s.attempts[id].t.claimName != "" then ReadingClaim else Checking
      modifies `s, `acts, `clock, `polls
      ensures Onward(id, fate)
      ensures Valid() && id in s.attempts
      ensures s.attempts[id].t == old(s.attempts[id].t) && s.attempts[id].file == old(s.attempts[id].file)
      ensures Ended(s.attempts[id].pc, r.status, r.quota)
      ensures !QuotaRefused(s.attempts[id])
    {
      hide Valid;
      hide Ended;
      hide QuotaRefused;
      hide Ahead;
      hide Local;
      hide LedgerKey;
      hide Terminal;
      var a := s.attempts[id];
      if a.t.claimName != "" {
        var uid := RereadClaim(id, a, fate);
        if uid == NO_UID {
          var _ := CloseRecord(id, Terminal(a, Unknown, PvcGone, a.newUid), ClaimGone, fate);
          return StepResult(Failed, Some(Unknown));
        }
        if uid != a.stableUid {
          var _ := CloseRecord(id, Terminal(a, Done, PvcReplaced, a.newUid), ClaimReplaced, fate);
          return StepResult(Failed, Some(Done));
        }
      }
      r := ConfirmData(id, fate);
    }

    method ConfirmData(id: nat, fate: Fate) returns (r: StepResult)
      requires Valid() && (alone ==> id == current) && id in s.attempts && s.attempts[id].pc == Checking
      modifies `s, `acts, `clock, `polls
      ensures Onward(id, fate)
      ensures Valid() && id in s.attempts
      ensures s.attempts[id].t == old(s.attempts[id].t) && s.attempts[id].file == old(s.attempts[id].file)
      ensures !QuotaRefused(s.attempts[id])
      ensures Ended(s.attempts[id].pc, r.status, r.quota)
    {
      hide Valid;
      hide Ended;
      hide QuotaRefused;
      hide Ahead;
      hide Local;
      hide LedgerKey;
      hide Terminal;
      var a := s.attempts[id];
      var ok := CheckAfterRecreation(id, a, fate);
      if !ok {
        var _ := CloseRecord(id, Terminal(a, Done, IdentityChange, a.newUid), StableLost, fate);
        return StepResult(Failed, Some(Done));
      }
      r := ConfirmToken(id, fate);
    }

    method ConfirmToken(id: nat, fate: Fate) returns (r: StepResult)
      requires Valid() && (alone ==> id == current) && id in s.attempts && s.attempts[id].pc == ReadingBack
      modifies `s, `acts, `clock, `polls
      ensures Onward(id, fate)
      ensures Valid() && id in s.attempts
      ensures s.attempts[id].t == old(s.attempts[id].t) && s.attempts[id].file == old(s.attempts[id].file)
      ensures !QuotaRefused(s.attempts[id])
      ensures Ended(s.attempts[id].pc, r.status, r.quota)
    {
      hide Valid;
      hide Ended;
      hide QuotaRefused;
      hide Ahead;
      hide Local;
      hide LedgerKey;
      hide Terminal;
      var a := s.attempts[id];
      var ok := ReadTokenBack(id, a, fate);
      if !ok {
        var _ := CloseRecord(id, Terminal(a, Done, DataGone, a.newUid), DataLost, fate);
        return StepResult(Failed, Some(Done));
      }
      r := CloseRecord(id, Terminal(a, Done, PassOutcome, a.newUid), Passed, fate);
    }

    method Enter(id: nat, t: Target, runId: string, budget: nat)
      requires Valid() && id !in s.attempts
      modifies this
      ensures At(id, NewAttempt(t, runId)) && base == old(s.ledger) && file == LedgerFile(runId, t)
      ensures s == Step(old(s), Start(id, t, runId)) && clock == old(clock) && polls == budget + 1 && old(acts) <= acts
    {
      hide Init;
      hide Exec;
      hide LedgerFile;
      ExecSnoc(s0, acts, Start(id, t, runId));
      current, base, file := id, s.ledger, LedgerFile(runId, t);
      s := Step(s, Start(id, t, runId));
      acts := acts + [Start(id, t, runId)];
      polls := budget + 1;
    }

    /** One recreation. Whatever others do meanwhile, the site ends exactly where the protocol's
        attempt ends when each of its calls meets its fate, and the result reports how. The run
        only grows: earlier attempts and requests are still there, as they ended. When no other
        attempt runs, only its own ledger file can change, nothing changes before its claim, and
        it is refused for quota only if that file was already there. */
    method RecreateOnce(id: nat, t: Target, runId: string, budget: nat, fate: Fate) returns (r: StepResult)
      requires Valid() && id !in s.attempts
      modifies this
      ensures Valid() && old(acts) <= acts && Extended(old(s), s)
      ensures s == Drive(Step(old(s), Start(id, t, runId)), id, fate, old(clock), budget + 1, alone)
      ensures id in s.attempts && s.attempts[id].t == t && s.attempts[id].file == LedgerFile(runId, t)
      ensures Ended(s.attempts[id].pc, r.status, r.quota)
      ensures s.attempts[id].armed ==> s.attempts[id].file in s.ledger
      ensures r.status == Pass <==> s.attempts[id].pc == Finished(Passed)
      ensures r.status == Pass ==> s.attempts[id].armed
      ensures s.attempts[id].armed ==> ReportOf(s, s.attempts[id], r.quota)
      ensures !s.attempts[id].armed && r.quota.Some? ==> QuotaRefused(s.attempts[id])
      ensures alone ==> OnlyFile(old(s.ledger), s.ledger, s.attempts[id].file)
      ensures alone && Untouched(s.attempts[id]) ==> s.ledger == old(s.ledger)
      ensures alone && s.attempts[id].file !in old(s.ledger) ==> !QuotaRefused(s.attempts[id])
      ensures alone && s.attempts[id].file in old(s.ledger) ==> Untouched(s.attempts[id])
      ensures alone && LedgerFile(runId, t) in old(s.ledger) && r.quota.Some? ==>
        r.quota.value == if old(s.ledger)[LedgerFile(runId, t)].Written? then old(s.ledger)[LedgerFile(runId, t)].rec.state else Unknown
    {
      ghost var before := acts;
      Enter(id, t, runId, budget);
      hide Step;
      hide Exec;
      hide Drive;
      r := Run(id, fate);
      DriveIsOver(s, id, fate, clock, polls, alone);
      SinceThen(s0, before, acts);
      ArmedHasFile(id);
      if s.attempts[id].armed {
        ReportAgrees(s0, acts, id, r.status, r.quota);
      } else {
        UnarmedReport(s0, acts, id, r.status, r.quota);
      }
    }

    method Run(id: nat, fate: Fate) returns (r: StepResult)
      requires Valid() && (alone ==> id == current) && id in s.attempts && s.attempts[id].pc == Auth(ResolveName)
      modifies `s, `acts, `clock, `polls
      ensures Onward(id, fate)
      ensures Valid() && id in s.attempts
      ensures s.attempts[id].t == old(s.attempts[id].t) && s.attempts[id].file == old(s.attempts[id].file)
      ensures Ended(s.attempts[id].pc, r.status, r.quota)
      ensures alone && s.attempts[id].file !in base ==> !QuotaRefused(s.attempts[id])
      ensures alone && s.attempts[id].file in base ==> Untouched(s.attempts[id])
      ensures alone && s.attempts[id].file in base && r.quota.Some? ==>
        r.quota.value == if base[s.attempts[id].file].Written? then base[s.attempts[id].file].rec.state else Unknown
    {
      hide Valid;
      hide Ahead;
      hide Ended;
      hide QuotaRefused;
      var claimed, quota := Begin(id, fate);
      if !claimed { return StepResult(Failed, quota); }
      r := Change(id, fate);
    }

    /** With the ledger claimed: write, delete, wait for the replacement, confirm. */
    method Change(id: nat, fate: Fate) returns (r: StepResult)
      requires Valid() && (alone ==> id == current) && id in s.attempts && s.attempts[id].pc == Writing
      modifies `s, `acts, `clock, `polls
      ensures Onward(id, fate)
      ensures Valid() && id in s.attempts
      ensures s.attempts[id].t == old(s.attempts[id].t) && s.attempts[id].file == old(s.attempts[id].file)
      ensures Ended(s.attempts[id].pc, r.status, r.quota)
      ensures !QuotaRefused(s.attempts[id])
    {
      hide Valid;
      hide Ended;
      hide QuotaRefused;
      hide Ahead;
      var go, refused := WriteAndRecheck(id, fate);
      if !go { return StepResult(Failed, Some(refused)); }
      var deleted, closed := DeleteOnce(id, fate);
      if !deleted { return StepResult(Failed, Some(closed)); }
      var ready := WaitForReplacedPod(id, fate);
      if !ready { return StepResult(Failed, Some(Unknown)); }
      r := Confirm(id, fate);
    }

    lemma ArmedHasFile(id: nat)
      requires Valid() && id in s.attempts
      ensures s.attempts[id].armed ==> s.attempts[id].file in s.ledger
      ensures s.attempts[id].pc == Finished(Passed) ==> s.attempts[id].armed
    {
      Reachable(s0, acts);
      assert AttemptOk(s, s.attempts[id]);
    }

    lemma PeekingIsUntouched(id: nat, a: Attempt)
      requires At(id, a) && a.pc == Peeking
      ensures Untouched(a)
    {
      Reachable(s0, acts);
      assert AttemptOk(s, a);
    }

    lemma BeginsUnarmed(id: nat)
      requires Valid() && id in s.attempts && s.attempts[id].pc == Auth(ResolveName)
      ensures !s.attempts[id].armed
    {
      Reachable(s0, acts);
      assert AttemptOk(s, s.attempts[id]);
    }

    lemma ArmedHasUid(id: nat, a: Attempt)
      requires At(id, a) && a.pc == Rechecking
      ensures a.podUid != NO_UID
    {
      Reachable(s0, acts);
      assert AttemptOk(s, a);
    }

    /** Requests are never withdrawn. */
    lemma ReqStays(id: nat, b: Attempt)
      requires At(id, b) && b.req.Some?
      ensures HasRequest(s.reqs, b)
    {
      Reachable(s0, acts);
      assert AttemptOk(s, b);
    }
  }

  /** The one-change budget was already spent. */
  predicate ForQuota(why: Reason) {
    why == AlreadyRecorded || why == ClaimedElsewhere
  }

  predicate QuotaRefused(a: Attempt) {
    a.pc.Finished? && ForQuota(a.pc.reason)
  }

  /** What an attempt that ended for this reason reports of the budget; a refusal for quota
      reports the state of the record it met. */
  function BudgetAfter(why: Reason): Option<LedgerState> {
    match why
    case Unauthorised | LedgerError | ClaimFailed => None
    case AlreadyRecorded | ClaimedElsewhere => None
    case WriteFailed | LedgerNotClosed => Some(Attempted)
    case IdentityChanged | DeleteRefused => Some(Refused)
    case DeleteUnknown | NotReplaced | ClaimGone => Some(Unknown)
    case ClaimReplaced | StableLost | DataLost | Passed => Some(Done)
  }

  /** How an ended attempt is reported: a pass exactly when it passed, and what became of the
      budget. */
  predicate Ended(pc: PC, status: Status, quota: Option<LedgerState>) {
    && pc.Finished? && status == (if pc.reason == Passed then Pass else Failed)
    && if ForQuota(pc.reason) then quota.Some? else quota == BudgetAfter(pc.reason)
  }

  /** The reported budget is what the ledger says of this attempt, if its record was closed at
      all; except that a failed write is reported as `attempted` while its record says `unknown`,
      and so is a pass whose record could not be finished. */
  ghost predicate ReportOf(s: State, a: Attempt, quota: Option<LedgerState>) {
    && quota.Some? && a.pc.Finished? && a.file in s.ledger && s.ledger[a.file].Written?
    && var state := s.ledger[a.file].rec.state;
       && (a.pc.reason == WriteFailed ==> quota == Some(Attempted) && (state == Attempted || state == Unknown))
       && (a.pc.reason == LedgerNotClosed ==> quota == Some(Attempted) && (state == Attempted || state == Done))
       && (a.pc.reason != WriteFailed && a.pc.reason != LedgerNotClosed ==> state == Attempted || quota == Some(state))
  }

  lemma ReportAgrees(s0: State, acts: seq<Action>, id: nat, status: Status, quota: Option<LedgerState>)
    requires Init(s0) && id in Exec(s0, acts).attempts && Exec(s0, acts).attempts[id].armed
    requires Ended(Exec(s0, acts).attempts[id].pc, status, quota)
    ensures ReportOf(Exec(s0, acts), Exec(s0, acts).attempts[id], quota)
  {
    hide Step;
    hide Decides;
    hide Says;
    var k := RecordSays(s0, acts, id);
    var s := Exec(s0, acts);
    var why := VerdictOf(s.attempts[id].pc).value;
    var was := Moment(s0, acts, k);
    LateVerdict(was, was.attempts[id], acts[k].move, why);
    if s.ledger[s.attempts[id].file].rec.state != Attempted {
      VerdictState(was, was.attempts[id], acts[k].move, why, s.ledger[s.attempts[id].file].rec);
    }
  }

  /** The state that goes with each verdict. */
  lemma VerdictState(s: State, a: Attempt, move: Move, why: Reason, rec: Record)
    requires Decides(s, a, move, why) && Says(s, a, move, rec)
    ensures why == WriteFailed ==> rec.state == Unknown
    ensures why != WriteFailed ==> BudgetAfter(why) == Some(rec.state)
  {
    hide Answers;
    hide Blank;
    hide InData;
  }

  /** Only what comes after the claim says anything of the budget. */
  lemma LateVerdict(s: State, a: Attempt, move: Move, why: Reason)
    requires Decides(s, a, move, why)
    ensures Early(a.pc) ==> BudgetAfter(why) == None
    ensures !Early(a.pc) ==> ForQuota(why) || BudgetAfter(why).Some?
  {
    hide Answers;
    hide Blank;
    hide InData;
  }

  lemma UnarmedReport(s0: State, acts: seq<Action>, id: nat, status: Status, quota: Option<LedgerState>)
    requires Init(s0) && id in Exec(s0, acts).attempts && !Exec(s0, acts).attempts[id].armed
    requires Ended(Exec(s0, acts).attempts[id].pc, status, quota)
    ensures quota.Some? ==> QuotaRefused(Exec(s0, acts).attempts[id])
  {
    hide Step;
    hide Decides;
    var k := UnclaimedEndedEarly(s0, acts, id);
    var why := VerdictOf(Exec(s0, acts).attempts[id].pc).value;
    var was := Moment(s0, acts, k);
    LateVerdict(was, was.attempts[id], acts[k].move, why);
  }

  /** The state a reader takes from a ledger file; torn bytes say that nobody knows. */
  function RecordedState(f: File): LedgerState {
    if f.Written? then f.rec.state else Unknown
  }

  /** How the client classifies what came back. */
  function Classify(status: RequestStatus, lost: bool): DeleteOutcome {
    if lost then OutcomeTimeout
    else match status
      case Pending => OutcomeTimeout
      case Accepted => OutcomeDeleted
      case Rejected(Conflict) => OutcomeConflict
      case Rejected(NotFound) => OutcomeNotFound
      case Rejected(Forbidden) => OutcomeForbidden
      case Rejected(ServerError) => OutcomeFailed
  }

  /** Only the identities in the record matter. */
  lemma AfterDeleteDepends(a: Attempt, b: Attempt, outcome: DeleteOutcome)
    requires Intent(a) == Intent(b)
    ensures AfterDelete(a, outcome) == AfterDelete(b, outcome)
  {
  }

  lemma AnswerMatches(a: Attempt, status: RequestStatus, lost: bool)
    requires status.Pending? ==> lost
    ensures AfterAnswer(a, status, lost) == a.(pc := AfterDelete(a, Classify(status, lost)))
  {
  }

  /** Only `deleted` goes on; a refusal is closed as refused, anything else as unknown. */
  function AfterDelete(a: Attempt, outcome: DeleteOutcome): PC {
    match outcome
    case OutcomeDeleted => PollingUid
    case OutcomeConflict => Closing(Terminal(a, Refused, DeleteConflict, NO_UID), DeleteRefused)
    case OutcomeNotFound => Closing(Terminal(a, Refused, DeleteNotFound, NO_UID), DeleteRefused)
    case OutcomeForbidden => Closing(Terminal(a, Refused, DeleteForbidden, NO_UID), DeleteRefused)
    case OutcomeTimeout => Closing(Terminal(a, Unknown, DeleteTimeout, NO_UID), DeleteUnknown)
    case OutcomeFailed => Closing(Terminal(a, Unknown, DeleteFail, NO_UID), DeleteUnknown)
  }
}
