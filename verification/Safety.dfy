/** The promises of the recreate-once protocol, over every run: any number of attempts
    that race, retry, are cancelled or crash, with the cluster changing in between. */
module Safety {
  import opened Wrappers
  import opened Cluster
  import opened Protocol
  import opened Invariant
  import opened Preservation
  import opened StepPreservation

  /** At most one delete request is ever sent per ledger file, that is per (base run,
      target), whoever sends it. */
  lemma AtMostOneDelete(s0: State, acts: seq<Action>, i: nat, j: nat)
    requires Init(s0)
    requires var s := Exec(s0, acts); i < |s.reqs| && j < |s.reqs| && s.reqs[i].file == s.reqs[j].file
    ensures i == j
  {
    Reachable(s0, acts);
    var s := Exec(s0, acts);
    assert RequestOk(s, i) && RequestOk(s, j);
  }

  /** Requests leave only from an attempt that stands right before its delete. */
  lemma OnlyIssuingSends(s: State, act: Action)
    requires |Step(s, act).reqs| > |s.reqs|
    ensures act.Do? && act.id in s.attempts && s.attempts[act.id].pc.Issuing?
    ensures var a := s.attempts[act.id];
      Step(s, act).reqs == s.reqs + [Request(act.id, a.file, a.ref, a.podUid, Pending)]
  {
    if act.Do? && act.id in s.attempts {
      AdvanceIs(s, act.id, s.attempts[act.id], act.move);
    }
  }

  /** A step that sends a request finds the intent already flushed to disk, still open,
      and naming exactly the uid that the request carries. */
  lemma IntentIsDurableFirst(s0: State, acts: seq<Action>, act: Action)
    requires Init(s0)
    requires var s := Exec(s0, acts); |Step(s, act).reqs| > |s.reqs|
    ensures var s, r := Exec(s0, acts), Step(Exec(s0, acts), act).reqs[|Exec(s0, acts).reqs|];
      && r.file in s.disk && s.disk[r.file].Written?
      && s.disk[r.file].rec.state == Attempted && s.disk[r.file].rec.oldPodUid == r.uid
      && |Step(s, act).reqs| == |s.reqs| + 1
  {
    Reachable(s0, acts);
    var s := Exec(s0, acts);
    OnlyIssuingSends(s, act);
    assert AttemptOk(s, s.attempts[act.id]);
  }

  /** And for as long as the run goes on, the flushed record names that uid. */
  lemma IntentStaysDurable(s0: State, acts: seq<Action>, i: nat)
    requires Init(s0) && i < |Exec(s0, acts).reqs|
    ensures var s, r := Exec(s0, acts), Exec(s0, acts).reqs[i];
      && r.file in s.disk && s.disk[r.file].Written? && s.disk[r.file].rec.oldPodUid == r.uid
      && r.file in s.ledger && s.ledger[r.file].Written? && s.ledger[r.file].rec.oldPodUid == r.uid
  {
    Reachable(s0, acts);
    var s := Exec(s0, acts);
    assert RequestOk(s, i);
    assert AttemptOk(s, s.attempts[s.reqs[i].attempt]);
  }

  // ---- what can be removed -----------------------------------------------------

  lemma MoveTouchesNoPod(s: State, id: nat, a: Attempt, move: Move)
    ensures Advance(s, id, a, move).c.pods == s.c.pods
  {
    hide Advance;
    hide Local;
    hide Intent;
    hide ToClose;
    AdvanceIs(s, id, a, move);
    if LocalPC(a) || move.Crash? || !Taken(a, move) {
      assert Advance(s, id, a, move).c == s.c;
    }
  }

  /** No move of an attempt touches a pod; only the server does, and a request's
      precondition decides which one. */
  lemma OnlyServingTouchesPods(s: State, act: Action, ref: Ref)
    requires !act.World? && ref in s.c.pods
    requires !(ref in Step(s, act).c.pods && Step(s, act).c.pods[ref] == s.c.pods[ref])
    ensures act.Serve? && act.index < |s.reqs| && s.reqs[act.index].status == Pending
    ensures s.reqs[act.index].ref == ref && s.reqs[act.index].uid == s.c.pods[ref].uid
  {
    hide Advance;
    if act.Do? && act.id in s.attempts { MoveTouchesNoPod(s, act.id, s.attempts[act.id], act.move); }
  }

  /** A same-name replacement survives: a pod whose uid no pending request names is
      left exactly as it is by every action but the cluster's own. */
  lemma ReplacementSurvives(s: State, act: Action, ref: Ref)
    requires !act.World? && ref in s.c.pods
    requires forall i: nat :: i < |s.reqs| && s.reqs[i].status == Pending ==>
      s.reqs[i].ref != ref || s.reqs[i].uid != s.c.pods[ref].uid
    ensures ref in Step(s, act).c.pods && Step(s, act).c.pods[ref] == s.c.pods[ref]
  {
    if !(ref in Step(s, act).c.pods && Step(s, act).c.pods[ref] == s.c.pods[ref]) {
      OnlyServingTouchesPods(s, act, ref);
      assert false;
    }
  }

  /** The server's side of the conditional delete: it is accepted exactly when the server admits
      it and the named pod still has the named uid, and then that pod is gone, or marked while
      its kubelet is not done with it; any other answer says why, and changes no pod. */
  lemma AnswersMean(s: State, index: nat, verdict: Verdict)
    requires index < |s.reqs| && s.reqs[index].status == Pending
    ensures var s', r := Step(s, Serve(index, verdict)), s.reqs[index];
      && |s'.reqs| == |s.reqs| && s'.attempts == s.attempts && s'.ledger == s.ledger && s'.disk == s.disk
      && (s'.reqs[index].status == Accepted <==> verdict.Admit? && r.ref in s.c.pods && s.c.pods[r.ref].uid == r.uid)
      && (s'.reqs[index].status == Rejected(Forbidden) <==> verdict == Forbid)
      && (s'.reqs[index].status == Rejected(ServerError) <==> verdict == Break)
      && (s'.reqs[index].status == Rejected(NotFound) <==> verdict.Admit? && r.ref !in s.c.pods)
      && (s'.reqs[index].status == Rejected(Conflict) <==> verdict.Admit? && r.ref in s.c.pods && s.c.pods[r.ref].uid != r.uid)
      && (s'.reqs[index].status == Accepted ==>
            s'.c.pods == if verdict.graceful then s.c.pods[r.ref := s.c.pods[r.ref].(terminating := true)] else s.c.pods - {r.ref})
      && (s'.reqs[index].status != Accepted ==> s'.c == s.c)
  {
  }

  /** What a power loss may leave of each file: of a flushed one the flushed or the visible state;
      of one never flushed what was visible, a torn file, or nothing. */
  lemma PowerLossLeaves(s: State, f: string, fallBack: set<string>, torn: set<string>)
    ensures var s' := Step(s, PowerLoss(fallBack, torn));
      && s'.ledger == s'.disk && s'.c == s.c && s'.reqs == s.reqs
      && (f in fallBack && f !in s.disk ==> f !in s'.ledger)
      && (f in fallBack && f in s.disk ==> f in s'.ledger && s'.ledger[f] == s.disk[f])
      && (f !in fallBack && f !in s.ledger ==> f !in s'.ledger)
      && (f !in fallBack && f in s.ledger && (f in s.disk || f !in torn) ==> f in s'.ledger && s'.ledger[f] == s.ledger[f])
      && (f !in fallBack && f in s.ledger && f !in s.disk && f in torn ==> f in s'.ledger && s'.ledger[f] == Partial)
  {
  }

  // ---- ledger states -------------------------------------------------------------

  /** What the passage of time keeps of attempts and requests: none disappears, an ended
      attempt stays as it ended, an answered request stays answered. */
  ghost predicate Extended(s: State, s': State) {
    && ReqsLater(s.reqs, s'.reqs)
    && s.attempts.Keys <= s'.attempts.Keys
    && (forall i :: i in s.attempts && !Live(s.attempts[i]) ==> i in s'.attempts && s'.attempts[i] == s.attempts[i])
  }

  lemma MoveExtends(s: State, id: nat, move: Move)
    requires id in s.attempts
    ensures var s' := Advance(s, id, s.attempts[id], move);
      && ReqsLater(s.reqs, s'.reqs) && id in s'.attempts
      && forall i :: i in s.attempts && i != id ==> i in s'.attempts && s'.attempts[i] == s.attempts[i]
  {
    hide Advance;
    hide Local;
    hide ToClose;
    AdvanceIs(s, id, s.attempts[id], move);
  }

  lemma StepExtends(s: State, act: Action)
    ensures Extended(s, Step(s, act))
  {
    hide Advance;
    if act.Do? && act.id in s.attempts { MoveExtends(s, act.id, act.move); }
  }

  lemma {:induction false} RunExtends(s: State, more: seq<Action>)
    ensures Extended(s, Exec(s, more))
  {
    if more != [] {
      RunExtends(s, more[..|more| - 1]);
      StepExtends(Exec(s, more[..|more| - 1]), more[|more| - 1]);
    }
  }

  /** `refused` means the attempt removed nothing and never will: either it sent no
      request, or the server answered that it carried out nothing. */
  lemma RefusedRemovedNothing(s0: State, acts: seq<Action>, id: nat, more: seq<Action>)
    requires Init(s0) && id in Exec(s0, acts).attempts && Exec(s0, acts).attempts[id].armed
    requires var s := Exec(s0, acts); var f := s.attempts[id].file;
      f in s.ledger && s.ledger[f].Written? && s.ledger[f].rec.state == Refused
    ensures var s' := Exec(Exec(s0, acts), more);
      && id in s'.attempts && Harmless(s'.reqs, s'.attempts[id])
      && (forall i: nat :: i < |s'.reqs| && s'.reqs[i].attempt == id ==> s'.reqs[i].status.Rejected?)
  {
    var s := Exec(s0, acts);
    Reachable(s0, acts);
    assert AttemptOk(s, s.attempts[id]);
    RunExtends(s, more);
    RunKeeps(s, more);
    var s' := Exec(s, more);
    forall i: nat | i < |s'.reqs| && s'.reqs[i].attempt == id
      ensures s'.reqs[i].status.Rejected?
    {
      assert RequestOk(s', i);
    }
  }

  lemma OwnRequestMeans(s: State, id: nat)
    requires Inv(s) && id in s.attempts && s.attempts[id].req.Some?
    ensures HasRequest(s.reqs, s.attempts[id]) && s.reqs[s.attempts[id].req.value].uid == s.attempts[id].podUid
    ensures s.reqs[s.attempts[id].req.value].attempt == id
  {
    assert RequestOk(s, s.attempts[id].req.value);
  }

  // ---- a spent budget stays spent --------------------------------------------------

  /** The file exists, now and after a power loss, and nobody who owns it is alive: the
      state any finished, refused or crashed attempt leaves behind. */
  ghost predicate Settled(s: State, file: string) {
    && file in s.ledger && file in s.disk
    && (forall i :: i in s.attempts && s.attempts[i].file == file && Holds(s.attempts[i]) ==> !Live(s.attempts[i]))
  }

  lemma UnownedMove(s: State, id: nat, move: Move, file: string)
    requires Inv(s) && Settled(s, file) && id in s.attempts && Live(s.attempts[id]) && s.attempts[id].file == file
    ensures var s' := Advance(s, id, s.attempts[id], move); Settled(s', file) && s'.reqs == s.reqs
  {
    var a := s.attempts[id];
    AdvanceIs(s, id, a, move);
    assert AttemptOk(s, a);
    if LocalPC(a) { LocalKeeps(s, a, move); }
  }

  lemma LocalFile(s: State, a: Attempt, move: Move)
    ensures Local(s, a, move).file == a.file
  {
  }

  /** What a move of one attempt can reach: its own file, itself, one request of its own. */
  ghost predicate Within(s: State, s': State, id: nat, file: string) {
    && OnlyFile(s.ledger, s'.ledger, file) && OnlyFile(s.disk, s'.disk, file)
    && (s' == s || (id in s'.attempts && s'.attempts == s.attempts[id := s'.attempts[id]] && s'.attempts[id].file == file))
    && (s'.reqs == s.reqs || (|s'.reqs| == |s.reqs| + 1 && s'.reqs[|s.reqs|].file == file))
  }

  lemma WithWithin(s: State, id: nat, b: Attempt)
    ensures Within(s, With(s, id, b), id, b.file)
  {
  }

  lemma FillWithin(s: State, id: nat, a: Attempt, fill: FillOutcome)
    ensures Within(s, FillLedger(s, id, a, fill), id, a.file)
  {
  }

  lemma CloseWithin(s: State, id: nat, a: Attempt, rec: Record, why: Reason, close: CloseOutcome)
    ensures Within(s, CloseLedger(s, id, a, rec, why, close), id, a.file)
  {
  }

  lemma CreateWithin(s: State, id: nat, a: Attempt, err: bool)
    ensures Within(s, CreateFile(s, id, a, err), id, a.file)
  {
  }

  lemma WriteWithin(s: State, id: nat, a: Attempt, ok: bool, landed: bool)
    ensures Within(s, WriteToken(s, id, a, ok, landed), id, a.file)
  {
  }

  lemma IssueWithin(s: State, id: nat, a: Attempt, blocked: bool)
    ensures Within(s, IssueDelete(s, id, a, blocked), id, a.file)
  {
  }

  lemma FileMoveWithin(s: State, id: nat, a: Attempt, move: Move)
    requires !LocalPC(a) && !move.Crash? && Taken(a, move)
    ensures Within(s, Advance(s, id, a, move), id, a.file)
  {
    AdvanceIs(s, id, a, move);
    match move
    case Create(err) => CreateWithin(s, id, a, err);
    case Fill(fill) => FillWithin(s, id, a, fill);
    case Write(ok, landed) => WriteWithin(s, id, a, ok, landed);
    case Issue(blocked) => IssueWithin(s, id, a, blocked);
    case Close(close) => CloseWithin(s, id, a, a.pc.rec, a.pc.why, close);
  }

  lemma AdvanceWithin(s: State, id: nat, a: Attempt, move: Move)
    ensures Within(s, Advance(s, id, a, move), id, a.file)
  {
    if LocalPC(a) || move.Crash? || !Taken(a, move) {
      AdvanceIs(s, id, a, move);
      LocalFile(s, a, move);
      WithWithin(s, id, Local(s, a, move));
      WithWithin(s, id, a);
      WithWithin(s, id, a.(pc := Crashed));
    } else {
      FileMoveWithin(s, id, a, move);
    }
  }

  lemma OtherMove(s: State, id: nat, move: Move, file: string)
    requires Settled(s, file) && id in s.attempts && s.attempts[id].file != file
    ensures var s' := Advance(s, id, s.attempts[id], move);
      && Settled(s', file)
      && (forall i: nat :: |s.reqs| <= i < |s'.reqs| ==> s'.reqs[i].file != file)
  {
    AdvanceWithin(s, id, s.attempts[id], move);
    hide Advance;
  }

  lemma SettledStays(s: State, act: Action, file: string)
    requires Inv(s) && Settled(s, file)
    ensures Settled(Step(s, act), file)
    ensures forall i: nat :: |s.reqs| <= i < |Step(s, act).reqs| ==> Step(s, act).reqs[i].file != file
  {
    hide Inv;
    hide Advance;
    if act.Do? && act.id in s.attempts && Live(s.attempts[act.id]) {
      if s.attempts[act.id].file == file {
        UnownedMove(s, act.id, act.move, file);
      } else {
        OtherMove(s, act.id, act.move, file);
      }
    }
  }

  /** From any recorded state, including the `attempted` a crash leaves behind, no run
      sends another delete for that (base run, target). */
  lemma {:induction false} NoDeleteOnceRecorded(s: State, more: seq<Action>, file: string)
    requires Inv(s) && Settled(s, file)
    ensures Settled(Exec(s, more), file) && |Exec(s, more).reqs| >= |s.reqs|
    ensures forall i: nat :: |s.reqs| <= i < |Exec(s, more).reqs| ==> Exec(s, more).reqs[i].file != file
  {
    if more != [] {
      var init := more[..|more| - 1];
      NoDeleteOnceRecorded(s, init, file);
      RunKeeps(s, init);
      RunExtends(s, init);
      var t := Exec(s, init);
      SettledStays(t, more[|more| - 1], file);
      StepExtends(t, more[|more| - 1]);
      forall i: nat | |s.reqs| <= i < |Exec(s, more).reqs|
        ensures Exec(s, more).reqs[i].file != file
      {
        if i < |t.reqs| { assert Exec(s, more).reqs[i].(status := t.reqs[i].status) == t.reqs[i]; }
      }
    }
  }
}
