/** The gates of a passing recreation, as moments of its run: none of them can be left out, and
    they are gone through in the order in which the program has them. */
module Gates {
  import opened Wrappers
  import opened Cluster
  import opened Protocol
  import opened Invariant
  import opened Preservation
  import opened StepPreservation
  import opened Safety
  import opened Timeline
  import opened Replacement
  import opened Persistence

  /** How many gates on the way to a pass the attempt has behind it. */
  function Behind(pc: PC): nat {
    match pc
    case Rechecking => 1
    case Issuing => 2
    case Awaiting => 3
    case PollingUid | PollingReady => 4
    case ReadingClaim => 5
    case Checking => 6
    case ReadingBack => 7
    case Closing(_, why) => if why == Passed then 8 else 0
    case Finished(why) => if why == Passed || why == LedgerNotClosed then 8 else 0
    case _ => 0
  }

  /** What it takes to get through gate `n`: what the attempt did there and what it found. */
  ghost predicate Through(s: State, a: Attempt, move: Move, n: nat) {
    match n
    case 1 => a.pc == Writing && move.Write? && move.ok
    case 2 => a.pc == Rechecking && move == Recheck(false) && StandsAt(s.c, a.ref, a.podUid)
    case 3 => a.pc == Issuing && move == Issue(false) && !Unnamed(a)
    case 4 => a.pc == Awaiting && move == Answer(false) && Admitted(s.reqs, a)
    case 5 => a.pc == PollingReady && move == PollReady(false) && a.ref in s.c.pods && s.c.pods[a.ref].ready
    case 6 =>
      if a.pc == PollingReady then
        a.t.claimName == "" && move == PollReady(false) && a.ref in s.c.pods && s.c.pods[a.ref].ready
      else
        a.pc == ReadingClaim && move == ReadClaim(false)
        && ClaimRef(a.t) in s.c.claims && s.c.claims[ClaimRef(a.t)].uid == a.stableUid
    case 7 => a.pc == Checking && move == AfterCheck(true)
    case 8 => a.pc == ReadingBack && move == ReadBack(false) && InData(s, a)
    case _ => false
  }

  lemma WaitingGate(s: State, a: Attempt, move: Move, n: nat)
    requires a.pc.Awaiting? || a.pc.PollingUid? || a.pc.PollingReady?
    requires Behind(a.pc) < n <= Behind(Local(s, a, move).pc)
    ensures Through(s, a, move, n)
  {
    hide Terminal;
  }

  lemma ConfirmingGate(s: State, a: Attempt, move: Move, n: nat)
    requires a.pc.Rechecking? || a.pc.ReadingClaim? || a.pc.Checking? || a.pc.ReadingBack?
    requires Behind(a.pc) < n <= Behind(Local(s, a, move).pc)
    ensures Through(s, a, move, n)
  {
    hide Terminal;
    hide LedgerKey;
  }

  lemma NoGate(s: State, a: Attempt, move: Move)
    requires a.pc.Auth? || a.pc.Peeking? || a.pc.Finished? || a.pc.Crashed?
    ensures Behind(Local(s, a, move).pc) <= Behind(a.pc)
  {
    hide Authorise;
    if a.pc.Auth? { AuthoriseShape(s.c, a, a.pc.read, move); }
  }

  lemma ClaimingGate(s: State, id: nat, a: Attempt, err: bool, fill: FillOutcome)
    ensures id in CreateFile(s, id, a, err).attempts && id in FillLedger(s, id, a, fill).attempts
    ensures Behind(CreateFile(s, id, a, err).attempts[id].pc) == 0 && Sensible(CreateFile(s, id, a, err).attempts[id].pc)
    ensures Behind(FillLedger(s, id, a, fill).attempts[id].pc) == 0 && Sensible(FillLedger(s, id, a, fill).attempts[id].pc)
  {
    hide Intent;
  }

  lemma ChangingGate(s: State, id: nat, a: Attempt, ok: bool, landed: bool, blocked: bool)
    ensures Behind(WriteToken(s, id, a, ok, landed).attempts[id].pc) == if ok then 1 else 0
    ensures Behind(IssueDelete(s, id, a, blocked).attempts[id].pc) == if blocked || Unnamed(a) then 0 else 3
    ensures id in WriteToken(s, id, a, ok, landed).attempts && id in IssueDelete(s, id, a, blocked).attempts
    ensures Sensible(WriteToken(s, id, a, ok, landed).attempts[id].pc) && Sensible(IssueDelete(s, id, a, blocked).attempts[id].pc)
  {
    hide Terminal;
    hide LedgerKey;
    hide Unnamed;
  }

  lemma ClosingGate(s: State, id: nat, a: Attempt, rec: Record, why: Reason, close: CloseOutcome)
    requires a.pc == Closing(rec, why)
    ensures Behind(CloseLedger(s, id, a, rec, why, close).attempts[id].pc) == Behind(a.pc) || why == LedgerNotClosed
    ensures id in CloseLedger(s, id, a, rec, why, close).attempts && Sensible(CloseLedger(s, id, a, rec, why, close).attempts[id].pc)
  {
  }

  /** Nobody sets out to close a record for failing to close it. */
  predicate Sensible(pc: PC) {
    pc.Closing? ==> pc.why != LedgerNotClosed
  }

  lemma FileGate(s: State, id: nat, move: Move, n: nat)
    requires id in s.attempts && !LocalPC(s.attempts[id]) && Sensible(s.attempts[id].pc)
    requires var s' := Advance(s, id, s.attempts[id], move); id in s'.attempts && Behind(s.attempts[id].pc) < n <= Behind(s'.attempts[id].pc)
    ensures Through(s, s.attempts[id], move, n)
  {
    hide Advance;
    hide CreateFile;
    hide FillLedger;
    hide WriteToken;
    hide IssueDelete;
    hide CloseLedger;
    hide Unnamed;
    var a := s.attempts[id];
    AdvanceIs(s, id, a, move);
    if Taken(a, move) {
      match move
      case Create(err) => ClaimingGate(s, id, a, err, Flushed);
      case Fill(fill) => ClaimingGate(s, id, a, false, fill);
      case Write(ok, landed) => ChangingGate(s, id, a, ok, landed, false);
      case Issue(blocked) => ChangingGate(s, id, a, false, false, blocked);
      case Close(close) => ClosingGate(s, id, a, a.pc.rec, a.pc.why, close);
      case _ =>
    }
  }

  /** A gate is passed only by going through it. */
  lemma GateStep(s: State, act: Action, id: nat, n: nat)
    requires id in Step(s, act).attempts && n <= Behind(Step(s, act).attempts[id].pc) && n > 0
    requires id in s.attempts ==> Sensible(s.attempts[id].pc) && Behind(s.attempts[id].pc) < n
    ensures id in s.attempts && act.Do? && act.id == id && Through(s, s.attempts[id], act.move, n)
  {
    hide Advance;
    hide Local;
    hide Through;
    if id !in s.attempts {
      StartedFresh(s, act, id);
    } else if Own(act, id, s) {
      var a := s.attempts[id];
      if !LocalPC(a) {
        FileGate(s, id, act.move, n);
      } else {
        AdvanceIs(s, id, a, act.move);
        if a.pc.Awaiting? || a.pc.PollingUid? || a.pc.PollingReady? {
          WaitingGate(s, a, act.move, n);
        } else if a.pc.Rechecking? || a.pc.ReadingClaim? || a.pc.Checking? || a.pc.ReadingBack? {
          ConfirmingGate(s, a, act.move, n);
        } else {
          NoGate(s, a, act.move);
        }
      }
    } else {
      OthersLeaveItAlone(s, act, id);
    }
  }

  lemma LocalSensible(s: State, a: Attempt, move: Move)
    requires LocalPC(a) && Live(a)
    ensures Sensible(Local(s, a, move).pc)
  {
    hide Authorise;
    hide Terminal;
    hide LedgerKey;
    if a.pc.Auth? { AuthoriseShape(s.c, a, a.pc.read, move); }
  }

  lemma FileSensible(s: State, id: nat, a: Attempt, move: Move)
    requires !LocalPC(a) && Sensible(a.pc)
    ensures var s' := Advance(s, id, a, move); id in s'.attempts && Sensible(s'.attempts[id].pc)
  {
    hide Advance;
    hide CreateFile;
    hide FillLedger;
    hide WriteToken;
    hide IssueDelete;
    hide CloseLedger;
    AdvanceIs(s, id, a, move);
    if Taken(a, move) {
      match move
      case Create(err) => ClaimingGate(s, id, a, err, Flushed);
      case Fill(fill) => ClaimingGate(s, id, a, false, fill);
      case Write(ok, landed) => ChangingGate(s, id, a, ok, landed, false);
      case Issue(blocked) => ChangingGate(s, id, a, false, false, blocked);
      case Close(close) => ClosingGate(s, id, a, a.pc.rec, a.pc.why, close);
      case _ =>
    }
  }

  lemma StepSensible(s: State, act: Action, id: nat)
    requires id in Step(s, act).attempts && (id in s.attempts ==> Sensible(s.attempts[id].pc))
    ensures Sensible(Step(s, act).attempts[id].pc)
  {
    hide Advance;
    hide Local;
    if id !in s.attempts {
      StartedFresh(s, act, id);
    } else if Own(act, id, s) {
      var a := s.attempts[id];
      AdvanceIs(s, id, a, act.move);
      if LocalPC(a) { LocalSensible(s, a, act.move); } else { FileSensible(s, id, a, act.move); }
    } else {
      OthersLeaveItAlone(s, act, id);
    }
  }

  lemma {:induction false} RunSensible(s0: State, acts: seq<Action>, id: nat)
    requires Init(s0)
    ensures id in Exec(s0, acts).attempts ==> Sensible(Exec(s0, acts).attempts[id].pc)
  {
    hide Step;
    if acts != [] {
      var init := acts[..|acts| - 1];
      RunSensible(s0, init, id);
      if id in Exec(s0, acts).attempts { StepSensible(Exec(s0, init), acts[|acts| - 1], id); }
    }
  }

  ghost function GateMark(n: int): Attempt -> bool {
    (a: Attempt) => Behind(a.pc) >= n
  }

  /** Action `k` is the last time attempt `id` went through gate `n`. */
  ghost predicate PassedAt(s0: State, acts: seq<Action>, id: nat, n: nat, k: nat) {
    && k < |acts| && id in Moment(s0, acts, k).attempts && acts[k].Do? && acts[k].id == id
    && Through(Moment(s0, acts, k), Moment(s0, acts, k).attempts[id], acts[k].move, n)
    && !Marked(s0, acts, k, id, GateMark(n))
    && (forall m: nat :: k < m <= |acts| ==> Marked(s0, acts, m, id, GateMark(n)))
  }

  lemma FindGate(s0: State, acts: seq<Action>, id: nat, n: nat) returns (k: nat)
    requires Init(s0) && id in Exec(s0, acts).attempts && 0 < n <= Behind(Exec(s0, acts).attempts[id].pc)
    ensures PassedAt(s0, acts, id, n, k)
  {
    hide Step;
    hide Through;
    hide Behind;
    MomentLast(s0, acts);
    k := LastRise(s0, acts, id, GateMark(n), |acts|);
    MomentNext(s0, acts, k);
    assert Marked(s0, acts, k + 1, id, GateMark(n));
    RunSensible(s0, acts[..k], id);
    GateStep(Moment(s0, acts, k), acts[k], id, n);
  }

  lemma ThroughFrom(s: State, a: Attempt, move: Move, n: nat)
    requires Through(s, a, move, n + 1) && (n == 5 ==> a.pc == ReadingClaim)
    ensures Behind(a.pc) >= n
  {
  }

  /** Gates are gone through in order; only a target without a claim takes the fifth and the
      sixth in one step. */
  lemma GatesInOrder(s0: State, acts: seq<Action>, id: nat, n: nat, k: nat, m: nat)
    requires PassedAt(s0, acts, id, n, k) && PassedAt(s0, acts, id, n + 1, m)
    requires n == 5 ==> Moment(s0, acts, m).attempts[id].pc == ReadingClaim
    ensures k < m
  {
    ThroughFrom(Moment(s0, acts, m), Moment(s0, acts, m).attempts[id], acts[m].move, n);
    hide Through;
    hide Behind;
    hide Exec;
    assert Marked(s0, acts, m, id, GateMark(n));
    assert m < k ==> Marked(s0, acts, k, id, GateMark(n + 1));
  }

  /** Every request left after its attempt had written through the protocol and, after that,
      had found the authorised pod still standing at the name. */
  lemma SentAfterRecheck(s0: State, acts: seq<Action>, r: nat) returns (w: nat, k: nat, m: nat)
    requires Init(s0) && r < |Exec(s0, acts).reqs|
    ensures w < k < m < |acts| && |Moment(s0, acts, m).reqs| == r
    ensures var req := Exec(s0, acts).reqs[r];
      && acts[w].Do? && acts[w].id == req.attempt && acts[w].move.Write? && acts[w].move.ok
      && acts[k] == Do(req.attempt, Recheck(false)) && StandsAt(Moment(s0, acts, k).c, req.ref, req.uid)
      && acts[m] == Do(req.attempt, Issue(false)) && !Blank(req.ref.ns) && !Blank(req.ref.name) && req.uid != NO_UID
  {
    hide Step;
    Reachable(s0, acts);
    assert RequestOk(Exec(s0, acts), r);
    hide Inv;
    m := FindSend(s0, acts, r);
    var id := Exec(s0, acts).reqs[r].attempt;
    var before := acts[..m];
    k := FindGate(s0, before, id, 2);
    w := FindGate(s0, before, id, 1);
    GatesInOrder(s0, before, id, 1, w, k);
    assert before[..k] == acts[..k];
    IdsFixed(s0, acts, id, k, |acts|);
    MomentLast(s0, acts);
  }

  /** The step on which a request was sent. */
  lemma {:induction false} FindSend(s0: State, acts: seq<Action>, r: nat) returns (m: nat)
    requires Init(s0) && r < |Exec(s0, acts).reqs|
    ensures m < |acts| && |Moment(s0, acts, m).reqs| == r
    ensures var req := Exec(s0, acts).reqs[r];
      && acts[m] == Do(req.attempt, Issue(false)) && req.attempt in Moment(s0, acts, m).attempts
      && var a := Moment(s0, acts, m).attempts[req.attempt];
         a.pc == Issuing && req.ref == a.ref && req.uid == a.podUid && !Unnamed(a)
  {
    hide Step;
    hide Unnamed;
    var init, last := acts[..|acts| - 1], acts[|acts| - 1];
    var s := Exec(s0, init);
    StepExtends(s, last);
    if r < |s.reqs| {
      m := FindSend(s0, init, r);
      assert init[..m] == acts[..m];
      assert Exec(s0, acts).reqs[r].(status := s.reqs[r].status) == s.reqs[r];
    } else {
      m := |acts| - 1;
      SendStep(s, last);
    }
  }

  lemma SendStep(s: State, act: Action)
    requires |Step(s, act).reqs| > |s.reqs|
    ensures act.Do? && act.move == Issue(false) && act.id in s.attempts && s.attempts[act.id].pc == Issuing && !Unnamed(s.attempts[act.id])
    ensures var a := s.attempts[act.id]; Step(s, act).reqs == s.reqs + [Request(act.id, a.file, a.ref, a.podUid, Pending)]
  {
    hide Unnamed;
    OnlyIssuingSends(s, act);
  }

  // ---- a pass ------------------------------------------------------------------------------------

  /** What was found at a gate, in terms of what the attempt holds at the end. */
  lemma FoundAtGate(s0: State, acts: seq<Action>, id: nat, n: nat, k: nat)
    requires Init(s0) && id in Exec(s0, acts).attempts && PassedAt(s0, acts, id, n, k) && 2 <= n <= 6
    ensures var a, s := Exec(s0, acts).attempts[id], Moment(s0, acts, k);
      && (n == 2 ==> StandsAt(s.c, a.ref, a.podUid))
      && (n == 4 ==> Admitted(s.reqs, a))
      && (n == 5 ==> a.ref in s.c.pods && s.c.pods[a.ref].ready)
      && (n == 6 && a.t.claimName != "" ==> ClaimRef(a.t) in s.c.claims && s.c.claims[ClaimRef(a.t)].uid == a.stableUid)
      && (n == 6 && a.t.claimName != "" ==> s.attempts[id].pc == ReadingClaim)
  {
    hide Step;
    hide Exec;
    hide Unnamed;
    hide Blank;
    IdsFixed(s0, acts, id, k, |acts|);
    MomentLast(s0, acts);
  }

  lemma TokenAtGate(s0: State, acts: seq<Action>, id: nat, k: nat)
    requires Init(s0) && id in Exec(s0, acts).attempts && PassedAt(s0, acts, id, 8, k)
    ensures InData(Moment(s0, acts, k), Exec(s0, acts).attempts[id])
  {
    hide Step;
    Reachable(s0, acts[..k]);
    ReadingBackMeans(Moment(s0, acts, k), id);
    ExecSplits(s0, acts, k);
    WrittenStaysWrittenInRun(Moment(s0, acts, k), acts[k..], id);
  }

  lemma MoveAtGate(s0: State, acts: seq<Action>, id: nat, n: nat, k: nat)
    requires PassedAt(s0, acts, id, n, k)
    ensures k < |acts| && id in Moment(s0, acts, k).attempts && acts[k].Do? && acts[k].id == id
    ensures var move := acts[k].move;
      && (n == 1 ==> move.Write? && move.ok)
      && (n == 2 ==> move == Recheck(false))
      && (n == 3 ==> move == Issue(false))
      && (n == 4 ==> move == Answer(false))
      && (n == 5 ==> move == PollReady(false))
      && (n == 6 && Moment(s0, acts, k).attempts[id].pc == ReadingClaim ==> move == ReadClaim(false))
      && (n == 7 ==> move == AfterCheck(true) && Moment(s0, acts, k).attempts[id].pc == Checking)
      && (n == 8 ==> move == ReadBack(false))
  {
    hide Marked;
    hide Exec;
  }

  lemma ReadyThenClaim(s0: State, acts: seq<Action>, id: nat, ready: nat, claim: nat)
    requires PassedAt(s0, acts, id, 5, ready) && PassedAt(s0, acts, id, 6, claim)
    ensures ready <= claim && (Moment(s0, acts, claim).attempts[id].pc == ReadingClaim ==> ready < claim)
  {
    hide Exec;
    hide Through;
    hide Behind;
    if Moment(s0, acts, claim).attempts[id].pc == ReadingClaim {
      GatesInOrder(s0, acts, id, 5, ready, claim);
    }
    assert claim < ready ==> Marked(s0, acts, ready, id, GateMark(6));
    assert claim < ready || ready <= claim;
  }

  /** Everything up to the server's answer. */
  lemma ChangeGates(s0: State, acts: seq<Action>, id: nat) returns (write: nat, recheck: nat, send: nat, answer: nat)
    requires Init(s0) && id in Exec(s0, acts).attempts && Behind(Exec(s0, acts).attempts[id].pc) >= 4
    ensures write < recheck < send < answer < |acts| && PassedAt(s0, acts, id, 4, answer)
    ensures acts[write].Do? && acts[write].id == id && acts[write].move.Write? && acts[write].move.ok
    ensures acts[recheck] == Do(id, Recheck(false)) && acts[send] == Do(id, Issue(false)) && acts[answer] == Do(id, Answer(false))
    ensures StandsAt(Moment(s0, acts, recheck).c, Exec(s0, acts).attempts[id].ref, Exec(s0, acts).attempts[id].podUid)
    ensures Admitted(Moment(s0, acts, answer).reqs, Exec(s0, acts).attempts[id])
  {
    hide Exec;
    hide PassedAt;
    hide Init;
    hide Admitted;
    hide StandsAt;
    write := FindGate(s0, acts, id, 1);
    recheck := FindGate(s0, acts, id, 2);
    send := FindGate(s0, acts, id, 3);
    answer := FindGate(s0, acts, id, 4);
    MoveAtGate(s0, acts, id, 1, write);
    MoveAtGate(s0, acts, id, 2, recheck);
    MoveAtGate(s0, acts, id, 3, send);
    MoveAtGate(s0, acts, id, 4, answer);
    FoundAtGate(s0, acts, id, 2, recheck);
    FoundAtGate(s0, acts, id, 4, answer);
    GatesInOrder(s0, acts, id, 1, write, recheck);
    GatesInOrder(s0, acts, id, 2, recheck, send);
    GatesInOrder(s0, acts, id, 3, send, answer);
  }

  /** Everything from the Ready read on. */
  lemma ConfirmGates(s0: State, acts: seq<Action>, id: nat) returns (ready: nat, claim: nat, check: nat, back: nat)
    requires Init(s0) && id in Exec(s0, acts).attempts && Behind(Exec(s0, acts).attempts[id].pc) == 8
    ensures ready <= claim < check < back < |acts| && PassedAt(s0, acts, id, 5, ready)
    ensures acts[ready] == Do(id, PollReady(false)) && acts[check] == Do(id, AfterCheck(true)) && acts[back] == Do(id, ReadBack(false))
    ensures var a := Exec(s0, acts).attempts[id];
      && a.ref in Moment(s0, acts, ready).c.pods && Moment(s0, acts, ready).c.pods[a.ref].ready
      && InData(Moment(s0, acts, back), a)
      && (a.t.claimName != "" ==> ready < claim && ClaimConfirmed(s0, acts, id, claim))
    ensures id in Moment(s0, acts, check).attempts && Moment(s0, acts, check).attempts[id].pc == Checking
  {
    hide Exec;
    hide PassedAt;
    hide Init;
    hide InData;
    ready := FindGate(s0, acts, id, 5);
    claim := FindGate(s0, acts, id, 6);
    check := FindGate(s0, acts, id, 7);
    back := FindGate(s0, acts, id, 8);
    ReadyThenClaim(s0, acts, id, ready, claim);
    MoveAtGate(s0, acts, id, 5, ready);
    MoveAtGate(s0, acts, id, 6, claim);
    MoveAtGate(s0, acts, id, 7, check);
    MoveAtGate(s0, acts, id, 8, back);
    FoundAtGate(s0, acts, id, 5, ready);
    FoundAtGate(s0, acts, id, 6, claim);
    TokenAtGate(s0, acts, id, back);
    GatesInOrder(s0, acts, id, 6, claim, check);
    GatesInOrder(s0, acts, id, 7, check, back);
  }

  /** Action `k` is the attempt's second read of its claim, which still had its first uid. */
  ghost predicate ClaimConfirmed(s0: State, acts: seq<Action>, id: nat, k: nat) {
    && k < |acts| && acts[k] == Do(id, ReadClaim(false)) && id in Exec(s0, acts).attempts
    && var a, c := Exec(s0, acts).attempts[id], Moment(s0, acts, k).c;
       ClaimRef(a.t) in c.claims && c.claims[ClaimRef(a.t)].uid == a.stableUid
  }

  /** A passing recreation in full: the write through the protocol, the recheck that found the
      authorised pod, the one conditional request, its acceptance, a different uid read Ready,
      the claim unchanged, the target's own check, and the token read back; in this order. */
  lemma PassWentThroughAllGates(s0: State, acts: seq<Action>, id: nat)
    returns (write: nat, recheck: nat, send: nat, answer: nat, ready: nat, claim: nat, check: nat, back: nat)
    requires Init(s0) && id in Exec(s0, acts).attempts && Exec(s0, acts).attempts[id].pc == Finished(Passed)
    ensures write < recheck < send < answer < ready <= claim < check < back < |acts|
    ensures acts[write].Do? && acts[write].id == id && acts[write].move.Write? && acts[write].move.ok
    ensures acts[recheck] == Do(id, Recheck(false)) && acts[send] == Do(id, Issue(false)) && acts[answer] == Do(id, Answer(false))
    ensures acts[ready] == Do(id, PollReady(false)) && acts[check] == Do(id, AfterCheck(true)) && acts[back] == Do(id, ReadBack(false))
    ensures var a := Exec(s0, acts).attempts[id];
      && StandsAt(Moment(s0, acts, recheck).c, a.ref, a.podUid)
      && Admitted(Moment(s0, acts, answer).reqs, a)
      && a.ref in Moment(s0, acts, ready).c.pods && Moment(s0, acts, ready).c.pods[a.ref].ready
      && InData(Moment(s0, acts, back), a)
      && (a.t.claimName != "" ==> ready < claim && ClaimConfirmed(s0, acts, id, claim))
    ensures id in Moment(s0, acts, check).attempts && Moment(s0, acts, check).attempts[id].pc == Checking
  {
    hide Exec;
    hide PassedAt;
    hide Init;
    hide InData;
    hide Admitted;
    hide StandsAt;
    hide ClaimConfirmed;
    write, recheck, send, answer := ChangeGates(s0, acts, id);
    ready, claim, check, back := ConfirmGates(s0, acts, id);
    GatesInOrder(s0, acts, id, 4, answer, ready);
  }
}
