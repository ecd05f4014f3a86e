/** Runs as timelines: the state before each action, what a step can do to one attempt, and
    the step at which something became true of it. */
module Timeline {
  import opened Wrappers
  import opened Cluster
  import opened Protocol
  import opened Invariant
  import opened Preservation
  import opened StepPreservation
  import opened Safety

  /** The state before the k-th action of a run; after the last one when k is its length. */
  ghost function Moment(s0: State, acts: seq<Action>, k: nat): State
    requires k <= |acts|
  {
    Exec(s0, acts[..k])
  }

  lemma ExecNone(s: State)
    ensures Exec(s, []) == s
  {
  }

  lemma MomentNext(s0: State, acts: seq<Action>, k: nat)
    requires k < |acts|
    ensures Moment(s0, acts, k + 1) == Step(Moment(s0, acts, k), acts[k])
  {
    hide Step;
    assert acts[..k + 1][..k] == acts[..k];
  }

  lemma MomentLast(s0: State, acts: seq<Action>)
    ensures Moment(s0, acts, |acts|) == Exec(s0, acts)
  {
    assert acts[..|acts|] == acts;
  }

  lemma {:induction false} ExecSplits(s: State, acts: seq<Action>, j: nat)
    requires j <= |acts|
    ensures Exec(Exec(s, acts[..j]), acts[j..]) == Exec(s, acts)
  {
    if j == |acts| {
      assert acts[..j] == acts;
    } else {
      var init := acts[..|acts| - 1];
      ExecSplits(s, init, j);
      assert init[..j] == acts[..j] && init[j..] == acts[j..][..|acts[j..]| - 1];
    }
  }

  /** A run that was continued kept its attempts and requests. */
  lemma SinceThen(s0: State, acts: seq<Action>, longer: seq<Action>)
    requires acts <= longer
    ensures Extended(Exec(s0, acts), Exec(s0, longer))
  {
    hide Step;
    ExecSplits(s0, longer, |acts|);
    assert longer[..|acts|] == acts;
    RunExtends(Exec(s0, acts), longer[|acts|..]);
  }

  // ---- when something became true ------------------------------------------------------

  /** The attempt is there and carries the mark. */
  ghost predicate Marked(s0: State, acts: seq<Action>, k: nat, id: nat, mark: Attempt -> bool) {
    k <= |acts| && id in Moment(s0, acts, k).attempts && mark(Moment(s0, acts, k).attempts[id])
  }

  /** A mark an attempt carries at the end was last put on at one step of the run, and it has
      carried it ever since. */
  lemma {:induction false} LastRise(s0: State, acts: seq<Action>, id: nat, mark: Attempt -> bool, n: nat) returns (k: nat)
    requires s0.attempts == map[] && n <= |acts| && forall m: nat :: n <= m <= |acts| ==> Marked(s0, acts, m, id, mark)
    ensures k < |acts| && !Marked(s0, acts, k, id, mark)
    ensures forall m: nat :: k < m <= |acts| ==> Marked(s0, acts, m, id, mark)
    decreases n
  {
    hide Step;
    assert Marked(s0, acts, n, id, mark);
    if n == 0 {
      assert false;
    } else if Marked(s0, acts, n - 1, id, mark) {
      k := LastRise(s0, acts, id, mark, n - 1);
    } else {
      k := n - 1;
    }
  }

  // ---- what a step does to one attempt -------------------------------------------------

  predicate SameButPC(a: Attempt, b: Attempt) {
    b == a.(pc := b.pc)
  }

  predicate Own(act: Action, id: nat, s: State) {
    act.Do? && act.id == id && id in s.attempts && Live(s.attempts[id])
  }

  /** Only its own moves change an attempt; anybody else can at most cut it off. */
  lemma OthersLeaveItAlone(s: State, act: Action, id: nat)
    requires id in s.attempts && !Own(act, id, s)
    ensures id in Step(s, act).attempts && SameButPC(s.attempts[id], Step(s, act).attempts[id])
    ensures var a, b := s.attempts[id], Step(s, act).attempts[id]; b.pc == a.pc || b.pc == Crashed
  {
    if act.Do? && act.id in s.attempts {
      AdvanceWithin(s, act.id, s.attempts[act.id], act.move);
    }
  }

  /** What the reads of an attempt left in its locals. */
  ghost predicate SameFindings(a: Attempt, b: Attempt) {
    && b.t == a.t && b.file == a.file && b.ref == a.ref && b.podUid == a.podUid && b.controllerUid == a.controllerUid
    && b.stableUid == a.stableUid && b.volume == a.volume
    && b.lastUid == a.lastUid && b.newUid == a.newUid && b.claimAfter == a.claimAfter
  }

  /** A move that touches a file, the data or a request finds nothing out: it can mint or
      write the token, arm the attempt, send its one request, and move on. */
  ghost predicate FileMoved(a: Attempt, b: Attempt) {
    && b == a.(pc := b.pc, token := b.token, armed := b.armed, wrote := b.wrote, req := b.req)
    && !b.pc.Auth? && (b.armed ==> a.armed || a.pc.Filling?) && (!a.pc.Issuing? ==> b.req == a.req)
  }

  lemma CreateMoves(s: State, id: nat, a: Attempt, err: bool)
    ensures FileMoved(a, CreateFile(s, id, a, err).attempts[id])
  {
  }

  lemma FillMoves(s: State, id: nat, a: Attempt, fill: FillOutcome)
    requires a.pc.Filling?
    ensures FileMoved(a, FillLedger(s, id, a, fill).attempts[id])
  {
    hide Intent;
  }

  lemma WriteMoves(s: State, id: nat, a: Attempt, ok: bool, landed: bool)
    ensures FileMoved(a, WriteToken(s, id, a, ok, landed).attempts[id])
  {
    hide Terminal;
    hide LedgerKey;
  }

  lemma IssueMoves(s: State, id: nat, a: Attempt, blocked: bool)
    requires a.pc.Issuing?
    ensures FileMoved(a, IssueDelete(s, id, a, blocked).attempts[id])
  {
    hide Terminal;
  }

  lemma CloseMoves(s: State, id: nat, a: Attempt, rec: Record, why: Reason, close: CloseOutcome)
    ensures FileMoved(a, CloseLedger(s, id, a, rec, why, close).attempts[id])
  {
  }

  lemma FileMoveIs(s: State, id: nat, move: Move)
    requires id in s.attempts && !LocalPC(s.attempts[id])
    ensures var s' := Advance(s, id, s.attempts[id], move); id in s'.attempts && FileMoved(s.attempts[id], s'.attempts[id])
  {
    hide Advance;
    hide CreateFile;
    hide FillLedger;
    hide WriteToken;
    hide IssueDelete;
    hide CloseLedger;
    var a := s.attempts[id];
    AdvanceIs(s, id, a, move);
    if Taken(a, move) {
      match move
      case Create(err) => CreateMoves(s, id, a, err);
      case Fill(fill) => FillMoves(s, id, a, fill);
      case Write(ok, landed) => WriteMoves(s, id, a, ok, landed);
      case Issue(blocked) => IssueMoves(s, id, a, blocked);
      case Close(close) => CloseMoves(s, id, a, a.pc.rec, a.pc.why, close);
      case _ =>
    }
    AdvanceWithin(s, id, a, move);
  }

  lemma StartedFresh(s: State, act: Action, id: nat)
    requires id !in s.attempts && id in Step(s, act).attempts
    ensures act.Start? && Step(s, act).attempts[id] == NewAttempt(act.target, act.runId)
  {
    if act.Do? && act.id in s.attempts { AdvanceWithin(s, act.id, s.attempts[act.id], act.move); }
  }

  /** A step that changed an attempt's findings is a read of its own. */
  lemma FindingsStep(s: State, act: Action, id: nat)
    requires id in s.attempts
    ensures id in Step(s, act).attempts
    ensures var a, b := s.attempts[id], Step(s, act).attempts[id];
      SameFindings(a, b) || (Own(act, id, s) && LocalPC(a) && b == Local(s, a, act.move))
  {
    hide Local;
    hide Advance;
    if Own(act, id, s) {
      AdvanceIs(s, id, s.attempts[id], act.move);
      if !LocalPC(s.attempts[id]) { FileMoveIs(s, id, act.move); }
    } else {
      OthersLeaveItAlone(s, act, id);
    }
  }

  // ---- pods over time ------------------------------------------------------------------

  lemma StepIsLater(s: State, act: Action, ref: Ref, uid: Uid)
    requires ClusterOk(s.c) && uid in s.c.used && StandsAt(Step(s, act).c, ref, uid)
    ensures StandsAt(s.c, ref, uid)
  {
    hide Advance;
    match act
    case World(d) => DisturbIsLater(s.c, d);
    case Serve(index, verdict) => if index < |s.reqs| { ServedIsLater(s.c, s.reqs[index], verdict); }
    case PowerLoss(fallBack, torn) =>
    case Start(i, t, runId) =>
    case Do(i, move) => if i in s.attempts { MoveTouchesNoPod(s, i, s.attempts[i], move); }
  }

  lemma UsedStays(s: State, act: Action)
    requires ClusterOk(s.c)
    ensures s.c.used <= Step(s, act).c.used
  {
    hide Advance;
    match act
    case World(d) => DisturbIsLater(s.c, d);
    case Serve(index, verdict) => if index < |s.reqs| { ServedIsLater(s.c, s.reqs[index], verdict); }
    case PowerLoss(fallBack, torn) =>
    case Start(i, t, runId) =>
    case Do(i, move) => if i in s.attempts { MoveUsesNoUid(s, i, s.attempts[i], move); }
  }

  lemma MoveUsesNoUid(s: State, id: nat, a: Attempt, move: Move)
    ensures Advance(s, id, a, move).c.used == s.c.used
  {
    hide Advance;
    hide Local;
    hide Intent;
    hide ToClose;
    AdvanceIs(s, id, a, move);
    if LocalPC(a) || move.Crash? || !Taken(a, move) {
      assert Advance(s, id, a, move).c == s.c;
    }
  }

  /** A known pod that stands at the end stood there at every earlier moment it was known;
      so one that is gone never comes back. */
  lemma {:induction false} StoodAllAlong(s0: State, acts: seq<Action>, k: nat, m: nat, ref: Ref, uid: Uid)
    requires Init(s0) && k <= m <= |acts| && uid in Moment(s0, acts, k).c.used && StandsAt(Moment(s0, acts, m).c, ref, uid)
    ensures StandsAt(Moment(s0, acts, k).c, ref, uid)
    decreases m - k
  {
    hide Step;
    if k < m {
      MomentNext(s0, acts, k);
      Reachable(s0, acts[..k]);
      assert ClusterOk(Moment(s0, acts, k).c);
      UsedStays(Moment(s0, acts, k), acts[k]);
      StoodAllAlong(s0, acts, k + 1, m, ref, uid);
      StepIsLater(Moment(s0, acts, k), acts[k], ref, uid);
    }
  }
}
