/** One attempt of the protocol driven from its start to its end by whatever the world has in
    store for its calls. The driver knows no program text: at every program counter the
    protocol has one move, and the world decides only how that move turns out. */
module Driver {
  import opened Wrappers
  import opened Cluster
  import opened Protocol
  import opened Invariant
  import opened Preservation
  import opened StepPreservation
  import opened Safety
  import opened Timeline

  /** What the world decides around the n-th call of one attempt: what others do first,
      whether the call errs, and how a file operation fares. */
  datatype Fate = Fate(
    others: nat -> seq<Action>, err: nat -> bool, ok: nat -> bool, cancelled: nat -> bool,
    listed: nat -> string, fill: nat -> FillOutcome, close: nat -> CloseOutcome)

  /** Actions that are not this attempt's own: a crash or a power cut would end the
      program text, so the runs where it goes on have neither. */
  predicate Elsewhere(act: Action, id: nat) {
    match act
    case Do(i, _) => i != id
    case PowerLoss(_, _) => false
    case _ => true
  }

  /** What others may do when no other attempt runs: the cluster and the server act. */
  predicate NoAttempt(act: Action) {
    act.World? || act.Serve?
  }

  predicate Allowed(act: Action, id: nat, alone: bool) {
    Elsewhere(act, id) && (alone ==> NoAttempt(act))
  }

  /** The actions of others that can happen around a call of attempt `id`. */
  function Around(others: seq<Action>, id: nat, alone: bool): seq<Action> {
    if others == [] then []
    else
      var init, last := others[..|others| - 1], others[|others| - 1];
      if Allowed(last, id, alone) then Around(init, id, alone) + [last] else Around(init, id, alone)
  }

  /** The declared pod, or the daemon pod that the listing on the node returned. */
  function ResolvedName(t: Target, fate: Fate, clock: nat): string {
    if t.podName != "" then t.podName
    else if t.nodeName != "" && t.podSelector != "" && !fate.err(clock) then fate.listed(clock)
    else ""
  }

  /** A request without a name or a uid, or on a finished context, is never sent. */
  predicate NotSent(a: Attempt, cancelled: bool) {
    Unnamed(a) || cancelled
  }

  predicate Unanswered(reqs: seq<Request>, a: Attempt) {
    HasRequest(reqs, a) && reqs[a.req.value].status.Pending?
  }

  /** The one move an attempt can make where it stands. Waiting for the replacement ends when
      the polls are used up or the run is cancelled. */
  function MoveFor(s: State, a: Attempt, fate: Fate, clock: nat, polls: nat): Move {
    match a.pc
    case Auth(ResolveName) => Resolve(ResolvedName(a.t, fate, clock))
    case Auth(_) => Read(fate.err(clock))
    case Peeking => Peek(fate.err(clock))
    case Creating => Create(fate.err(clock))
    case Filling => Fill(fate.fill(clock))
    case Writing => Write(fate.ok(clock), fate.err(clock))
    case Rechecking => Recheck(fate.err(clock))
    case Issuing => Issue(NotSent(a, fate.cancelled(clock)))
    case Awaiting => Answer(fate.err(clock) || Unanswered(s.reqs, a))
    case PollingUid =>
      if polls == 0 then GiveUp(false) else if fate.cancelled(clock) then GiveUp(true) else PollUid(fate.err(clock))
    case PollingReady => PollReady(fate.err(clock))
    case ReadingClaim => ReadClaim(fate.err(clock))
    case Checking => AfterCheck(fate.ok(clock))
    case ReadingBack => ReadBack(fate.err(clock))
    case Closing(_, _) => Close(fate.close(clock))
    case Finished(_) => Crash
    case Crashed => Crash
  }

  /** How far an attempt still is from its end. */
  function Stage(pc: PC): nat {
    match pc
    case Auth(read) => 30 - Rank(read)
    case Peeking => 20
    case Creating => 19
    case Filling => 18
    case Writing => 17
    case Rechecking => 16
    case Issuing => 15
    case Awaiting => 14
    case PollingReady => 13
    case PollingUid => 12
    case ReadingClaim => 11
    case Checking => 10
    case ReadingBack => 9
    case Closing(_, _) => 8
    case Finished(_) => 0
    case Crashed => 0
  }

  function PollsLeft(move: Move, polls: nat): nat {
    if move.PollUid? && polls > 0 then polls - 1 else polls
  }

  /** The move brought the attempt nearer to its end. */
  ghost predicate GetsOn(a: Attempt, s': State, id: nat, polls: nat, left: nat) {
    id in s'.attempts && (left < polls || (left == polls && Stage(s'.attempts[id].pc) < Stage(a.pc)))
  }

  /** Where attempt `id` ends when each of its calls meets its fate: others act, it makes its
      move, and so on until it is over. */
  ghost function Drive(s: State, id: nat, fate: Fate, clock: nat, polls: nat, alone: bool): State
    decreases polls, if id in s.attempts then Stage(s.attempts[id].pc) else 0
  {
    if id !in s.attempts || !Live(s.attempts[id]) then s
    else
      var a := s.attempts[id];
      var here := Exec(s, Around(fate.others(clock), id, alone));
      var move := MoveFor(here, a, fate, clock, polls);
      var next, left := Step(here, Do(id, move)), PollsLeft(move, polls);
      if GetsOn(a, next, id, polls, left) then Drive(next, id, fate, clock + 1, left, alone) else next
  }

  /** The same when the others have already acted and the attempt's own move is next. */
  ghost function Due(s: State, id: nat, fate: Fate, clock: nat, polls: nat, alone: bool): State
    requires id in s.attempts
  {
    var move := MoveFor(s, s.attempts[id], fate, clock, polls);
    Drive(Step(s, Do(id, move)), id, fate, clock + 1, PollsLeft(move, polls), alone)
  }

  // ---- others -----------------------------------------------------------------------------

  lemma ElsewhereLeavesAlone(s: State, act: Action, id: nat)
    requires id in s.attempts && Elsewhere(act, id)
    ensures id in Step(s, act).attempts && Step(s, act).attempts[id] == s.attempts[id]
  {
    if act.Do? && act.id in s.attempts {
      AdvanceWithin(s, act.id, s.attempts[act.id], act.move);
    }
  }

  lemma AroundSnoc(others: seq<Action>, act: Action, id: nat, alone: bool)
    ensures Around(others + [act], id, alone) ==
      if Allowed(act, id, alone) then Around(others, id, alone) + [act] else Around(others, id, alone)
  {
    assert (others + [act])[..|others|] == others;
  }

  /** Nothing that others may do is kept from happening. */
  lemma {:induction false} AroundTakesAll(others: seq<Action>, id: nat, alone: bool)
    requires forall i :: 0 <= i < |others| ==>
      !(others[i].Do? && others[i].id == id) && !others[i].PowerLoss? && (alone ==> others[i].World? || others[i].Serve?)
    ensures Around(others, id, alone) == others
  {
    if others != [] {
      AroundTakesAll(others[..|others| - 1], id, alone);
      assert others == others[..|others| - 1] + [others[|others| - 1]];
    }
  }

  lemma {:induction false} AroundLeavesAlone(s: State, others: seq<Action>, id: nat, alone: bool)
    requires id in s.attempts
    ensures var s' := Exec(s, Around(others, id, alone)); id in s'.attempts && s'.attempts[id] == s.attempts[id]
  {
    hide Step;
    if others != [] {
      var init, last := others[..|others| - 1], others[|others| - 1];
      AroundLeavesAlone(s, init, id, alone);
      if Allowed(last, id, alone) {
        ExecSnoc(s, Around(init, id, alone), last);
        ElsewhereLeavesAlone(Exec(s, Around(init, id, alone)), last, id);
      }
    }
  }

  // ---- every move gets on ------------------------------------------------------------------

  lemma WaitGetsOn(c: Cluster, a: Attempt, status: RequestStatus, b: bool)
    ensures a.pc == Awaiting && (status.Pending? ==> b) ==> Stage(AfterAnswer(a, status, b).pc) < Stage(a.pc)
    ensures a.pc == PollingReady ==> Stage(AfterPollReady(c, a, b).pc) < Stage(a.pc)
    ensures a.pc == ReadingClaim ==> Stage(AfterReadClaim(c, a, b).pc) < Stage(a.pc)
    ensures a.pc == ReadingBack ==> Stage(AfterReadBack(c, a, b).pc) < Stage(a.pc)
  {
    hide Terminal;
    hide LedgerKey;
  }

  lemma ObjectReadGetsOn(c: Cluster, a: Attempt, read: AuthRead)
    requires a.pc == Auth(read) && !ReadsPod(read) && read != ResolveName
    ensures Stage(ReadObject(c, a, read).pc) < Stage(a.pc)
  {
  }

  lemma AuthGetsOn(c: Cluster, a: Attempt, move: Move)
    requires a.pc.Auth? && (if a.pc.read == ResolveName then move.Resolve? else move.Read?)
    ensures Stage(Authorise(c, a, a.pc.read, move).pc) < Stage(a.pc)
  {
    hide PodFact;
    if !ReadsPod(a.pc.read) && a.pc.read != ResolveName { ObjectReadGetsOn(c, a, a.pc.read); }
    hide ReadObject;
  }

  lemma LocalGetsOn(s: State, a: Attempt, fate: Fate, clock: nat, polls: nat)
    requires LocalPC(a) && Live(a) && (a.pc.Awaiting? ==> HasRequest(s.reqs, a))
    ensures var move := MoveFor(s, a, fate, clock, polls);
      PollsLeft(move, polls) < polls || Stage(Local(s, a, move).pc) < Stage(a.pc)
  {
    hide Authorise;
    hide AfterAnswer;
    hide AfterPollUid;
    hide AfterPollReady;
    hide AfterReadClaim;
    hide AfterReadBack;
    hide ResolvedName;
    var move := MoveFor(s, a, fate, clock, polls);
    if a.pc.Auth? {
      AuthGetsOn(s.c, a, move);
    } else if a.pc.Awaiting? {
      WaitGetsOn(s.c, a, s.reqs[a.req.value].status, move.lost);
    } else if a.pc.PollingReady? || a.pc.ReadingClaim? || a.pc.ReadingBack? {
      WaitGetsOn(s.c, a, Pending, move.err);
    }
  }

  lemma ClaimGetsOn(s: State, id: nat, a: Attempt, err: bool, fill: FillOutcome)
    ensures Stage(CreateFile(s, id, a, err).attempts[id].pc) < Stage(Creating)
    ensures Stage(FillLedger(s, id, a, fill).attempts[id].pc) < Stage(Filling)
  {
    hide Intent;
  }

  lemma ChangeGetsOn(s: State, id: nat, a: Attempt, ok: bool, landed: bool, blocked: bool)
    ensures Stage(WriteToken(s, id, a, ok, landed).attempts[id].pc) < Stage(Writing)
    ensures Stage(IssueDelete(s, id, a, blocked).attempts[id].pc) < Stage(Issuing)
  {
    hide Unnamed;
    hide Terminal;
    hide LedgerKey;
  }

  lemma CloseGetsOn(s: State, id: nat, a: Attempt, close: CloseOutcome)
    requires a.pc.Closing?
    ensures Stage(CloseLedger(s, id, a, a.pc.rec, a.pc.why, close).attempts[id].pc) < Stage(a.pc)
  {
  }

  lemma FileGetsOn(s: State, id: nat, fate: Fate, clock: nat, polls: nat)
    requires id in s.attempts && !LocalPC(s.attempts[id])
    ensures var a := s.attempts[id]; var move := MoveFor(s, a, fate, clock, polls);
      id in Advance(s, id, a, move).attempts && Stage(Advance(s, id, a, move).attempts[id].pc) < Stage(a.pc)
  {
    hide Advance;
    hide CreateFile;
    hide FillLedger;
    hide WriteToken;
    hide IssueDelete;
    hide CloseLedger;
    hide NotSent;
    var a := s.attempts[id];
    var move := MoveFor(s, a, fate, clock, polls);
    FileMoveIs(s, id, move);
    AdvanceIs(s, id, a, move);
    match move
    case Create(err) => ClaimGetsOn(s, id, a, err, Flushed);
    case Fill(fill) => ClaimGetsOn(s, id, a, false, fill);
    case Write(ok, landed) => ChangeGetsOn(s, id, a, ok, landed, false);
    case Issue(blocked) => ChangeGetsOn(s, id, a, false, false, blocked);
    case Close(close) => CloseGetsOn(s, id, a, close);
  }

  lemma MoveGetsOn(s: State, id: nat, fate: Fate, clock: nat, polls: nat)
    requires Inv(s) && id in s.attempts && Live(s.attempts[id])
    ensures var move := MoveFor(s, s.attempts[id], fate, clock, polls);
      GetsOn(s.attempts[id], Step(s, Do(id, move)), id, polls, PollsLeft(move, polls))
  {
    hide Advance;
    hide Local;
    hide MoveFor;
    hide Stage;
    var a := s.attempts[id];
    assert AttemptOk(s, a);
    hide Inv;
    var move := MoveFor(s, a, fate, clock, polls);
    if LocalPC(a) {
      LocalGetsOn(s, a, fate, clock, polls);
      AdvanceIs(s, id, a, move);
    } else {
      FileGetsOn(s, id, fate, clock, polls);
      FilePollsNot(s, a, fate, clock, polls);
    }
  }

  lemma FilePollsNot(s: State, a: Attempt, fate: Fate, clock: nat, polls: nat)
    requires !LocalPC(a)
    ensures !MoveFor(s, a, fate, clock, polls).PollUid?
  {
  }

  lemma DriveIsOver(s: State, id: nat, fate: Fate, clock: nat, polls: nat, alone: bool)
    requires id in s.attempts && !Live(s.attempts[id])
    ensures Drive(s, id, fate, clock, polls, alone) == s
  {
  }

  /** One turn of the driver. */
  lemma DriveTurns(s0: State, acts: seq<Action>, id: nat, fate: Fate, clock: nat, polls: nat, alone: bool)
    requires Init(s0) && id in Exec(s0, acts).attempts && Live(Exec(s0, acts).attempts[id])
    ensures var s := Exec(s0, acts); var here := Exec(s, Around(fate.others(clock), id, alone));
      id in here.attempts && Drive(s, id, fate, clock, polls, alone) == Due(here, id, fate, clock, polls, alone)
  {
    hide Step;
    hide MoveFor;
    hide GetsOn;
    var s := Exec(s0, acts);
    var others := Around(fate.others(clock), id, alone);
    AroundLeavesAlone(s, fate.others(clock), id, alone);
    Reachable(s0, acts);
    RunKeeps(s, others);
    hide Exec;
    hide Inv;
    MoveGetsOn(Exec(s, others), id, fate, clock, polls);
  }

  lemma OneTurnOn(s: State, others: seq<Action>, act: Action, rest: seq<Action>)
    ensures Exec(s, others + [act] + rest) == Exec(Step(Exec(s, others), act), rest)
  {
    hide Step;
    var all := others + [act] + rest;
    ExecSplits(s, all, |others| + 1);
    assert all[..|others| + 1] == others + [act] && all[|others| + 1..] == rest;
    ExecSnoc(s, others, act);
  }

  /** Whatever the fate, driving an attempt is a run of the protocol, and the attempt ends. */
  lemma {:induction false} DriveIsARun(s0: State, before: seq<Action>, id: nat, fate: Fate, clock: nat, polls: nat, alone: bool)
    returns (acts: seq<Action>)
    requires Init(s0) && id in Exec(s0, before).attempts
    ensures var s' := Exec(Exec(s0, before), acts);
      s' == Drive(Exec(s0, before), id, fate, clock, polls, alone) && id in s'.attempts && !Live(s'.attempts[id])
    decreases polls, Stage(Exec(s0, before).attempts[id].pc)
  {
    var s := Exec(s0, before);
    acts := [];
    if Live(s.attempts[id]) {
      var others := Around(fate.others(clock), id, alone);
      var here := Exec(s, others);
      DriveTurns(s0, before, id, fate, clock, polls, alone);
      AroundLeavesAlone(s, fate.others(clock), id, alone);
      var move := MoveFor(here, here.attempts[id], fate, clock, polls);
      Reachable(s0, before);
      RunKeeps(s, others);
      MoveGetsOn(here, id, fate, clock, polls);
      hide Step;
      hide Drive;
      hide MoveFor;
      hide Inv;
      OneTurnOn(s0, before + others, Do(id, move), []);
      ExecSplits(s0, before + others, |before|);
      assert (before + others)[..|before|] == before && (before + others)[|before|..] == others;
      assert before + others + [Do(id, move)] + [] == before + others + [Do(id, move)];
      hide Exec;
      var rest := DriveIsARun(s0, before + others + [Do(id, move)], id, fate, clock + 1, PollsLeft(move, polls), alone);
      OneTurnOn(s, others, Do(id, move), rest);
      acts := others + [Do(id, move)] + rest;
    }
  }
}
