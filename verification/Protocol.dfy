/** The "recreate once" acceptance protocol as a transition system: any number of
    attempts, the ledger files they claim, the delete requests they send, the API
    server that answers them, and a cluster that other actors keep changing.

    `Step` is total. An action that is not possible in the current state leaves the
    state as it is, so EVERY sequence of actions is a run, including those where
    attempts race, are cancelled, crash at any line, or the machine loses power. */
module Protocol {
  import opened Wrappers
  import opened Cluster
  import Strings

  /** A declared business object, as the registry of acceptance targets lists it. */
  datatype Target = Target(
    ns: string, controllerKind: string, controllerName: string,
    podName: string, claimName: string, hostPath: string,
    nodeName: string, podSelector: string, protocol: string, ledgerToken: string)

  /** What names a target's ledger file: its token, or its controller when that is blank. */
  function LedgerKey(t: Target): string {
    if Strings.Trim(t.ledgerToken) != "" then Strings.Trim(t.ledgerToken) else t.controllerName
  }

  function LedgerFile(runId: string, t: Target): string {
    "ledger-" + runId + "-" + LedgerKey(t) + ".json"
  }

  datatype LedgerState = Attempted | Done | Unknown | Refused

  /** How a record was closed, as its outcome field spells it. */
  datatype Outcome =
    | NotClosed | WriteFail | IdentityChange | DeleteConflict | DeleteForbidden | DeleteNotFound
    | DeleteTimeout | DeleteFail | Cancelled | NotReady | PvcGone | PvcReplaced | DataGone | PassOutcome

  datatype Record = Record(
    state: LedgerState, oldPodUid: Uid, oldStableUid: Uid, newPodUid: Uid, token: Token, outcome: Outcome)

  /** A ledger file as a reader finds it: not (yet) a readable record, or one. */
  datatype File = Partial | Written(rec: Record)

  datatype RejectReason = Conflict | NotFound | Forbidden | ServerError
  datatype RequestStatus = Pending | Accepted | Rejected(why: RejectReason)

  /** A delete request; the server compares the uid before it acts. */
  datatype Request = Request(attempt: nat, file: string, ref: Ref, uid: Uid, status: RequestStatus)

  /** The live reads of the authorisation, in the order they are made. */
  datatype AuthRead =
    | ResolveName | PodUid | OwnerName | OwnerFlag | ControllerUid | OwnerUid
    | ClaimUid | ClaimMounts | ClaimVolume | VolumeRef
    | HostMounts | NodeUid

  datatype Reason =
    | Unauthorised | LedgerError | AlreadyRecorded | ClaimFailed | ClaimedElsewhere | WriteFailed
    | IdentityChanged | DeleteRefused | DeleteUnknown | NotReplaced | ClaimGone | ClaimReplaced
    | StableLost | DataLost | LedgerNotClosed | Passed

  datatype PC =
    | Auth(read: AuthRead)
    | Peeking | Creating | Filling
    | Writing | Rechecking | Issuing | Awaiting
    | PollingUid | PollingReady
    | ReadingClaim | Checking | ReadingBack
    | Closing(rec: Record, why: Reason)
    | Finished(reason: Reason)
    | Crashed

  /** One attempt: its program counter and locals. `lastUid` is the uid the polling loop
      read last, `newUid` the one it returned once a Ready status was read. */
  datatype Attempt = Attempt(
    t: Target, file: string, ref: Ref, pc: PC,
    podUid: Uid, controllerUid: Uid, stableUid: Uid, volume: string,
    token: Token, armed: bool, wrote: bool, req: Option<nat>,
    lastUid: Uid, newUid: Uid, claimAfter: Uid)

  /** `ledger` is what a process reads now, `disk` what a power loss leaves behind. */
  datatype State = State(
    c: Cluster,
    ledger: map<string, File>,
    disk: map<string, File>,
    attempts: map<nat, Attempt>,
    reqs: seq<Request>)

  datatype FillOutcome = Flushed | FailedRemoved(onDisk: bool) | FailedKept(written: bool)
  datatype CloseOutcome = Closed | NotRenamed | NotFlushed(onDisk: bool)

  /** What an attempt does next; each move belongs to one program counter. */
  datatype Move =
    | Resolve(name: string)
    | Read(err: bool)
    | Peek(err: bool)
    | Create(err: bool)
    | Fill(fill: FillOutcome)
    | Write(ok: bool, landed: bool)
    | Recheck(err: bool)
    | Issue(blocked: bool)
    | Answer(lost: bool)
    | PollUid(err: bool)
    | PollReady(err: bool)
    | GiveUp(cancelled: bool)
    | ReadClaim(err: bool)
    | AfterCheck(ok: bool)
    | ReadBack(err: bool)
    | Close(close: CloseOutcome)
    | Crash

  datatype Verdict = Admit(graceful: bool) | Forbid | Break

  datatype Action =
    | World(d: Disturbance)
    | Serve(index: nat, verdict: Verdict)
    | PowerLoss(fallBack: set<string>, torn: set<string>)
    | Start(id: nat, target: Target, runId: string)
    | Do(id: nat, move: Move)

  predicate Live(a: Attempt) {
    !a.pc.Finished? && !a.pc.Crashed?
  }

  // ---- authorisation ---------------------------------------------------------

  /** Does the pod pass the check this read makes about it? */
  predicate PodFact(a: Attempt, read: AuthRead, p: Pod) {
    match read
    case PodUid => p.uid != NO_UID
    case OwnerName => p.ownerName == a.t.controllerName
    case OwnerFlag => p.ownerIsController
    case OwnerUid => p.ownerUid == a.controllerUid
    case ClaimMounts => a.t.claimName in p.claims
    case HostMounts => a.t.hostPath in p.hostPaths
    case _ => true
  }

  predicate ReadsPod(read: AuthRead) {
    read.PodUid? || read.OwnerName? || read.OwnerFlag? || read.OwnerUid? || read.ClaimMounts? || read.HostMounts?
  }

  /** Where the authorisation goes after a read succeeded. */
  function Next(t: Target, read: AuthRead): PC {
    match read
    case ResolveName => Auth(PodUid)
    case PodUid => Auth(OwnerName)
    case OwnerName => Auth(OwnerFlag)
    case OwnerFlag => Auth(ControllerUid)
    case ControllerUid => Auth(OwnerUid)
    case OwnerUid =>
      if t.claimName != "" then Auth(ClaimUid)
      else if t.hostPath != "" && t.nodeName != "" then Auth(HostMounts)
      else Finished(Unauthorised)
    case ClaimUid => Auth(ClaimMounts)
    case ClaimMounts => Auth(ClaimVolume)
    case ClaimVolume => Auth(VolumeRef)
    case VolumeRef => Peeking
    case HostMounts => Auth(NodeUid)
    case NodeUid => Peeking
  }

  function Refuse(a: Attempt): Attempt {
    a.(pc := Finished(Unauthorised))
  }

  /** A read of one fact about the pod that stands at the name right now. */
  function ReadPodFact(c: Cluster, a: Attempt, read: AuthRead): Attempt {
    if a.ref !in c.pods || !PodFact(a, read, c.pods[a.ref]) then Refuse(a)
    else
      a.(pc := Next(a.t, read), podUid := if read == PodUid then c.pods[a.ref].uid else a.podUid)
  }

  /** A read of the controller, the claim, its volume or the node. */
  function ReadObject(c: Cluster, a: Attempt, read: AuthRead): Attempt {
    var next := a.(pc := Next(a.t, read));
    match read
    case ControllerUid =>
      var key := (a.t.controllerKind, Ref(a.t.ns, a.t.controllerName));
      if key in c.controllers && c.controllers[key] != NO_UID then next.(controllerUid := c.controllers[key])
      else Refuse(a)
    case ClaimUid =>
      var key := Ref(a.t.ns, a.t.claimName);
      if key in c.claims && c.claims[key].uid != NO_UID then next.(stableUid := c.claims[key].uid) else Refuse(a)
    case ClaimVolume =>
      var key := Ref(a.t.ns, a.t.claimName);
      if key in c.claims && c.claims[key].volumeName != "" then next.(volume := c.claims[key].volumeName)
      else Refuse(a)
    case VolumeRef =>
      if a.volume in c.volumes && c.volumes[a.volume] == a.stableUid then next else Refuse(a)
    case NodeUid =>
      if a.t.nodeName in c.nodes && c.nodes[a.t.nodeName] != NO_UID then next.(stableUid := c.nodes[a.t.nodeName])
      else Refuse(a)
    case _ => a
  }

  function Authorise(c: Cluster, a: Attempt, read: AuthRead, move: Move): Attempt {
    match move
    case Resolve(name) =>
      if read != ResolveName then a
      else if a.t.podName != "" then a.(ref := Ref(a.t.ns, a.t.podName), pc := Next(a.t, read))
      else if a.t.nodeName == "" || a.t.podSelector == "" || name == "" then Refuse(a)
      else a.(ref := Ref(a.t.ns, name), pc := Next(a.t, read))
    case Read(err) =>
      if read == ResolveName then a
      else if err then Refuse(a)
      else if ReadsPod(read) then ReadPodFact(c, a, read)
      else ReadObject(c, a, read)
    case _ => a
  }

  // ---- the ledger ------------------------------------------------------------

  function Intent(a: Attempt): Record {
    Record(Attempted, a.podUid, a.stableUid, NO_UID, a.token, NotClosed)
  }

  /** A closed record differs from the intent in its state, its outcome and the new uid. */
  function Terminal(a: Attempt, state: LedgerState, outcome: Outcome, newPodUid: Uid): Record {
    Intent(a).(state := state, outcome := outcome, newPodUid := newPodUid)
  }

  function ToClose(a: Attempt, state: LedgerState, outcome: Outcome, newPodUid: Uid, why: Reason): Attempt {
    a.(pc := Closing(Terminal(a, state, outcome, newPodUid), why))
  }

  function With(s: State, id: nat, a: Attempt): State {
    s.(attempts := s.attempts[id := a])
  }

  function FillLedger(s: State, id: nat, a: Attempt, fill: FillOutcome): State {
    match fill
    case Flushed =>
      With(s, id, a.(pc := Writing, armed := true))
        .(ledger := s.ledger[a.file := Written(Intent(a))], disk := s.disk[a.file := Written(Intent(a))])
    case FailedRemoved(onDisk) =>
      With(s, id, a.(pc := Finished(ClaimFailed)))
        .(ledger := s.ledger - {a.file},
          disk := if onDisk then s.disk[a.file := Written(Intent(a))] else s.disk)
    case FailedKept(written) =>
      With(s, id, a.(pc := Finished(ClaimFailed)))
        .(ledger := s.ledger[a.file := if written then Written(Intent(a)) else Partial])
  }

  function CloseLedger(s: State, id: nat, a: Attempt, rec: Record, why: Reason, close: CloseOutcome): State {
    match close
    case Closed =>
      With(s, id, a.(pc := Finished(why)))
        .(ledger := s.ledger[a.file := Written(rec)], disk := s.disk[a.file := Written(rec)])
    case NotRenamed => With(s, id, a.(pc := Finished(if why == Passed then LedgerNotClosed else why)))
    case NotFlushed(onDisk) =>
      With(s, id, a.(pc := Finished(if why == Passed then LedgerNotClosed else why)))
        .(ledger := s.ledger[a.file := Written(rec)],
          disk := if onDisk then s.disk[a.file := Written(rec)] else s.disk)
  }

  // ---- the attempt -----------------------------------------------------------

  function AfterAnswer(a: Attempt, status: RequestStatus, lost: bool): Attempt {
    if lost then ToClose(a, Unknown, DeleteTimeout, NO_UID, DeleteUnknown)
    else match status
      case Pending => a
      case Accepted => a.(pc := PollingUid)
      case Rejected(ServerError) => ToClose(a, Unknown, DeleteFail, NO_UID, DeleteUnknown)
      case Rejected(Conflict) => ToClose(a, Refused, DeleteConflict, NO_UID, DeleteRefused)
      case Rejected(NotFound) => ToClose(a, Refused, DeleteNotFound, NO_UID, DeleteRefused)
      case Rejected(Forbidden) => ToClose(a, Refused, DeleteForbidden, NO_UID, DeleteRefused)
  }

  function AfterPollUid(c: Cluster, a: Attempt, err: bool): Attempt {
    var last := if !err && a.ref in c.pods && c.pods[a.ref].uid != NO_UID then c.pods[a.ref].uid else a.lastUid;
    a.(lastUid := last, pc := if last != NO_UID && last != a.podUid then PollingReady else PollingUid)
  }

  function AfterPollReady(c: Cluster, a: Attempt, err: bool): Attempt {
    if !err && a.ref in c.pods && c.pods[a.ref].ready then
      a.(newUid := a.lastUid, pc := if a.t.claimName != "" then ReadingClaim else Checking)
    else a.(pc := PollingUid)
  }

  function AfterReadClaim(c: Cluster, a: Attempt, err: bool): Attempt {
    var key := Ref(a.t.ns, a.t.claimName);
    if err || key !in c.claims || c.claims[key].uid == NO_UID then ToClose(a, Unknown, PvcGone, a.newUid, ClaimGone)
    else if c.claims[key].uid != a.stableUid then ToClose(a, Done, PvcReplaced, a.newUid, ClaimReplaced)
    else a.(claimAfter := c.claims[key].uid, pc := Checking)
  }

  function AfterReadBack(c: Cluster, a: Attempt, err: bool): Attempt {
    if err || (LedgerKey(a.t), a.token) !in c.data then ToClose(a, Done, DataGone, a.newUid, DataLost)
    else ToClose(a, Done, PassOutcome, a.newUid, Passed)
  }

  /** Moves that only read, or only change the attempt's own locals. */
  function Local(s: State, a: Attempt, move: Move): Attempt {
    match (a.pc, move)
    case (Auth(read), _) => Authorise(s.c, a, read, move)
    case (Peeking, Peek(err)) =>
      a.(pc := if err then Finished(LedgerError) else if a.file in s.ledger then Finished(AlreadyRecorded) else Creating)
    case (Rechecking, Recheck(err)) =>
      if err || !StandsAt(s.c, a.ref, a.podUid) then ToClose(a, Refused, IdentityChange, NO_UID, IdentityChanged)
      else a.(pc := Issuing)
    case (Awaiting, Answer(lost)) =>
      if a.req.Some? && a.req.value < |s.reqs| then AfterAnswer(a, s.reqs[a.req.value].status, lost) else a
    case (PollingUid, PollUid(err)) => AfterPollUid(s.c, a, err)
    case (PollingReady, PollReady(err)) => AfterPollReady(s.c, a, err)
    case (PollingUid, GiveUp(cancelled)) =>
      if cancelled then ToClose(a, Unknown, Cancelled, NO_UID, NotReplaced)
      else ToClose(a, Unknown, NotReady, a.lastUid, NotReplaced)
    case (ReadingClaim, ReadClaim(err)) => AfterReadClaim(s.c, a, err)
    case (Checking, AfterCheck(ok)) =>
      if ok then a.(pc := ReadingBack) else ToClose(a, Done, IdentityChange, a.newUid, StableLost)
    case (ReadingBack, ReadBack(err)) => AfterReadBack(s.c, a, err)
    case (_, Crash) => a.(pc := Crashed)
    case _ => a
  }

  /** The exclusive create of the ledger file, and the token this attempt will use. */
  function CreateFile(s: State, id: nat, a: Attempt, err: bool): State {
    if err then With(s, id, a.(pc := Finished(ClaimFailed)))
    else if a.file in s.ledger then With(s, id, a.(pc := Finished(ClaimedElsewhere)))
    else With(s, id, a.(pc := Filling, token := s.c.minted + 1))
           .(ledger := s.ledger[a.file := Partial], c := s.c.(minted := s.c.minted + 1))
  }

  function WriteToken(s: State, id: nat, a: Attempt, ok: bool, landed: bool): State {
    var a' := a.(wrote := ok || landed);
    With(s, id, if ok then a'.(pc := Rechecking) else ToClose(a', Unknown, WriteFail, NO_UID, WriteFailed))
      .(c := if ok || landed then s.c.(data := s.c.data + {(LedgerKey(a.t), a.token)}) else s.c)
  }

  predicate Blank(s: string) {
    Strings.Trim(s) == ""
  }

  /** Without a name and a uid there is nothing to ask the server for. */
  predicate Unnamed(a: Attempt) {
    Blank(a.ref.ns) || Blank(a.ref.name) || a.podUid == NO_UID
  }

  /** No other move adds a request. */
  function IssueDelete(s: State, id: nat, a: Attempt, blocked: bool): State {
    if blocked || Unnamed(a) then With(s, id, ToClose(a, Unknown, DeleteFail, NO_UID, DeleteUnknown))
    else With(s, id, a.(pc := Awaiting, req := Some(|s.reqs|)))
           .(reqs := s.reqs + [Request(id, a.file, a.ref, a.podUid, Pending)])
  }

  function Advance(s: State, id: nat, a: Attempt, move: Move): State {
    match (a.pc, move)
    case (Creating, Create(err)) => CreateFile(s, id, a, err)
    case (Filling, Fill(fill)) => FillLedger(s, id, a, fill)
    case (Writing, Write(ok, landed)) => WriteToken(s, id, a, ok, landed)
    case (Issuing, Issue(blocked)) => IssueDelete(s, id, a, blocked)
    case (Closing(rec, why), Close(close)) => CloseLedger(s, id, a, rec, why, close)
    case _ => With(s, id, Local(s, a, move))
  }

  // ---- the rest of the system ------------------------------------------------

  /** The API server's verdict on a pending request. A delete is carried out only
      when the object at the name has the uid the request names; a graceful delete
      leaves the pod standing, marked, until its kubelet is done with it. */
  function Served(c: Cluster, r: Request, verdict: Verdict): (Cluster, RequestStatus) {
    if verdict.Forbid? then (c, Rejected(Forbidden))
    else if verdict.Break? then (c, Rejected(ServerError))
    else if r.ref !in c.pods then (c, Rejected(NotFound))
    else if c.pods[r.ref].uid != r.uid then (c, Rejected(Conflict))
    else if verdict.graceful then (PlacePod(c, r.ref, c.pods[r.ref].(terminating := true)), Accepted)
    else (c.(pods := c.pods - {r.ref}), Accepted)
  }

  function ServeRequest(s: State, index: nat, verdict: Verdict): State {
    if index >= |s.reqs| || !s.reqs[index].status.Pending? then s
    else
      var (c, status) := Served(s.c, s.reqs[index], verdict);
      s.(c := c, reqs := s.reqs[index := s.reqs[index].(status := status)])
  }

  /** Which files a power loss leaves: for each name the current entry or the flushed
      one, or a torn file where nothing was flushed. */
  function Survivors(s: State, fallBack: set<string>, torn: set<string>): map<string, File> {
    map f | f in s.ledger.Keys + s.disk.Keys && f in (if f in fallBack then s.disk else s.ledger) ::
      if f in torn && f !in s.disk then Partial
      else if f in fallBack then s.disk[f] else s.ledger[f]
  }

  function LosePower(s: State, fallBack: set<string>, torn: set<string>): State {
    var files := Survivors(s, fallBack, torn);
    s.(ledger := files, disk := files,
       attempts := map id | id in s.attempts ::
         if Live(s.attempts[id]) then s.attempts[id].(pc := Crashed) else s.attempts[id])
  }

  function NewAttempt(t: Target, runId: string): Attempt {
    Attempt(t, LedgerFile(runId, t), Ref(t.ns, t.podName), Auth(ResolveName),
            NO_UID, NO_UID, NO_UID, "", 0, false, false, None, NO_UID, NO_UID, NO_UID)
  }

  function Step(s: State, act: Action): State {
    match act
    case World(d) => s.(c := Disturb(s.c, d))
    case Serve(index, verdict) => ServeRequest(s, index, verdict)
    case PowerLoss(fallBack, torn) => LosePower(s, fallBack, torn)
    case Start(id, t, runId) => if id in s.attempts then s else With(s, id, NewAttempt(t, runId))
    case Do(id, move) =>
      if id in s.attempts && Live(s.attempts[id]) then Advance(s, id, s.attempts[id], move) else s
  }

  /** The state after a whole run. */
  function Exec(s: State, acts: seq<Action>): State {
    if acts == [] then s else Step(Exec(s, acts[..|acts| - 1]), acts[|acts| - 1])
  }

  /** A site before any attempt of this history: any cluster, any ledger files. */
  ghost predicate Init(s: State) {
    ClusterOk(s.c) && s.attempts == map[] && s.reqs == []
  }
}
