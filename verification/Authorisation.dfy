/** What a delete was authorised by: live reads this very attempt made, each at a moment of
    the run, and all of the same pod as long as that pod still stands. */
module Authorisation {
  import opened Wrappers
  import opened Cluster
  import opened Protocol
  import opened Invariant
  import opened Preservation
  import opened StepPreservation
  import opened Safety
  import opened Timeline
  import opened Replacement

  /** What each read must find for the attempt to go on, in terms of what it holds later. */
  ghost predicate Fact(c: Cluster, a: Attempt, read: AuthRead) {
    match read
    case ResolveName => true
    case PodUid => StandsAt(c, a.ref, a.podUid) && a.podUid != NO_UID
    case OwnerName => a.ref in c.pods && c.pods[a.ref].ownerName == a.t.controllerName
    case OwnerFlag => a.ref in c.pods && c.pods[a.ref].ownerIsController
    case ControllerUid =>
      var key := (a.t.controllerKind, Ref(a.t.ns, a.t.controllerName));
      key in c.controllers && c.controllers[key] == a.controllerUid != NO_UID
    case OwnerUid => a.ref in c.pods && c.pods[a.ref].ownerUid == a.controllerUid
    case ClaimUid => ClaimRef(a.t) in c.claims && c.claims[ClaimRef(a.t)].uid == a.stableUid != NO_UID
    case ClaimMounts => a.ref in c.pods && a.t.claimName in c.pods[a.ref].claims
    case ClaimVolume => ClaimRef(a.t) in c.claims && c.claims[ClaimRef(a.t)].volumeName == a.volume != ""
    case VolumeRef => a.volume in c.volumes && c.volumes[a.volume] == a.stableUid
    case HostMounts => a.ref in c.pods && a.t.hostPath in c.pods[a.ref].hostPaths
    case NodeUid => a.t.nodeName in c.nodes && c.nodes[a.t.nodeName] == a.stableUid != NO_UID
  }

  /** What of an attempt's locals a read and the ones before it have settled. */
  ghost predicate Settles(read: AuthRead, a: Attempt, b: Attempt) {
    && b.t == a.t
    && (Rank(read) >= 1 ==> b.ref == a.ref && b.podUid == a.podUid)
    && (Rank(read) >= 4 ==> b.controllerUid == a.controllerUid)
    && (read.NodeUid? || (Rank(read) >= 6 && a.t.claimName != "") ==> b.stableUid == a.stableUid)
    && (Rank(read) >= 8 ==> b.volume == a.volume)
  }

  lemma PodLetsThrough(c: Cluster, a: Attempt, read: AuthRead, r: AuthRead)
    requires a.pc == Auth(r) && OnPath(a.t, r) && !a.armed && ReadsPod(r) && !Past(a, read) && Past(ReadPodFact(c, a, r), read)
    ensures r == read && Fact(c, ReadPodFact(c, a, r), read)
  {
  }

  lemma ObjectLetsThrough(c: Cluster, a: Attempt, read: AuthRead, r: AuthRead)
    requires a.pc == Auth(r) && OnPath(a.t, r) && !a.armed && !ReadsPod(r) && !Past(a, read) && Past(ReadObject(c, a, r), read)
    ensures r == read && Fact(c, ReadObject(c, a, r), read)
  {
  }

  lemma LetThrough(c: Cluster, a: Attempt, read: AuthRead, move: Move, r: AuthRead)
    requires a.pc == Auth(r) && OnPath(a.t, r) && !a.armed && read != ResolveName
    requires !Past(a, read) && Past(Authorise(c, a, r, move), read)
    ensures r == read && move == Read(false) && Fact(c, Authorise(c, a, r, move), read)
  {
    hide ReadPodFact;
    hide ReadObject;
    hide Fact;
    if move.Read? && r != ResolveName && !move.err {
      if ReadsPod(r) { PodLetsThrough(c, a, read, r); } else { ObjectLetsThrough(c, a, read, r); }
    }
  }

  lemma EarlierReadsStay(c: Cluster, a: Attempt, read: AuthRead, move: Move, r: AuthRead)
    requires a.pc == Auth(r) && OnPath(a.t, r) && !a.armed && Past(a, read)
    ensures Settles(read, a, Authorise(c, a, r, move))
  {
  }

  lemma BeforeArming(s: State, id: nat)
    requires Inv(s) && id in s.attempts && s.attempts[id].pc.Auth?
    ensures !s.attempts[id].armed && OnPath(s.attempts[id].t, s.attempts[id].pc.read)
  {
    assert AttemptOk(s, s.attempts[id]);
  }

  /** Reads are passed only by making them. */
  lemma PassingStep(s: State, act: Action, id: nat, read: AuthRead)
    requires Inv(s) && read != ResolveName && id in Step(s, act).attempts && Past(Step(s, act).attempts[id], read)
    requires !(id in s.attempts && Past(s.attempts[id], read))
    ensures id in s.attempts && act == Do(id, Read(false)) && s.attempts[id].pc == Auth(read)
    ensures Fact(s.c, Step(s, act).attempts[id], read)
  {
    hide Advance;
    hide Authorise;
    if id !in s.attempts {
      StartedFresh(s, act, id);
    } else if Own(act, id, s) {
      var a := s.attempts[id];
      AdvanceIs(s, id, a, act.move);
      if a.pc.Auth? {
        BeforeArming(s, id);
        LetThrough(s.c, a, read, act.move, a.pc.read);
      } else if LocalPC(a) {
        LocalKeepsIds(s, a, act.move);
      } else {
        FileMoveIs(s, id, act.move);
      }
    } else {
      OthersLeaveItAlone(s, act, id);
    }
  }

  lemma SettledStep(s: State, act: Action, id: nat, read: AuthRead)
    requires Inv(s) && id in s.attempts && Past(s.attempts[id], read)
    ensures id in Step(s, act).attempts && Settles(read, s.attempts[id], Step(s, act).attempts[id])
  {
    hide Advance;
    hide Local;
    var a := s.attempts[id];
    FindingsStep(s, act, id);
    if Own(act, id, s) && a.pc.Auth? {
      BeforeArming(s, id);
      EarlierReadsStay(s.c, a, read, act.move, a.pc.read);
      AdvanceIs(s, id, a, act.move);
      LocalIsAuthorise(s, a, act.move);
    } else if Own(act, id, s) && LocalPC(a) {
      LocalKeepsIds(s, a, act.move);
    }
  }

  lemma LocalIsAuthorise(s: State, a: Attempt, move: Move)
    requires a.pc.Auth?
    ensures Local(s, a, move) == Authorise(s.c, a, a.pc.read, move)
  {
    hide Authorise;
  }

  ghost function PastMark(read: AuthRead): Attempt -> bool {
    (a: Attempt) => Past(a, read)
  }

  lemma {:induction false} SettledFrom(s0: State, acts: seq<Action>, id: nat, read: AuthRead, k: nat)
    requires Init(s0) && k <= |acts| && forall m: nat :: k <= m <= |acts| ==> Marked(s0, acts, m, id, PastMark(read))
    ensures id in Moment(s0, acts, k).attempts && id in Exec(s0, acts).attempts
    ensures Settles(read, Moment(s0, acts, k).attempts[id], Exec(s0, acts).attempts[id])
    decreases |acts| - k
  {
    hide Step;
    hide Past;
    MomentLast(s0, acts);
    assert Marked(s0, acts, k, id, PastMark(read));
    if k < |acts| {
      MomentNext(s0, acts, k);
      Reachable(s0, acts[..k]);
      SettledStep(Moment(s0, acts, k), acts[k], id, read);
      SettledFrom(s0, acts, id, read, k + 1);
    }
  }

  lemma FactDepends(c: Cluster, a: Attempt, b: Attempt, read: AuthRead)
    requires Fact(c, a, read) && Settles(read, a, b) && OnPath(a.t, read)
    ensures Fact(c, b, read)
  {
  }

  /** Action `k` is the attempt's own `read`, and it found the fact the attempt now relies on. */
  ghost predicate ReadAt(s0: State, acts: seq<Action>, id: nat, read: AuthRead, k: nat) {
    && k < |acts| && acts[k] == Do(id, Read(false)) && id in Moment(s0, acts, k).attempts && id in Exec(s0, acts).attempts
    && Moment(s0, acts, k).attempts[id].pc == Auth(read)
    && Fact(Moment(s0, acts, k).c, Exec(s0, acts).attempts[id], read)
  }

  /** An attempt that is past a read made that read itself, in this run, and the live cluster
      answered it with what the attempt holds. */
  lemma FindRead(s0: State, acts: seq<Action>, id: nat, read: AuthRead) returns (k: nat)
    requires Init(s0) && id in Exec(s0, acts).attempts && Past(Exec(s0, acts).attempts[id], read) && read != ResolveName
    ensures ReadAt(s0, acts, id, read, k)
  {
    hide Step;
    hide Fact;
    MomentLast(s0, acts);
    var mark := PastMark(read);
    k := LastRise(s0, acts, id, mark, |acts|);
    var s := Moment(s0, acts, k);
    MomentNext(s0, acts, k);
    assert Marked(s0, acts, k + 1, id, mark);
    Reachable(s0, acts[..k]);
    PassingStep(s, acts[k], id, read);
    SettledFrom(s0, acts, id, read, k + 1);
    FactDepends(s.c, Moment(s0, acts, k + 1).attempts[id], Exec(s0, acts).attempts[id], read);
  }

  // ---- the reads come in order -----------------------------------------------------------------

  lemma ReadRises(c: Cluster, a: Attempt, move: Move)
    requires a.pc.Auth?
    ensures var b := Authorise(c, a, a.pc.read, move); b.pc.Auth? ==> Rank(b.pc.read) >= Rank(a.pc.read)
  {
    hide PodFact;
  }

  lemma AuthStepRises(s: State, act: Action, id: nat)
    requires id in s.attempts && id in Step(s, act).attempts && s.attempts[id].pc.Auth? && Step(s, act).attempts[id].pc.Auth?
    ensures Rank(Step(s, act).attempts[id].pc.read) >= Rank(s.attempts[id].pc.read)
  {
    hide Advance;
    hide Local;
    hide Authorise;
    if Own(act, id, s) {
      var a := s.attempts[id];
      AdvanceIs(s, id, a, act.move);
      LocalIsAuthorise(s, a, act.move);
      ReadRises(s.c, a, act.move);
    } else {
      OthersLeaveItAlone(s, act, id);
    }
  }

  lemma {:induction false} RanksRise(s0: State, acts: seq<Action>, id: nat, k: nat, m: nat)
    requires Init(s0) && k <= m <= |acts| && id in Moment(s0, acts, k).attempts && id in Moment(s0, acts, m).attempts
    requires Moment(s0, acts, k).attempts[id].pc.Auth? && Moment(s0, acts, m).attempts[id].pc.Auth?
    ensures Rank(Moment(s0, acts, m).attempts[id].pc.read) >= Rank(Moment(s0, acts, k).attempts[id].pc.read)
    decreases m - k
  {
    hide Step;
    hide Rank;
    if k < m {
      MomentNext(s0, acts, k);
      StepExtends(Moment(s0, acts, k), acts[k]);
      if !Moment(s0, acts, k + 1).attempts[id].pc.Auth? {
        IdsFixed(s0, acts, id, k + 1, m);
      } else {
        AuthStepRises(Moment(s0, acts, k), acts[k], id);
        RanksRise(s0, acts, id, k + 1, m);
      }
    }
  }

  /** The reads are made in the order the program lists them. */
  lemma ReadsInOrder(s0: State, acts: seq<Action>, id: nat, r: AuthRead, k: nat, q: AuthRead, m: nat)
    requires Init(s0) && ReadAt(s0, acts, id, r, k) && ReadAt(s0, acts, id, q, m) && Rank(r) < Rank(q)
    ensures k < m
  {
    hide Step;
    hide Fact;
    if m <= k { RanksRise(s0, acts, id, m, k); }
  }

  // ---- what can be removed -----------------------------------------------------------------------

  /** Every read the target's declaration asks for was made by this attempt; and those that
      looked at a pod looked at the one with the authorised uid. */
  ghost predicate AuthorisedByReads(s0: State, acts: seq<Action>, id: nat) {
    && id in Exec(s0, acts).attempts
    && var a := Exec(s0, acts).attempts[id];
       forall read :: OnPath(a.t, read) && read != ResolveName ==>
         exists k :: ReadAt(s0, acts, id, read, k) && (ReadsPod(read) ==> StandsAt(Moment(s0, acts, k).c, a.ref, a.podUid))
  }

  lemma ReadOfThatPod(s0: State, acts: seq<Action>, id: nat, read: AuthRead, k: nat)
    requires Init(s0) && ReadAt(s0, acts, id, read, k) && ReadsPod(read) && Past(Exec(s0, acts).attempts[id], PodUid)
    requires var a := Exec(s0, acts).attempts[id]; StandsAt(Exec(s0, acts).c, a.ref, a.podUid)
    ensures var a := Exec(s0, acts).attempts[id]; StandsAt(Moment(s0, acts, k).c, a.ref, a.podUid)
  {
    hide Step;
    var a := Exec(s0, acts).attempts[id];
    if read != PodUid {
      MomentLast(s0, acts);
      var m := FindRead(s0, acts, id, PodUid);
      ReadsInOrder(s0, acts, id, PodUid, m, read, k);
      UsedFromThen(s0, acts, m, k, a.podUid);
      StoodAllAlong(s0, acts, k, |acts|, a.ref, a.podUid);
    }
  }

  lemma StandingPodIsAuthorised(s0: State, acts: seq<Action>, id: nat)
    requires Init(s0) && id in Exec(s0, acts).attempts
    requires var s, a := Exec(s0, acts), Exec(s0, acts).attempts[id]; a.armed && StandsAt(s.c, a.ref, a.podUid)
    ensures AuthorisedByReads(s0, acts, id)
  {
    hide Step;
    hide Fact;
    var a := Exec(s0, acts).attempts[id];
    forall read | OnPath(a.t, read) && read != ResolveName
      ensures exists k :: ReadAt(s0, acts, id, read, k) && (ReadsPod(read) ==> StandsAt(Moment(s0, acts, k).c, a.ref, a.podUid))
    {
      var k := FindRead(s0, acts, id, read);
      if ReadsPod(read) { ReadOfThatPod(s0, acts, id, read, k); }
    }
  }

  /** Whatever this program or the server on its behalf does to a pod, it does to the
      authorised object: the reads were separate and controllers may have replaced the
      pod between any two of them, but then its uid is gone and the delete is refused. */
  lemma OnlyTheAuthorisedPod(s0: State, acts: seq<Action>, act: Action, ref: Ref)
    requires Init(s0) && !act.World?
    requires var s := Exec(s0, acts);
      ref in s.c.pods && !(ref in Step(s, act).c.pods && Step(s, act).c.pods[ref] == s.c.pods[ref])
    ensures var s := Exec(s0, acts);
      && act.Serve? && act.index < |s.reqs| && s.reqs[act.index].status == Pending && s.reqs[act.index].ref == ref
      && var id := s.reqs[act.index].attempt;
         && AuthorisedByReads(s0, acts, id)
         && s.attempts[id].ref == ref && s.attempts[id].podUid == s.c.pods[ref].uid
  {
    var s := Exec(s0, acts);
    OnlyServingTouchesPods(s, act, ref);
    Reachable(s0, acts);
    assert RequestOk(s, act.index);
    hide Step;
    StandingPodIsAuthorised(s0, acts, s.reqs[act.index].attempt);
  }
}
