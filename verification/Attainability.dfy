/** Which completely declared targets can be accepted at all: the pre-change check lets
    through some that no site and no run will ever pass. */
module Attainability {
  import opened Wrappers
  import opened Cluster
  import opened Protocol
  import opened Invariant
  import opened Preservation
  import opened StepPreservation
  import opened Safety
  import opened Timeline
  import opened Replacement
  import opened Authorisation
  import opened Persistence
  import opened Completeness
  import opened AcceptancePlan
  import Strings

  /** The smallest cluster that is as a target declares it. */
  function Minimal(t: Target, listed: string): Cluster {
    var pod := Pod(1, t.controllerName, true, 2, {t.claimName}, {t.hostPath}, true, false);
    Cluster(map[PodRef(t, listed) := pod], map[(t.controllerKind, Ref(t.ns, t.controllerName)) := 2],
            map[ClaimRef(t) := Claim(3, "volume")], map["volume" := 3], map[t.nodeName := 4], {}, {1}, 0)
  }

  /** What a caller can check of a completely declared target: a daemon pod, or a pod by a
      real name that keeps its state in a claim. */
  predicate Attainable(t: Target) {
    t.podName != "" ==> !Blank(t.podName) && t.claimName != ""
  }

  lemma MinimalMatches(t: Target)
    requires DeclaredCompletely(t) && Attainable(t)
    ensures ClusterOk(Minimal(t, "daemon")) && Matches(Minimal(t, "daemon"), t, "daemon")
  {
    hide Blank;
    assert Strings.Trimmed("daemon");
    NotBlank("daemon");
  }

  lemma NotBlank(s: string)
    requires Strings.Trimmed(s)
    ensures !Blank(s)
  {
  }

  /** What is settled about an attempt on the way: where its ref comes from, that its request
      names a pod, and that it got past the owner only with some storage to hold it to. */
  ghost predicate Bound(a: Attempt) {
    && (a.t.podName != "" ==> a.ref == Ref(a.t.ns, a.t.podName))
    && (a.req.Some? ==> !Unnamed(a))
    && (!a.pc.Auth? && (a.armed || Live(a)) ==> a.t.claimName != "" || a.t.nodeName != "")
  }

  lemma ReadKeepsBound(c: Cluster, a: Attempt, move: Move)
    requires a.pc.Auth? && OnPath(a.t, a.pc.read) && !a.armed && a.req.None? && Bound(a)
    ensures Bound(Authorise(c, a, a.pc.read, move))
  {
    hide Unnamed;
    AuthoriseShape(c, a, a.pc.read, move);
  }

  /** The one move that sends is an Issue, and it sends for a named pod only. */
  lemma SentNamed(s: State, id: nat, move: Move)
    requires id in s.attempts && !LocalPC(s.attempts[id]) && s.attempts[id].req.None?
    ensures var s' := Advance(s, id, s.attempts[id], move);
      id in s'.attempts && s'.attempts[id].req.Some? ==> !Unnamed(s.attempts[id])
  {
    hide Unnamed;
    hide Advance;
    FileMoveIs(s, id, move);
    AdvanceIs(s, id, s.attempts[id], move);
  }

  lemma LaterMoveKeepsBound(s: State, id: nat, move: Move)
    requires Inv(s) && id in s.attempts && Live(s.attempts[id]) && !s.attempts[id].pc.Auth? && Bound(s.attempts[id])
    ensures var s' := Advance(s, id, s.attempts[id], move); id in s'.attempts && Bound(s'.attempts[id])
  {
    hide Blank;
    hide Advance;
    hide Local;
    var a := s.attempts[id];
    AdvanceIs(s, id, a, move);
    if LocalPC(a) {
      LocalKeepsIds(s, a, move);
      LocalKeeps(s, a, move);
    } else {
      FileMoveIs(s, id, move);
      if a.req.None? { SentNamed(s, id, move); }
    }
    hide Inv;
    hide AttemptOk;
  }

  lemma OwnMoveKeepsBound(s: State, id: nat, move: Move)
    requires Inv(s) && id in s.attempts && Live(s.attempts[id]) && Bound(s.attempts[id])
    ensures var s' := Advance(s, id, s.attempts[id], move); id in s'.attempts && Bound(s'.attempts[id])
  {
    hide Advance;
    hide Local;
    hide Authorise;
    var a := s.attempts[id];
    if a.pc.Auth? {
      assert AttemptOk(s, a);
      AdvanceIs(s, id, a, move);
      LocalIsAuthorise(s, a, move);
      ReadKeepsBound(s.c, a, move);
    } else {
      LaterMoveKeepsBound(s, id, move);
    }
    hide Bound;
  }

  lemma StepKeepsBound(s: State, act: Action, id: nat)
    requires Inv(s) && (id in s.attempts ==> Bound(s.attempts[id]))
    ensures id in Step(s, act).attempts ==> Bound(Step(s, act).attempts[id])
  {
    hide Advance;
    hide Blank;
    if id !in s.attempts {
      if id in Step(s, act).attempts { StartedFresh(s, act, id); }
    } else if Own(act, id, s) {
      OwnMoveKeepsBound(s, id, act.move);
    } else {
      assert AttemptOk(s, s.attempts[id]);
      hide Inv;
      OthersLeaveItAlone(s, act, id);
      hide Step;
    }
  }

  lemma {:induction false} RunBound(s0: State, acts: seq<Action>, id: nat)
    requires Init(s0)
    ensures id in Exec(s0, acts).attempts ==> Bound(Exec(s0, acts).attempts[id])
  {
    hide Step;
    hide Bound;
    if acts != [] {
      RunBound(s0, acts[..|acts| - 1], id);
      Reachable(s0, acts[..|acts| - 1]);
      StepKeepsBound(Exec(s0, acts[..|acts| - 1]), acts[|acts| - 1], id);
    }
  }

  /** A pod by name without a claim, or by a blank name, is never accepted, whatever the site. */
  lemma UnattainableNeverPasses(s0: State, acts: seq<Action>, id: nat, t: Target, runId: string)
    requires Init(s0) && DeclaredCompletely(t) && !Attainable(t)
    ensures !Passes(s0, acts, id, t, runId)
  {
    hide Exec;
    hide LedgerFile;
    hide Blank;
    if Passes(s0, acts, id, t, runId) {
      RunBound(s0, acts, id);
      Reachable(s0, acts);
      assert false;
    }
  }

  /** The target has a site, with nothing on its ledger, and a run there on which it passes. */
  ghost predicate CanEverPass(t: Target, runId: string) {
    exists s: State, acts, id :: Init(s) && Passes(s, acts, id, t, runId)
  }

  /** The pre-change check is meant to refuse every target the run could not authorise. It does
      so exactly for the attainable ones: the others, such as a daemon's pod given by name with
      a host path, pass the check and can never be accepted. */
  lemma DeclaredCanPassIff(t: Target, runId: string)
    requires DeclaredCompletely(t)
    ensures CanEverPass(t, runId) <==> Attainable(t)
  {
    hide Passes;
    hide Attainable;
    hide DeclaredCompletely;
    if Attainable(t) {
      var s := State(Minimal(t, "daemon"), map[], map[], map[], []);
      MinimalMatches(t);
      hide Matches;
      hide Minimal;
      var acts := UnspentBudgetCanPass(s, 0, t, "daemon", runId);
    }
    forall s: State, acts, id | Init(s) && Passes(s, acts, id, t, runId)
      ensures Attainable(t)
    {
      if !Attainable(t) { UnattainableNeverPasses(s, acts, id, t, runId); }
    }
  }

  /** Such a target. */
  lemma DeclaredButUnattainable() returns (t: Target)
    ensures DeclaredCompletely(t) && !Attainable(t) && t.hostPath != "" && t.podName != ""
  {
    t := Target("ns", "DaemonSet", "collector", "collector-0", "", "/var/cursor", "", "", "logs", "");
    assert Strings.Trimmed("ns") && Strings.Trimmed("DaemonSet") && Strings.Trimmed("collector");
  }
}
