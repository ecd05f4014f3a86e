/** The plan layer: a preflight that refuses before the first change, ordered steps of
    which the first that does not pass stops every later change, and one verdict. */
module AcceptancePlan {
  import opened Wrappers
  import opened Cluster
  import opened Protocol
  import opened Preservation
  import opened StepPreservation
  import opened Safety
  import opened Timeline
  import opened Replacement
  import opened Completeness
  import opened Driver
  import opened RecreateOnce

  datatype PlanStep = PlanStep(id: string, title: string, target: string, hasRun: bool)
  datatype Plan = Plan(steps: seq<PlanStep>, dependencies: seq<string>)
  datatype StepReport = StepReport(id: string, title: string, target: string, status: Status, quota: Option<LedgerState>)

  type Registry = map<string, Target>

  predicate Mutates(step: PlanStep) {
    step.target != ""
  }

  /** A target fit for a plan: it has its workload and its protocol, it is either a pod by
      name or the daemon pod of a node, and its state is either in a claim or in a directory
      of that node. */
  predicate DeclaredCompletely(t: Target) {
    && !Blank(t.ns) && !Blank(t.controllerKind) && !Blank(t.controllerName)
    && t.protocol != ""
    && !(t.podName == "" && t.nodeName == "")
    && !(t.podName != "" && t.nodeName != "")
    && !(t.nodeName != "" && t.podSelector == "")
    && !(t.claimName != "" && t.hostPath != "")
    && !(t.claimName == "" && t.hostPath == "")
    && !(t.hostPath != "" && t.controllerKind != "DaemonSet")
  }

  /** A named pod keeps its state in a claim, or is a daemon's that keeps it in a directory. */
  predicate NamedPod(t: Target) {
    t.podName != "" && t.nodeName == "" && (t.claimName != "" || t.controllerKind == "DaemonSet")
  }

  /** The pod of a node is found by a selector. */
  predicate PodOfNode(t: Target) {
    t.podName == "" && t.nodeName != "" && t.podSelector != "" && (t.claimName != "" || t.controllerKind == "DaemonSet")
  }

  /** Exactly these targets are declared completely: one of the two kinds of pod, one of the two
      kinds of storage, a protocol, and a workload with a name in a namespace. */
  lemma DeclaredKinds(t: Target)
    ensures DeclaredCompletely(t) <==>
      && (NamedPod(t) || PodOfNode(t)) && (t.claimName == "" <==> t.hostPath != "") && t.protocol != ""
      && !Blank(t.ns) && !Blank(t.controllerKind) && !Blank(t.controllerName)
  {
    hide Blank;
  }

  // ---- preflight -----------------------------------------------------------------

  /** The target of step `k` is declared, complete, and still has its one budget. */
  ghost predicate TargetReady(ledger: map<string, File>, plan: Plan, reg: Registry, runId: string, k: nat)
    requires k < |plan.steps|
  {
    var key := plan.steps[k].target;
    key in reg && DeclaredCompletely(reg[key]) && LedgerFile(runId, reg[key]) !in ledger
  }

  ghost predicate Distinct(plan: Plan, n: nat)
    requires n <= |plan.steps|
  {
    forall j, k :: 0 <= j < k < n && Mutates(plan.steps[j]) && Mutates(plan.steps[k]) ==> plan.steps[j].target != plan.steps[k].target
  }

  ghost predicate Accepts(ledger: map<string, File>, plan: Plan, reg: Registry, runId: string, unreadable: set<nat>) {
    && (forall k: nat :: k < |plan.steps| ==> plan.steps[k].hasRun)
    && Distinct(plan, |plan.steps|)
    && (forall k: nat :: k < |plan.steps| && Mutates(plan.steps[k]) ==> TargetReady(ledger, plan, reg, runId, k) && k !in unreadable)
    && (forall d :: d in plan.dependencies ==> d in reg)
  }

  /** Refuses before the first change; it has no `modifies`, so it changes nothing either
      way. `unreadable` are the steps whose ledger file cannot be read. */
  method Preflight(site: Site, plan: Plan, reg: Registry, runId: string, unreadable: set<nat>) returns (ok: bool)
    ensures ok <==> Accepts(site.s.ledger, plan, reg, runId, unreadable)
    ensures ok <==>
      && (forall k: nat :: k < |plan.steps| ==> plan.steps[k].hasRun)
      && (forall j, k :: 0 <= j < k < |plan.steps| && plan.steps[j].target != "" ==> plan.steps[j].target != plan.steps[k].target)
      && (forall k: nat :: k < |plan.steps| && plan.steps[k].target != "" ==>
            && plan.steps[k].target in reg && DeclaredCompletely(reg[plan.steps[k].target])
            && LedgerFile(runId, reg[plan.steps[k].target]) !in site.s.ledger && k !in unreadable)
      && (forall d :: d in plan.dependencies ==> d in reg)
  {
    hide LedgerFile;
    hide DeclaredCompletely;
    var seen: set<string> := {};
    for k := 0 to |plan.steps|
      invariant forall i: nat :: i < k ==> plan.steps[i].hasRun
      invariant Distinct(plan, k)
      invariant forall t :: t in seen <==> exists i: nat :: i < k && Mutates(plan.steps[i]) && plan.steps[i].target == t
      invariant forall i: nat :: i < k && Mutates(plan.steps[i]) ==>
        TargetReady(site.s.ledger, plan, reg, runId, i) && i !in unreadable
    {
      var step := plan.steps[k];
      if !step.hasRun { return false; }
      if Mutates(step) {
        if step.target in seen { return false; }
        seen := seen + {step.target};
        if step.target !in reg { return false; }
        var target := reg[step.target];
        if !DeclaredCompletely(target) { return false; }
        if k in unreadable { return false; }
        if LedgerFile(runId, target) in site.s.ledger { return false; }
      }
    }
    for k := 0 to |plan.dependencies|
      invariant forall i: nat :: i < k ==> plan.dependencies[i] in reg
    {
      if plan.dependencies[k] !in reg { return false; }
    }
    ok := true;
  }

  // ---- one step --------------------------------------------------------------------

  /** What the world decides about the k-th step: the calls of its recreation, whether a
      read-only step errs, whether the step outlives its own budget, and whether the run
      was cancelled before it started or by the time it ended. */
  datatype PlanWorld = PlanWorld(
    fate: nat -> Fate, polls: nat, readErr: nat -> bool, late: nat -> bool,
    cancelled: nat -> bool, cancelledAfter: nat -> bool)

  /** Not in use by any attempt. */
  method FreshId(used: set<nat>) returns (id: nat)
    ensures id !in used
  {
    id := 0;
    var rest := used;
    while rest != {}
      invariant rest <= used && forall i :: i in used && i !in rest ==> i < id
    {
      var i :| i in rest;
      if i >= id { id := i + 1; }
      rest := rest - {i};
    }
  }

  /** What a step's attempt did to the ledger, when no other attempt runs. */
  ghost predicate Accounted(before: map<string, File>, after: map<string, File>, a: Attempt) {
    && OnlyFile(before, after, a.file)
    && (Untouched(a) ==> after == before)
    && (a.armed ==> a.file in after)
    && (a.file !in before ==> !QuotaRefused(a))
    && (a.file in before ==> Untouched(a))
  }

  predicate Declared(step: PlanStep, reg: Registry) {
    Mutates(step) ==> step.target in reg
  }

  /** When the work of step `k`, once it is its turn, begins. */
  predicate Begins(step: PlanStep, k: nat, reg: Registry, w: PlanWorld) {
    Declared(step, reg) && !w.cancelled(k)
  }

  /** What the work came to: a recreation as its attempt ended, a reading as it went. */
  predicate WorkSucceeds(step: PlanStep, k: nat, w: PlanWorld, attempt: Option<Attempt>) {
    if Mutates(step) then attempt.Some? && attempt.value.pc == Finished(Passed) else !w.readErr(k)
  }

  /** A step that ran into its own deadline fails; a deadline met because the whole run was
      cancelled is not held against it. */
  predicate Passing(step: PlanStep, k: nat, reg: Registry, w: PlanWorld, attempt: Option<Attempt>) {
    Begins(step, k, reg, w) && WorkSucceeds(step, k, w, attempt) && (w.late(k) ==> w.cancelledAfter(k))
  }

  /** Attempt `id` is one whole recreation from state `s` to state `s'`. */
  ghost predicate Recreation(s: State, s': State, id: nat, t: Target, runId: string, fate: Fate, clock: nat, polls: nat, alone: bool) {
    && id !in s.attempts
    && s' == Drive(Step(s, Start(id, t, runId)), id, fate, clock, polls + 1, alone)
  }

  /** What is reported of step `k`; `going` says that nothing before it stopped the plan. Its
      work starts exactly when the plan is still going, the run is not cancelled and the
      target is declared; it passes exactly when the work succeeded in time; it is not_run
      exactly when the plan was stopped or cancelled before it. */
  ghost predicate Reported(step: PlanStep, k: nat, reg: Registry, runId: string, w: PlanWorld, going: bool,
                           r: StepReport, ran: bool, attempt: Option<Attempt>) {
    && r.id == step.id && r.title == step.title
    && (ran <==> going && Begins(step, k, reg, w))
    && (r.status == Pass <==> going && Passing(step, k, reg, w, attempt))
    && (r.status == NotRun <==> !going || (Declared(step, reg) && w.cancelled(k)))
    && (attempt.Some? <==> ran && Mutates(step))
    && (attempt.Some? ==>
          && attempt.value.t == reg[step.target] && attempt.value.file == LedgerFile(runId, reg[step.target])
          && (attempt.value.pc == Finished(Passed) ==> attempt.value.armed)
          && Ended(attempt.value.pc, if attempt.value.pc == Finished(Passed) then Pass else Failed, r.quota))
    && (attempt.None? ==> r.quota == None)
  }

  method RunStep(site: Site, step: PlanStep, k: nat, reg: Registry, runId: string, w: PlanWorld)
    returns (r: StepReport, ran: bool, attempt: Option<Attempt>)
    requires site.Valid()
    modifies site
    ensures site.Valid() && old(site.acts) <= site.acts && Extended(old(site.s), site.s)
    ensures Reported(step, k, reg, runId, w, true, r, ran, attempt)
    ensures ran <==> !w.cancelled(k) && (step.target != "" ==> step.target in reg)
    ensures r.status == Pass <==>
      && ran && (w.late(k) ==> w.cancelledAfter(k))
      && (if step.target != "" then attempt.Some? && attempt.value.pc == Finished(Passed) else !w.readErr(k))
    ensures r.status == NotRun <==> w.cancelled(k) && (step.target != "" ==> step.target in reg)
    ensures attempt.Some? <==> ran && step.target != ""
    ensures r.target == if Declared(step, reg) then step.target else ""
    ensures attempt.None? ==> site.s == old(site.s)
    ensures OnRecord(site.s, [attempt])
    ensures attempt.Some? ==>
      && (exists id | id in site.s.attempts && site.s.attempts[id] == attempt.value ::
            Recreation(old(site.s), site.s, id, reg[step.target], runId, w.fate(k), old(site.clock), w.polls, site.alone))
      && (site.alone ==> Accounted(old(site.s.ledger), site.s.ledger, attempt.value))
  {
    hide LedgerFile;
    hide Drive;
    hide Exec;
    hide Step;
    ran, attempt := false, None;
    r := StepReport(step.id, step.title, "", Failed, None);
    if Mutates(step) && step.target !in reg {
      NothingHappened(site.s);
      return;
    }
    r := r.(target := step.target);
    if w.cancelled(k) {
      NothingHappened(site.s);
      return r.(status := NotRun), false, None;
    }
    ran := true;
    var err := w.readErr(k);
    if Mutates(step) {
      var id := FreshId(site.s.attempts.Keys);
      var result := site.RecreateOnce(id, reg[step.target], runId, w.polls, w.fate(k));
      attempt := Some(site.s.attempts[id]);
      err := result.status != Pass;
      r := r.(quota := result.quota);
      assert Recreation(old(site.s), site.s, id, reg[step.target], runId, w.fate(k), old(site.clock), w.polls, site.alone);
    } else {
      NothingHappened(site.s);
    }
    r := r.(status := if err || (w.late(k) && !w.cancelledAfter(k)) then Failed else Pass);
  }

  lemma NothingHappened(s: State)
    ensures Extended(s, s)
  {
  }

  // ---- the whole plan ----------------------------------------------------------------

  ghost predicate FileTaken(ledger: map<string, File>, attempts: seq<Option<Attempt>>, n: nat, file: string)
    requires n <= |attempts|
  {
    file in ledger || exists j: nat :: j < n && attempts[j].Some? && attempts[j].value.file == file && !Untouched(attempts[j].value)
  }

  /** Every step before `n` passed and none was followed by a cancellation. */
  ghost predicate Going(w: PlanWorld, results: seq<StepReport>, n: nat) {
    forall i: nat :: i < n && i < |results| ==> results[i].status == Pass && !w.cancelledAfter(i)
  }

  ghost predicate StepTracked(plan: Plan, reg: Registry, runId: string, w: PlanWorld,
                              results: seq<StepReport>, ran: seq<bool>, attempts: seq<Option<Attempt>>, i: nat)
    requires i < |results| && |results| == |ran| == |attempts| <= |plan.steps|
  {
    Reported(plan.steps[i], i, reg, runId, w, Going(w, results, i), results[i], ran[i], attempts[i])
  }

  /** One result per step, in order. */
  ghost predicate Tracked(plan: Plan, reg: Registry, runId: string, w: PlanWorld,
                          results: seq<StepReport>, ran: seq<bool>, attempts: seq<Option<Attempt>>) {
    && |results| == |ran| == |attempts| <= |plan.steps|
    && forall i: nat :: i < |results| ==> StepTracked(plan, reg, runId, w, results, ran, attempts, i)
  }

  lemma TrackedGrows(plan: Plan, reg: Registry, runId: string, w: PlanWorld, results: seq<StepReport>, ran: seq<bool>,
                     attempts: seq<Option<Attempt>>, r: StepReport, started: bool, attempt: Option<Attempt>)
    requires Tracked(plan, reg, runId, w, results, ran, attempts) && |results| < |plan.steps|
    requires StepTracked(plan, reg, runId, w, results + [r], ran + [started], attempts + [attempt], |results|)
    ensures Tracked(plan, reg, runId, w, results + [r], ran + [started], attempts + [attempt])
  {
    hide Reported;
    forall i: nat | i < |results|
      ensures StepTracked(plan, reg, runId, w, results + [r], ran + [started], attempts + [attempt], i)
    {
      assert StepTracked(plan, reg, runId, w, results, ran, attempts, i);
      GoingPrefix(w, results, r, i);
    }
  }

  lemma GoingPrefix(w: PlanWorld, results: seq<StepReport>, r: StepReport, n: nat)
    requires n <= |results|
    ensures Going(w, results + [r], n) <==> Going(w, results, n)
  {
    if Going(w, results + [r], n) {
      forall i: nat | i < n
        ensures results[i].status == Pass && !w.cancelledAfter(i)
      {
        assert (results + [r])[i] == results[i];
      }
    }
  }

  /** Every attempt of the plan is on record at the site, as it ended. */
  ghost predicate OnRecord(s: State, attempts: seq<Option<Attempt>>) {
    forall i: nat :: i < |attempts| && attempts[i].Some? ==> attempts[i].value in s.attempts.Values && attempts[i].value.pc.Finished?
  }

  lemma OnRecordGrows(s: State, s': State, attempts: seq<Option<Attempt>>, attempt: Option<Attempt>)
    requires OnRecord(s, attempts) && Extended(s, s') && OnRecord(s', [attempt])
    ensures OnRecord(s', attempts + [attempt])
  {
    assert attempt == [attempt][0];
    forall i: nat | i < |attempts| && attempts[i].Some?
      ensures attempts[i].value in s'.attempts.Values
    {
      var id :| id in s.attempts && s.attempts[id] == attempts[i].value;
      assert s'.attempts[id] == s.attempts[id];
    }
  }

  lemma ExtendedChains(s: State, t: State, u: State)
    requires Extended(s, t) && Extended(t, u)
    ensures Extended(s, u)
  {
    forall i: nat | i < |s.reqs|
      ensures u.reqs[i].(status := s.reqs[i].status) == s.reqs[i]
      ensures !s.reqs[i].status.Pending? ==> u.reqs[i] == s.reqs[i]
    {
      assert t.reqs[i].(status := s.reqs[i].status) == s.reqs[i];
    }
  }

  ghost predicate OneDeletePerFile(reqs: seq<Request>) {
    forall i, j :: 0 <= i < j < |reqs| ==> reqs[i].file != reqs[j].file
  }

  lemma SiteDeletesOnce(site: Site)
    requires site.Valid()
    ensures OneDeletePerFile(site.s.reqs)
  {
    hide Exec;
    hide Init;
    forall i: nat, j: nat | i < j < |site.s.reqs|
      ensures site.s.reqs[i].file != site.s.reqs[j].file
    {
      if site.s.reqs[i].file == site.s.reqs[j].file { AtMostOneDelete(site.s0, site.acts, i, j); }
    }
  }

  /** Runs the steps in order. Over all of them the run at the site only grows: every attempt
      stays on record and every ledger file sees one delete request at most. With no other
      attempt about, a step is refused for quota only if its file was there at the start or
      an earlier step of this plan took it, and the ledger gains exactly the files of steps
      that created theirs. */
  method RunPlan(site: Site, plan: Plan, reg: Registry, runId: string, w: PlanWorld)
    returns (results: seq<StepReport>, ran: seq<bool>, attempts: seq<Option<Attempt>>)
    requires site.Valid()
    modifies site
    ensures site.Valid() && old(site.acts) <= site.acts && Extended(old(site.s), site.s)
    ensures |results| == |plan.steps| && Tracked(plan, reg, runId, w, results, ran, attempts)
    ensures forall j: nat :: j < |plan.steps| ==>
      (ran[j] <==>
        && (forall i: nat :: i < j ==> results[i].status == Pass && !w.cancelledAfter(i))
        && !w.cancelled(j) && (plan.steps[j].target != "" ==> plan.steps[j].target in reg))
    ensures forall j: nat :: j < |plan.steps| ==>
      && results[j].id == plan.steps[j].id && results[j].title == plan.steps[j].title
      && (attempts[j].Some? <==> ran[j] && plan.steps[j].target != "")
      && (attempts[j].Some? ==> attempts[j].value.t == reg[plan.steps[j].target] && attempts[j].value.file == LedgerFile(runId, attempts[j].value.t))
      && (results[j].status == Pass <==>
            && ran[j] && (w.late(j) ==> w.cancelledAfter(j))
            && if plan.steps[j].target != "" then attempts[j].value.pc == Finished(Passed) else !w.readErr(j))
    ensures OnRecord(site.s, attempts) && OneDeletePerFile(site.s.reqs)
    ensures forall i, j :: 0 <= i < j < |site.s.reqs| ==> site.s.reqs[i].file != site.s.reqs[j].file
    ensures forall j: nat :: j < |attempts| && attempts[j].Some? ==> attempts[j].value in site.s.attempts.Values
    ensures site.alone ==> Ledgered(old(site.s.ledger), site.s.ledger, attempts)
  {
    hide Exec;
    hide LedgerFile;
    hide Accounted;
    hide Extended;
    hide Recreation;
    hide Ended;
    results, ran, attempts := [], [], [];
    var stopped := false;
    NothingHappened(site.s);
    for n := 0 to |plan.steps|
      invariant site.Valid() && old(site.acts) <= site.acts && Extended(old(site.s), site.s)
      invariant |results| == n && Tracked(plan, reg, runId, w, results, ran, attempts)
      invariant stopped <==> !Going(w, results, n)
      invariant OnRecord(site.s, attempts)
      invariant site.alone ==> Ledgered(old(site.s.ledger), site.s.ledger, attempts)
    {
      hide Tracked;
      hide Ledgered;
      hide Passing;
      hide Begins;
      var r, started, attempt := StepReport(plan.steps[n].id, plan.steps[n].title, plan.steps[n].target, NotRun, None), false, None;
      ghost var before := site.s;
      NothingHappened(site.s);
      if !stopped {
        r, started, attempt := RunStep(site, plan.steps[n], n, reg, runId, w);
        ExtendedChains(old(site.s), before, site.s);
        stopped := r.status != Pass || w.cancelledAfter(n);
      }
      GoingPrefix(w, results, r, n);
      TrackedGrows(plan, reg, runId, w, results, ran, attempts, r, started, attempt);
      OnRecordGrows(before, site.s, attempts, attempt);
      if site.alone { LedgeredGrows(old(site.s.ledger), before.ledger, site.s.ledger, attempts, attempt); }
      results, ran, attempts := results + [r], ran + [started], attempts + [attempt];
    }
    SiteDeletesOnce(site);
    TrackedMeans(plan, reg, runId, w, results, ran, attempts);
    hide Tracked;
  }

  lemma TrackedMeans(plan: Plan, reg: Registry, runId: string, w: PlanWorld,
                     results: seq<StepReport>, ran: seq<bool>, attempts: seq<Option<Attempt>>)
    requires Tracked(plan, reg, runId, w, results, ran, attempts)
    ensures forall j: nat :: j < |results| ==>
      (ran[j] <==>
        && (forall i: nat :: i < j ==> results[i].status == Pass && !w.cancelledAfter(i))
        && !w.cancelled(j) && (plan.steps[j].target != "" ==> plan.steps[j].target in reg))
    ensures forall j: nat :: j < |results| ==>
      && results[j].id == plan.steps[j].id && results[j].title == plan.steps[j].title
      && (attempts[j].Some? <==> ran[j] && plan.steps[j].target != "")
      && (attempts[j].Some? ==> attempts[j].value.t == reg[plan.steps[j].target] && attempts[j].value.file == LedgerFile(runId, attempts[j].value.t))
      && (results[j].status == Pass <==>
            && ran[j] && (w.late(j) ==> w.cancelledAfter(j))
            && if plan.steps[j].target != "" then attempts[j].value.pc == Finished(Passed) else !w.readErr(j))
  {
    hide LedgerFile;
    hide Ended;
    hide StepTracked;
    forall j: nat | j < |results|
      ensures ran[j] <==> Going(w, results, j) && !w.cancelled(j) && (plan.steps[j].target != "" ==> plan.steps[j].target in reg)
      ensures results[j].id == plan.steps[j].id && results[j].title == plan.steps[j].title
      ensures attempts[j].Some? <==> ran[j] && plan.steps[j].target != ""
      ensures attempts[j].Some? ==> attempts[j].value.t == reg[plan.steps[j].target] && attempts[j].value.file == LedgerFile(runId, attempts[j].value.t)
      ensures results[j].status == Pass <==>
        && ran[j] && (w.late(j) ==> w.cancelledAfter(j))
        && if plan.steps[j].target != "" then attempts[j].value.pc == Finished(Passed) else !w.readErr(j)
    {
      StepMeans(plan, reg, runId, w, results, ran, attempts, j);
    }
  }

  lemma StepMeans(plan: Plan, reg: Registry, runId: string, w: PlanWorld,
                  results: seq<StepReport>, ran: seq<bool>, attempts: seq<Option<Attempt>>, j: nat)
    requires Tracked(plan, reg, runId, w, results, ran, attempts) && j < |results|
    ensures ran[j] <==> Going(w, results, j) && !w.cancelled(j) && (plan.steps[j].target != "" ==> plan.steps[j].target in reg)
    ensures results[j].id == plan.steps[j].id && results[j].title == plan.steps[j].title
    ensures attempts[j].Some? <==> ran[j] && plan.steps[j].target != ""
    ensures attempts[j].Some? ==> attempts[j].value.t == reg[plan.steps[j].target] && attempts[j].value.file == LedgerFile(runId, attempts[j].value.t)
    ensures results[j].status == Pass <==>
      && ran[j] && (w.late(j) ==> w.cancelledAfter(j))
      && if plan.steps[j].target != "" then attempts[j].value.pc == Finished(Passed) else !w.readErr(j)
  {
    hide LedgerFile;
    hide Ended;
    hide Going;
    assert StepTracked(plan, reg, runId, w, results, ran, attempts, j);
  }

  /** A run of passes, at most one other result, then only not_run. */
  ghost predicate Shape(results: seq<StepReport>, k: nat) {
    && k <= |results|
    && (forall i: nat :: i < k ==> results[i].status == Pass)
    && (forall i: nat :: k < i < |results| ==> results[i].status == NotRun)
  }

  /** The first step that does not pass, or after which the run is cancelled, stops the plan. */
  lemma FirstStopStopsAll(plan: Plan, reg: Registry, runId: string, w: PlanWorld,
                          results: seq<StepReport>, ran: seq<bool>, attempts: seq<Option<Attempt>>) returns (k: nat)
    requires Tracked(plan, reg, runId, w, results, ran, attempts)
    ensures Shape(results, k) && forall i: nat :: k < i < |ran| ==> !ran[i] && attempts[i].None?
  {
    k := 0;
    while k < |results| && results[k].status == Pass && !w.cancelledAfter(k)
      invariant k <= |results| && Going(w, results, k)
    {
      k := k + 1;
    }
    forall i: nat | k < i < |results|
      ensures results[i].status == NotRun && !ran[i] && attempts[i].None?
    {
      assert StepTracked(plan, reg, runId, w, results, ran, attempts, i);
    }
  }

  /** Distinct targets of this plan have distinct ledger files. */
  ghost predicate DistinctFiles(plan: Plan, reg: Registry, runId: string) {
    forall j, k | 0 <= j < k < |plan.steps| && plan.steps[j].target in reg && plan.steps[k].target in reg ::
      Mutates(plan.steps[j]) && Mutates(plan.steps[k]) ==> LedgerFile(runId, reg[plan.steps[j].target]) != LedgerFile(runId, reg[plan.steps[k].target])
  }

  /** After an accepted preflight, with no other attempt about and a file per target, no
      step of the plan is refused for quota. */
  lemma NoQuotaRefusal(plan: Plan, reg: Registry, runId: string, unreadable: set<nat>, w: PlanWorld, start: map<string, File>,
                       now: map<string, File>, results: seq<StepReport>, ran: seq<bool>, attempts: seq<Option<Attempt>>, i: nat)
    requires Accepts(start, plan, reg, runId, unreadable) && DistinctFiles(plan, reg, runId)
    requires Tracked(plan, reg, runId, w, results, ran, attempts) && Ledgered(start, now, attempts)
    requires i < |attempts| && attempts[i].Some?
    ensures !QuotaRefused(attempts[i].value)
  {
    assert StepTracked(plan, reg, runId, w, results, ran, attempts, i);
    assert TargetReady(start, plan, reg, runId, i);
    forall j: nat | j < i && attempts[j].Some?
      ensures attempts[j].value.file != attempts[i].value.file
    {
      assert StepTracked(plan, reg, runId, w, results, ran, attempts, j);
    }
  }

  /** And a file per target is needed: of two steps that share one, at most one can pass,
      however distinct their registry keys are. */
  lemma SharedFilePassesOnce(plan: Plan, reg: Registry, runId: string, w: PlanWorld, start: map<string, File>, now: map<string, File>,
                             results: seq<StepReport>, ran: seq<bool>, attempts: seq<Option<Attempt>>, j: nat, i: nat)
    requires Tracked(plan, reg, runId, w, results, ran, attempts) && Ledgered(start, now, attempts)
    requires j < i < |attempts| && attempts[j].Some? && attempts[i].Some?
    requires LedgerFile(runId, attempts[j].value.t) == LedgerFile(runId, attempts[i].value.t) && attempts[j].value.armed
    ensures Untouched(attempts[i].value) && results[i].status != Pass
  {
    assert StepTracked(plan, reg, runId, w, results, ran, attempts, i) && StepTracked(plan, reg, runId, w, results, ran, attempts, j);
  }

  /** How the ledger stands after the steps so far. */
  ghost predicate Ledgered(start: map<string, File>, now: map<string, File>, attempts: seq<Option<Attempt>>) {
    && (forall i: nat :: i < |attempts| && attempts[i].Some? && QuotaRefused(attempts[i].value) ==>
          FileTaken(start, attempts, i, attempts[i].value.file))
    && (forall i: nat :: i < |attempts| && attempts[i].Some? && attempts[i].value.armed ==> attempts[i].value.file in now)
    && (forall j: nat, i: nat | j < i < |attempts| && attempts[j].Some? && attempts[i].Some? && attempts[j].value.armed ::
          attempts[j].value.file == attempts[i].value.file ==> Untouched(attempts[i].value))
    && (forall f :: f in now ==> FileTaken(start, attempts, |attempts|, f))
    && (forall f :: f in start ==> f in now && now[f] == start[f])
  }

  lemma LedgeredGrows(start: map<string, File>, before: map<string, File>, after: map<string, File>,
                      attempts: seq<Option<Attempt>>, attempt: Option<Attempt>)
    requires Ledgered(start, before, attempts)
    requires if attempt.Some? then Accounted(before, after, attempt.value) else after == before
    ensures Ledgered(start, after, attempts + [attempt])
  {
    var longer := attempts + [attempt];
    forall f | f in after
      ensures FileTaken(start, longer, |longer|, f)
    {
      if f in before {
        assert FileTaken(start, attempts, |attempts|, f);
        if f !in start {
          var j: nat :| j < |attempts| && attempts[j].Some? && attempts[j].value.file == f && !Untouched(attempts[j].value);
          assert longer[j] == attempts[j];
        }
      } else {
        assert longer[|attempts|] == attempt;
      }
    }
    forall i: nat | i < |longer| && longer[i].Some? && QuotaRefused(longer[i].value)
      ensures FileTaken(start, longer, i, longer[i].value.file)
    {
      if i < |attempts| { TakenStays(start, attempts, attempt, i, longer[i].value.file); }
      else { TakenStays(start, attempts, attempt, |attempts|, longer[i].value.file); }
    }
  }

  lemma TakenStays(start: map<string, File>, attempts: seq<Option<Attempt>>, attempt: Option<Attempt>, n: nat, f: string)
    requires n <= |attempts| && FileTaken(start, attempts, n, f)
    ensures FileTaken(start, attempts + [attempt], n, f)
  {
    if f !in start {
      var j: nat :| j < n && attempts[j].Some? && attempts[j].value.file == f && !Untouched(attempts[j].value);
      assert (attempts + [attempt])[j] == attempts[j];
    }
  }

  // ---- the verdict -----------------------------------------------------------------------

  ghost predicate FirstFailure(steps: seq<StepReport>, i: nat, n: nat) {
    i < n <= |steps| && steps[i].status != Pass && forall j: nat :: j < i ==> steps[j].status == Pass
  }

  /** The component passes exactly when there were steps and all of them passed: an empty
      set, a failure or a step that did not run is not a pass. */
  method PlanOverall(steps: seq<StepReport>) returns (status: Status, firstFailure: Option<StepReport>)
    ensures status == Pass <==> steps != [] && forall i: nat :: i < |steps| ==> steps[i].status == Pass
    ensures status == Pass || status == Failed
    ensures firstFailure.Some? ==> exists i: nat :: FirstFailure(steps, i, |steps|) && firstFailure.value == steps[i]
    ensures firstFailure.Some? ==>
      exists i: nat :: i < |steps| && firstFailure.value == steps[i] && steps[i].status != Pass && forall j: nat :: j < i ==> steps[j].status == Pass
    ensures status == Failed && steps != [] ==> firstFailure.Some?
  {
    if |steps| == 0 { return Failed, None; }
    status, firstFailure := Pass, None;
    for n := 0 to |steps|
      invariant status == Pass <==> forall i: nat :: i < n ==> steps[i].status == Pass
      invariant status == Pass || status == Failed
      invariant status == Pass <==> firstFailure.None?
      invariant firstFailure.Some? ==> exists i: nat :: FirstFailure(steps, i, n) && firstFailure.value == steps[i]
    {
      if steps[n].status != Pass {
        status := Failed;
        if firstFailure.None? {
          firstFailure := Some(steps[n]);
          assert FirstFailure(steps, n, n + 1);
        }
      }
    }
  }

  /** Every step of the plan passes exactly when all of their work was done, in time, and
      nothing was cancelled before the last one. */
  lemma PlanPassesIff(plan: Plan, reg: Registry, runId: string, w: PlanWorld,
                      results: seq<StepReport>, ran: seq<bool>, attempts: seq<Option<Attempt>>)
    requires Tracked(plan, reg, runId, w, results, ran, attempts) && |results| == |plan.steps|
    ensures (forall i: nat :: i < |results| ==> results[i].status == Pass) <==>
      (forall i: nat :: i < |plan.steps| ==>
         Passing(plan.steps[i], i, reg, w, attempts[i]) && (i + 1 < |plan.steps| ==> !w.cancelledAfter(i)))
  {
    hide Passing;
    hide LedgerFile;
    if forall i: nat :: i < |results| ==> results[i].status == Pass {
      forall i: nat | i < |results|
        ensures Passing(plan.steps[i], i, reg, w, attempts[i]) && (i + 1 < |results| ==> !w.cancelledAfter(i))
      {
        assert StepTracked(plan, reg, runId, w, results, ran, attempts, i);
        if i + 1 < |results| { assert StepTracked(plan, reg, runId, w, results, ran, attempts, i + 1); }
      }
    }
    if forall i: nat :: i < |plan.steps| ==>
         Passing(plan.steps[i], i, reg, w, attempts[i]) && (i + 1 < |plan.steps| ==> !w.cancelledAfter(i)) {
      for n := 0 to |results|
        invariant forall i: nat :: i < n ==> results[i].status == Pass
      {
        assert StepTracked(plan, reg, runId, w, results, ran, attempts, n);
      }
    }
  }

  /** A passing component did all of its declared work and every recreation in it passed. */
  lemma PassedPlanDidEverything(plan: Plan, reg: Registry, runId: string, w: PlanWorld,
                                results: seq<StepReport>, ran: seq<bool>, attempts: seq<Option<Attempt>>)
    requires Tracked(plan, reg, runId, w, results, ran, attempts) && |results| == |plan.steps|
    requires forall i: nat :: i < |results| ==> results[i].status == Pass
    ensures forall i: nat :: i < |ran| ==> ran[i] && (Mutates(plan.steps[i]) ==> attempts[i].Some? && attempts[i].value.pc == Finished(Passed))
  {
    forall i: nat | i < |ran|
      ensures ran[i] && (Mutates(plan.steps[i]) ==> attempts[i].Some? && attempts[i].value.pc == Finished(Passed))
    {
      assert StepTracked(plan, reg, runId, w, results, ran, attempts, i);
    }
  }
}
