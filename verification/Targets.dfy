/** The acceptance targets the program ships, and what follows for plans over them. */
module Targets {
  import opened Wrappers
  import opened Cluster
  import opened Protocol
  import opened RecreateOnce
  import opened AcceptancePlan
  import Strings

  const METRICS_NAMESPACE := "ani-observability"

  /** A stateful workload whose pod keeps its data in a claim. */
  function Stateful(ns: string, controller: string, pod: string, claim: string, protocol: string, token: string): Target {
    Target(ns, "StatefulSet", controller, pod, claim, "", "", "", protocol, token)
  }

  const SHIPPED: Registry := map[
    "postgresql" := Stateful("ani-platform", "postgresql", "postgresql-0", "data-postgresql-0", "postgres-sql", "postgresql"),
    "prometheus" := Stateful(METRICS_NAMESPACE, "prometheus-ani-metrics-prometheus", "prometheus-ani-metrics-prometheus-0",
                             "prometheus-ani-metrics-prometheus-db-prometheus-ani-metrics-prometheus-0",
                             "metrics-prometheus", "prometheus"),
    "alertmanager" := Stateful(METRICS_NAMESPACE, "alertmanager-ani-metrics-alertmanager", "alertmanager-ani-metrics-alertmanager-0",
                               "alertmanager-ani-metrics-alertmanager-db-alertmanager-ani-metrics-alertmanager-0",
                               "metrics-alertmanager", "alertmanager"),
    "nats" := Stateful("ani-platform", "nats", "nats-0", "nats-js-nats-0", "nats-jetstream", "nats")]

  // ---- a file per target -------------------------------------------------------------------

  /** Within one base run, two targets have one ledger file exactly when they have one key. */
  lemma SameFileIffSameKey(runId: string, t: Target, u: Target)
    ensures LedgerFile(runId, t) == LedgerFile(runId, u) <==> LedgerKey(t) == LedgerKey(u)
  {
    hide LedgerKey;
    var head, k, l := "ledger-" + runId + "-", LedgerKey(t), LedgerKey(u);
    if LedgerFile(runId, t) == LedgerFile(runId, u) {
      var f := LedgerFile(runId, t);
      assert f == head + k + ".json" == head + l + ".json";
      assert k == f[|head|..|f| - 5] == l;
    }
  }

  /** The condition a registry's author can check: distinct targets have distinct keys. */
  ghost predicate DistinctKeys(plan: Plan, reg: Registry) {
    forall j, k | 0 <= j < k < |plan.steps| && plan.steps[j].target in reg && plan.steps[k].target in reg ::
      Mutates(plan.steps[j]) && Mutates(plan.steps[k]) ==> LedgerKey(reg[plan.steps[j].target]) != LedgerKey(reg[plan.steps[k].target])
  }

  lemma DistinctFilesIffKeys(plan: Plan, reg: Registry, runId: string)
    ensures DistinctFiles(plan, reg, runId) <==> DistinctKeys(plan, reg)
  {
    hide LedgerKey;
    hide LedgerFile;
    forall j, k | 0 <= j < k < |plan.steps| && plan.steps[j].target in reg && plan.steps[k].target in reg
      ensures LedgerFile(runId, reg[plan.steps[j].target]) == LedgerFile(runId, reg[plan.steps[k].target]) <==>
              LedgerKey(reg[plan.steps[j].target]) == LedgerKey(reg[plan.steps[k].target])
    {
      SameFileIffSameKey(runId, reg[plan.steps[j].target], reg[plan.steps[k].target]);
    }
  }

  lemma StatefulIsDeclared(ns: string, controller: string, pod: string, claim: string, protocol: string, token: string)
    requires Strings.Trimmed(ns) && Strings.Trimmed(controller) && Strings.Trimmed(token)
    requires pod != "" && claim != "" && protocol != ""
    ensures var t := Stateful(ns, controller, pod, claim, protocol, token); DeclaredCompletely(t) && LedgerKey(t) == token
  {
    assert Strings.Trimmed("StatefulSet");
  }

  /** The shipped registry is sound: every target is declared completely, under its own key. */
  lemma ShippedTargetsAreSound(key: string)
    requires key in SHIPPED
    ensures DeclaredCompletely(SHIPPED[key]) && LedgerKey(SHIPPED[key]) == key
  {
    hide DeclaredCompletely;
    hide LedgerKey;
    var t := SHIPPED[key];
    assert t == Stateful(t.ns, t.controllerName, t.podName, t.claimName, t.protocol, key);
    hide Stateful;
    StatefulIsDeclared(t.ns, t.controllerName, t.podName, t.claimName, t.protocol, key);
  }

  /** So a plan over the shipped targets that preflight accepts has a file per target, in
      every base run, and none of its steps is refused for quota. */
  lemma ShippedPlanHasItsBudgets(plan: Plan, runId: string, unreadable: set<nat>, w: PlanWorld, start: map<string, File>,
                                 now: map<string, File>, results: seq<StepReport>, ran: seq<bool>, attempts: seq<Option<Attempt>>, i: nat)
    requires Accepts(start, plan, SHIPPED, runId, unreadable)
    requires Tracked(plan, SHIPPED, runId, w, results, ran, attempts) && Ledgered(start, now, attempts)
    requires i < |attempts| && attempts[i].Some?
    ensures DistinctFiles(plan, SHIPPED, runId) && !QuotaRefused(attempts[i].value)
  {
    hide LedgerKey;
    hide LedgerFile;
    hide Tracked;
    hide Ledgered;
    forall j: nat, k: nat | j < k < |plan.steps| && Mutates(plan.steps[j]) && Mutates(plan.steps[k])
      ensures plan.steps[j].target in SHIPPED && plan.steps[k].target in SHIPPED
      ensures LedgerKey(SHIPPED[plan.steps[j].target]) != LedgerKey(SHIPPED[plan.steps[k].target])
    {
      assert TargetReady(start, plan, SHIPPED, runId, j) && TargetReady(start, plan, SHIPPED, runId, k);
      ShippedTargetsAreSound(plan.steps[j].target);
      ShippedTargetsAreSound(plan.steps[k].target);
    }
    DistinctFilesIffKeys(plan, SHIPPED, runId);
    NoQuotaRefusal(plan, SHIPPED, runId, unreadable, w, start, now, results, ran, attempts, i);
  }

  // ---- another registry --------------------------------------------------------------------

  /** Preflight compares registry keys, not ledger files: it accepts a plan whose two targets
      are declared completely, have different keys in the registry, and share one file. */
  lemma AcceptedPlanMayShareAFile(runId: string) returns (plan: Plan, reg: Registry)
    ensures Accepts(map[], plan, reg, runId, {}) && !DistinctFiles(plan, reg, runId)
    ensures |plan.steps| == 2 && Mutates(plan.steps[0]) && Mutates(plan.steps[1])
  {
    var nats := SHIPPED["nats"];
    reg := map["nats" := nats, "nats-standby" := nats.(podName := "nats-1", claimName := "nats-js-nats-1")];
    plan := Plan([PlanStep("1", "first", "nats", true), PlanStep("2", "second", "nats-standby", true)], []);
    ShippedTargetsAreSound("nats");
    StatefulIsDeclared("ani-platform", "nats", "nats-1", "nats-js-nats-1", "nats-jetstream", "nats");
    hide DeclaredCompletely;
    hide LedgerKey;
    SameFileIffSameKey(runId, nats, reg["nats-standby"]);
    hide LedgerFile;
    assert plan.steps[0].target in reg && plan.steps[1].target in reg;
    assert TargetReady(map[], plan, reg, runId, 0) && TargetReady(map[], plan, reg, runId, 1);
  }

  // ---- across base runs --------------------------------------------------------------------

  /** How a ledger file is named: by the base run and the trimmed token, or, when the token is
      blank, the controller. */
  lemma FileName(runId: string, t: Target)
    ensures !Blank(t.ledgerToken) ==> LedgerFile(runId, t) == "ledger-" + runId + "-" + Strings.Trim(t.ledgerToken) + ".json"
    ensures Blank(t.ledgerToken) ==> LedgerFile(runId, t) == "ledger-" + runId + "-" + t.controllerName + ".json"
  {
  }

  /** Two base runs share a file exactly when run id, dash and key run together to the same text. */
  lemma SameFileAcrossRuns(r: string, t: Target, s: string, u: Target)
    ensures LedgerFile(r, t) == LedgerFile(s, u) <==> r + "-" + LedgerKey(t) == s + "-" + LedgerKey(u)
  {
    hide LedgerKey;
    var k, l := LedgerKey(t), LedgerKey(u);
    assert LedgerFile(r, t) == "ledger-" + (r + "-" + k) + ".json";
    assert LedgerFile(s, u) == "ledger-" + (s + "-" + l) + ".json";
    hide LedgerFile;
    if LedgerFile(r, t) == LedgerFile(s, u) {
      var f := LedgerFile(r, t);
      assert r + "-" + k == f[7..|f| - 5] == s + "-" + l;
    }
  }

  /** So one budget per base run and target is not what file names alone give: two runs and two
      keys can meet in one file. */
  lemma RunsMayShareAFile() returns (r: string, t: Target, s: string, u: Target)
    ensures r != s && LedgerKey(t) != LedgerKey(u) && LedgerFile(r, t) == LedgerFile(s, u)
  {
    r, s := "a", "a-b";
    t := Stateful("ns", "b-c", "pod", "claim", "protocol", "b-c");
    u := Stateful("ns", "c", "pod", "claim", "protocol", "c");
    assert Strings.Trimmed("b-c") && Strings.Trimmed("c");
    assert LedgerKey(t) == "b-c" && LedgerKey(u) == "c";
    hide LedgerKey;
    assert r + "-" + "b-c" == s + "-" + "c";
    SameFileAcrossRuns(r, t, s, u);
  }

  /** Keys without a dash, as all the shipped ones are, rule that out: then a file belongs to one
      base run and one key. */
  lemma DashlessKeysAreApart(r: string, t: Target, s: string, u: Target)
    requires '-' !in LedgerKey(t) && '-' !in LedgerKey(u)
    ensures LedgerFile(r, t) == LedgerFile(s, u) <==> r == s && LedgerKey(t) == LedgerKey(u)
  {
    hide LedgerFile;
    hide LedgerKey;
    SameFileAcrossRuns(r, t, s, u);
    var k, l := LedgerKey(t), LedgerKey(u);
    if r + "-" + k == s + "-" + l {
      if |k| < |l| { DashInside(r, k, s, l); }
      if |l| < |k| { DashInside(s, l, r, k); }
      var x := r + "-" + k;
      assert x[..|r|] == r && x[|x| - |k|..] == k;
      assert x == s + "-" + l && x[..|s|] == s && x[|x| - |l|..] == l;
    }
  }

  /** The dash before the shorter key lies within the longer one. */
  lemma DashInside(r: string, k: string, s: string, l: string)
    requires r + "-" + k == s + "-" + l && |k| < |l|
    ensures '-' in l
  {
    var x := r + "-" + k;
    assert x[|x| - |k| - 1] == '-' && x == s + "-" + l;
    assert l[|l| - |k| - 1] == x[|x| - |k| - 1];
  }

  lemma ShippedKeysAreDashless(key: string)
    requires key in SHIPPED
    ensures '-' !in LedgerKey(SHIPPED[key])
  {
    ShippedTargetsAreSound(key);
    ShippedKeys(key);
    hide SHIPPED;
    hide LedgerKey;
    hide DeclaredCompletely;
    PlainKeys();
  }

  lemma ShippedKeys(key: string)
    requires key in SHIPPED
    ensures key == "postgresql" || key == "prometheus" || key == "alertmanager" || key == "nats"
  {
    hide Stateful;
  }

  lemma PlainKeys()
    ensures '-' !in "postgresql" && '-' !in "prometheus" && '-' !in "alertmanager" && '-' !in "nats"
  {
  }

  /** One budget per base run and shipped target. */
  lemma ShippedFilesAreApart(r: string, a: string, s: string, b: string)
    requires a in SHIPPED && b in SHIPPED
    ensures LedgerFile(r, SHIPPED[a]) == LedgerFile(s, SHIPPED[b]) <==> r == s && a == b
  {
    ShippedKeysAreDashless(a);
    ShippedKeysAreDashless(b);
    ShippedTargetsAreSound(a);
    ShippedTargetsAreSound(b);
    hide SHIPPED;
    hide DeclaredCompletely;
    DashlessKeysAreApart(r, SHIPPED[a], s, SHIPPED[b]);
  }
}
