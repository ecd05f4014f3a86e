/** The closure as the program computes it: marks and scope updated in place by a
    recursive visit, then the storage check; and the plan validator built on it. */
module Resolver {
  import opened Wrappers
  import opened Closure
  import opened ClosureTheory
  import opened Strings

  /** The state the recursive visit updates. */
  class Visit {
    const cfg: Config
    var seen: set<string>
    var scope: seq<string>

    constructor (cfg: Config)
      ensures this.cfg == cfg && seen == {} && scope == []
    {
      this.cfg, seen, scope := cfg, {}, [];
    }

    /** Visits one name; the new marks and scope are those of the walk. */
    method AddName(name: string) returns (err: Option<ScopeError>)
      modifies this
      ensures err.None? ==> Add(cfg, name, old(Walk(seen, scope))) == Ok(Walk(seen, scope))
      ensures err.Some? ==> Add(cfg, name, old(Walk(seen, scope))) == Err(err.value)
      decreases Remaining(cfg, seen)
    {
      if name in seen { return None; }
      if name !in cfg.specs { return Some(if name in cfg.deferred then DeferredComponent else UnknownComponent); }
      if name !in cfg.enabled { return Some(NotEnabled); }
      FewerRemain(cfg, seen, name);
      ghost var marked := Walk(seen + {name}, scope);
      seen := seen + {name};
      var deps := Dependencies(cfg, name);
      for i := 0 to |deps|
        invariant marked.seen <= seen
        invariant AddDeps(cfg, deps, marked) == AddDeps(cfg, deps[i..], Walk(seen, scope))
      {
        var dep := deps[i];
        assert deps[i..][0] == dep && deps[i..][1..] == deps[i + 1..];
        if dep !in cfg.specs {
          if dep !in cfg.roleManaged { return Some(UndeclaredDependency); }
        } else {
          if dep !in cfg.enabled { return Some(DependencyNotEnabled); }
          NoMoreRemain(cfg, marked.seen, seen);
          err := AddName(dep);
          if err.Some? { return; }
        }
      }
      assert deps[|deps|..] == [];
      scope := scope + [name];
      err := None;
    }
  }

  /** Resolves --only against the site config. */
  method ComponentsScope(cfg: Config, only: seq<string>) returns (r: Result<seq<string>>)
    ensures r == Scope(cfg, only)
    ensures ProductTable(cfg) && cfg.rustfs && r.Ok? && "milvus" in r.value ==>
      && "cert-manager" in cfg.enabled && "rustfs" in cfg.enabled && "milvus" in cfg.enabled
      && exists i, j, k :: 0 <= i < j < k < |r.value| && r.value[i] == "cert-manager" && r.value[j] == "rustfs" && r.value[k] == "milvus"
    ensures ProductTable(cfg) && !cfg.rustfs && r.Ok? && only == ["milvus"] ==> r.value == ["milvus"]
  {
    r := ResolveScope(cfg, only);
    hide Scope;
    hide ProductTable;
    if ProductTable(cfg) && r.Ok? {
      if cfg.rustfs && "milvus" in r.value { MilvusBringsItsStore(cfg, only); }
      if !cfg.rustfs && only == ["milvus"] { MilvusAlone(cfg); }
    }
  }

  method ResolveScope(cfg: Config, only: seq<string>) returns (r: Result<seq<string>>)
    ensures r == Scope(cfg, only)
  {
    var names: seq<string> := [];
    for i := 0 to |only|
      invariant names == TrimAll(only[..i])
    {
      TrimAllSnoc(only[..i], only[i]);
      assert only[..i + 1] == only[..i] + [only[i]];
      if Strings.Trim(only[i]) != "" { names := names + [Strings.Trim(only[i])]; }
    }
    assert only[..|only|] == only;
    if names == [] { return Err(EmptyScope); }
    var visit := new Visit(cfg);
    for i := 0 to |names|
      invariant visit.cfg == cfg
      invariant AddAll(cfg, names, Walk({}, [])) == AddAll(cfg, names[i..], Walk(visit.seen, visit.scope))
    {
      assert names[i..][0] == names[i] && names[i..][1..] == names[i + 1..];
      var err := visit.AddName(names[i]);
      if err.Some? { return Err(err.value); }
    }
    assert names[|names|..] == [];
    var scope := visit.scope;
    for i := 0 to |scope|
      invariant forall j :: 0 <= j < i ==> StorageFeasible(cfg, scope[j])
    {
      if scope[i] in cfg.specs && cfg.specs[scope[i]].needsStorage && cfg.storageClass == "" {
        assert scope[i] in scope;
        return Err(NoStorageClass);
      }
    }
    r := Ok(scope);
  }

  lemma {:induction false} TrimAllSnoc(l: seq<string>, x: string)
    ensures TrimAll(l + [x]) == TrimAll(l) + if Strings.Trim(x) == "" then [] else [Strings.Trim(x)]
  {
    if l == [] {
      assert l + [x] == [x] && [x][1..] == [];
    } else {
      assert (l + [x])[1..] == l[1..] + [x];
      TrimAllSnoc(l[1..], x);
    }
  }

  // ---- the plan --------------------------------------------------------------------------

  const PLANNED := "planned"
  const ALREADY_INSTALLED := "already_installed"

  /** A line of the plan: a component and how it was classified. */
  datatype Row = Row(component: string, status: string)

  function Names(rows: seq<Row>): (names: seq<string>)
    ensures |names| == |rows| && forall i :: 0 <= i < |rows| ==> names[i] == rows[i].component
  {
    seq(|rows|, i requires 0 <= i < |rows| => rows[i].component)
  }

  predicate LegalStatus(row: Row) {
    row.status == PLANNED || row.status == ALREADY_INSTALLED
  }

  ghost predicate ClosedUnder(cfg: Config, names: seq<string>) {
    forall x, d :: x in names && Needs(cfg, x, d) ==> d in names
  }

  /** A plan whose rows are their own closure under this config. */
  ghost predicate ClosedPlan(cfg: Config, names: seq<string>) {
    names != [] && NoDup(names) && (forall x :: x in names ==> Admissible(cfg, x)) && ClosedUnder(cfg, names)
  }

  lemma {:induction false} DistinctCount(s: seq<string>)
    ensures |Marks(s)| <= |s|
    ensures NoDup(s) <==> |Marks(s)| == |s|
  {
    if s != [] {
      var init, last := s[..|s| - 1], s[|s| - 1];
      DistinctCount(init);
      assert s == init + [last];
      assert Marks(s) == Marks(init) + {last};
      if last in init {
        assert Marks(s) == Marks(init);
        var i :| 0 <= i < |init| && init[i] == last;
        assert s[i] == s[|s| - 1];
      } else {
        assert NoDup(init) ==> NoDup(s);
        assert NoDup(s) ==> NoDup(init);
      }
    }
  }

  /** Distinct names inside a list of the same length are all of it, and it has no repeats. */
  lemma SameNames(full: seq<string>, names: seq<string>)
    requires NoDup(full) && |full| == |names| && forall x :: x in full ==> x in names
    ensures NoDup(names) && forall x :: x in names ==> x in full
  {
    DistinctCount(full);
    DistinctCount(names);
    assert Marks(full) <= Marks(names);
    SubsetOfSameSize(Marks(full), Marks(names));
    forall x | x in names
      ensures x in full
    {
      assert x in Marks(names);
    }
  }

  lemma SubsetOfSameSize(a: set<string>, b: set<string>)
    requires a <= b && |b| <= |a|
    ensures a == b
  {
    assert b == a + (b - a);
    assert |b - a| == 0;
  }

  lemma SameLength(full: seq<string>, names: seq<string>)
    requires NoDup(full) && NoDup(names) && forall x :: x in full <==> x in names
    ensures |full| == |names|
  {
    DistinctCount(full);
    DistinctCount(names);
    assert Marks(full) == Marks(names);
  }

  lemma ReachedStaysInside(cfg: Config, names: seq<string>, y: string)
    requires ClosedUnder(cfg, names) && ReachedFrom(cfg, names, y)
    ensures y in names
  {
    var x :| x in names && Reach(cfg, x, y);
    var p :| PathTo(cfg, p, x, y);
    ClosedHolds(cfg, Marks(names), p);
  }

  lemma EachReachesItself(cfg: Config, names: seq<string>)
    ensures forall x :: x in names ==> ReachedFrom(cfg, names, x)
  {
    forall x | x in names
      ensures ReachedFrom(cfg, names, x)
    {
      ReachSelf(cfg, x);
    }
  }

  /** A closed plan resolves to a rearrangement of itself. */
  lemma ClosedPlanResolves(cfg: Config, names: seq<string>)
    requires TableOk(cfg) && ClosedPlan(cfg, names)
    ensures Scope(cfg, names).Ok?
    ensures var full := Scope(cfg, names).value; |full| == |names| && NoDup(full) && forall x :: x in full <==> x in names
  {
    TrimAllSame(names);
    ScopeTheorem(cfg, names);
    EachReachesItself(cfg, names);
    forall y | ReachedFrom(cfg, names, y)
      ensures y in names
    {
      ReachedStaysInside(cfg, names, y);
    }
    SameLength(Scope(cfg, names).value, names);
  }

  /** Conversely, rows that resolve to exactly themselves form a closed plan. */
  lemma ResolvedPlanIsClosed(cfg: Config, names: seq<string>)
    requires TableOk(cfg) && Scope(cfg, names).Ok? && |Scope(cfg, names).value| == |names|
    requires forall x :: x in Scope(cfg, names).value ==> x in names
    ensures ClosedPlan(cfg, names)
  {
    ScopeTheorem(cfg, names);
    var full := Scope(cfg, names).value;
    SameNames(full, names);
    forall x, d | x in names && Needs(cfg, x, d)
      ensures d in names
    {
      var r :| r in TrimAll(names) && Reach(cfg, r, x);
      ReachStep(cfg, r, x, d);
      assert ReachedFrom(cfg, TrimAll(names), d);
    }
    NonEmptyClosure(cfg, names);
  }

  /** Resolves all rows of the plan afresh under today's config. It accepts exactly the plans
      whose rows have legal statuses, are distinct and admissible, and are closed under
      dependencies (and that mean to write only their own rows); what it returns is the rows
      again, in dependency order. */
  method ValidatePlanClosure(rows: seq<Row>, cfg: Config, planned: seq<string>) returns (r: Option<seq<string>>)
    requires TableOk(cfg)
    ensures r.Some? <==>
      && (forall i :: 0 <= i < |rows| ==> LegalStatus(rows[i]))
      && ClosedPlan(cfg, Names(rows))
      && (forall x :: x in planned ==> x in Names(rows))
    ensures r.Some? ==> Scope(cfg, Names(rows)) == Ok(r.value) && |r.value| == |rows| && NoDup(r.value)
    ensures r.Some? ==> forall x :: x in r.value <==> x in Names(rows)
  {
    var names := Names(rows);
    var requested: seq<string> := [];
    var known: set<string> := {};
    for i := 0 to |rows|
      invariant forall j :: 0 <= j < i ==> LegalStatus(rows[j])
      invariant requested == names[..i] && known == Marks(requested)
    {
      if rows[i].status != PLANNED && rows[i].status != ALREADY_INSTALLED { return None; }
      requested := requested + [rows[i].component];
      known := known + {rows[i].component};
    }
    assert requested == names;
    var scoped := ComponentsScope(cfg, requested);
    if ClosedPlan(cfg, names) { ClosedPlanResolves(cfg, names); }
    if scoped.Err? { return None; }
    var full := scoped.value;
    for i := 0 to |full|
      invariant forall j :: 0 <= j < i ==> full[j] in names
    {
      if full[i] !in known { return None; }
    }
    if |full| != |requested| { return None; }
    ResolvedPlanIsClosed(cfg, names);
    ClosedPlanResolves(cfg, names);
    for i := 0 to |planned|
      invariant forall j :: 0 <= j < i ==> planned[j] in names
    {
      if planned[i] !in full { return None; }
    }
    r := Some(full);
  }

  /** A plan made from an unchanged config is accepted with its rows in the same order. */
  lemma FreshPlanIsClosed(cfg: Config, only: seq<string>)
    requires TableOk(cfg) && Acyclic(cfg) && Scope(cfg, only).Ok?
    ensures ClosedPlan(cfg, Scope(cfg, only).value)
    ensures Scope(cfg, Scope(cfg, only).value) == Scope(cfg, only)
  {
    ScopeIdempotent(cfg, only);
    ResolvedPlanIsClosed(cfg, Scope(cfg, only).value);
  }

  /** If the config changes after planning so that the same request now reaches a component
      the plan does not name, the plan is no longer acceptable. */
  lemma GrowthIsRefused(cfg: Config, cfg': Config, only: seq<string>, y: string)
    requires Scope(cfg, only).Ok? && ReachedFrom(cfg', TrimAll(only), y) && y !in Scope(cfg, only).value
    ensures !ClosedPlan(cfg', Scope(cfg, only).value)
  {
    var names := Scope(cfg, only).value;
    RequestedAreResolved(cfg, only);
    if ClosedUnder(cfg', names) {
      ReachedFromInside(cfg', TrimAll(only), names, y);
      assert false;
    }
  }

  lemma RequestedAreResolved(cfg: Config, only: seq<string>)
    requires Scope(cfg, only).Ok?
    ensures forall r :: r in TrimAll(only) ==> r in Scope(cfg, only).value
  {
    ScopeTheorem(cfg, only);
    EachReachesItself(cfg, TrimAll(only));
  }

  lemma ReachedFromInside(cfg: Config, roots: seq<string>, names: seq<string>, y: string)
    requires ClosedUnder(cfg, names) && (forall r :: r in roots ==> r in names) && ReachedFrom(cfg, roots, y)
    ensures y in names
  {
    var r :| r in roots && Reach(cfg, r, y);
    var p :| PathTo(cfg, p, r, y);
    ClosedHolds(cfg, Marks(names), p);
  }

  // ---- the product's own table --------------------------------------------------------------

  const COMPONENTS: set<string> := {
    "cert-manager", "postgresql", "valkey", "nats", "rustfs", "milvus", "metrics-server", "snapshot-controller",
    "kubevirt", "harbor", "volcano", "metrics", "loki", "opensearch", "fluent-bit"}

  function InternalDeps(name: string): seq<string> {
    if name == "rustfs" then ["cert-manager"]
    else if name == "kubevirt" then ["cdi"]
    else if name == "harbor" then ["dedicated-db", "dedicated-valkey", "offline-trivy-db"]
    else if name == "opensearch" then ["fluent-bit"]
    else []
  }

  /** The table this installer ships, whatever the site enables. */
  predicate ProductTable(cfg: Config) {
    cfg.specs.Keys == COMPONENTS && forall x :: x in cfg.specs ==> cfg.specs[x].deps == InternalDeps(x)
  }

  function Level(x: string): nat {
    if x == "milvus" then 2 else if x == "rustfs" || x == "opensearch" then 1 else 0
  }

  /** Prerequisites installed inside their owning role are not components of the table. */
  lemma RoleManagedNotComponents()
    ensures "cdi" !in COMPONENTS && "dedicated-db" !in COMPONENTS
  {
  }

  lemma RoleManagedHaveNoSpec()
    ensures "dedicated-valkey" !in COMPONENTS && "offline-trivy-db" !in COMPONENTS
  {
  }

  lemma InternalEdges(x: string, d: string)
    requires d in InternalDeps(x) && d in COMPONENTS
    ensures Level(d) < Level(x)
  {
    RoleManagedNotComponents();
    RoleManagedHaveNoSpec();
    if x == "rustfs" {
      assert d == "cert-manager";
    } else if x == "opensearch" {
      assert d == "fluent-bit";
    }
  }

  lemma ProductEdges(cfg: Config, x: string, d: string)
    requires ProductTable(cfg) && Needs(cfg, x, d)
    ensures Level(d) < Level(x)
  {
    if x in cfg.specs && d in cfg.specs[x].deps {
      InternalEdges(x, d);
    }
  }

  lemma {:induction false} LevelsFallAlongPaths(cfg: Config, p: seq<string>)
    requires IsPath(cfg, p) && ProductTable(cfg)
    ensures Level(p[|p| - 1]) <= Level(p[0])
  {
    if |p| > 1 {
      assert Needs(cfg, p[|p| - 2], p[|p| - 2 + 1]);
      ProductEdges(cfg, p[|p| - 2], p[|p| - 1]);
      LevelsFallAlongPaths(cfg, p[..|p| - 1]);
    }
  }

  /** The shipped table is acyclic with canonical names, so everything above applies to it. */
  lemma ProductTableIsSound(cfg: Config)
    requires ProductTable(cfg)
    ensures Acyclic(cfg) && TableOk(cfg)
  {
    forall x, d | Needs(cfg, x, d)
      ensures !Reach(cfg, d, x)
    {
      ProductEdges(cfg, x, d);
      forall p | PathTo(cfg, p, d, x)
        ensures false
      {
        LevelsFallAlongPaths(cfg, p);
      }
    }
  }

  // ---- what the product resolves to -----------------------------------------------------------

  /** Installed within their owning role, so no components of their own. */
  const ROLE_MANAGED: set<string> := {"cdi", "dedicated-db", "dedicated-valkey", "offline-trivy-db"}

  /** Components that keep nothing on disk. */
  const STORAGE_FREE: set<string> := {"cert-manager", "metrics-server", "volcano", "fluent-bit"}

  predicate ProductSite(cfg: Config) {
    && ProductTable(cfg) && cfg.roleManaged == ROLE_MANAGED
    && forall x :: x in cfg.specs ==> (cfg.specs[x].needsStorage <==> x !in STORAGE_FREE)
  }

  /** What a request comes to, prerequisites included: milvus brings rustfs where the site's
      object store is rustfs, rustfs brings cert-manager, opensearch brings fluent-bit. */
  predicate Wanted(rustfs: bool, names: seq<string>, x: string) {
    || x in names
    || (x == "rustfs" && rustfs && "milvus" in names)
    || (x == "cert-manager" && ("rustfs" in names || (rustfs && "milvus" in names)))
    || (x == "fluent-bit" && "opensearch" in names)
  }

  lemma WantedIsReached(cfg: Config, names: seq<string>, x: string)
    requires ProductTable(cfg) && Wanted(cfg.rustfs, names, x)
    ensures ReachedFrom(cfg, names, x)
  {
    ReachSelf(cfg, x);
    ProductNeeds(cfg);
    if x !in names {
      if x == "cert-manager" {
        if "rustfs" in names {
          ReachSelf(cfg, "rustfs");
          ReachStep(cfg, "rustfs", "rustfs", x);
        } else {
          ReachSelf(cfg, "milvus");
          ReachStep(cfg, "milvus", "milvus", "rustfs");
          ReachStep(cfg, "milvus", "rustfs", x);
        }
      } else {
        var from := if x == "rustfs" then "milvus" else "opensearch";
        ReachSelf(cfg, from);
        ReachStep(cfg, from, from, x);
      }
    }
  }

  lemma ProductNeeds(cfg: Config)
    requires ProductTable(cfg)
    ensures Needs(cfg, "rustfs", "cert-manager") && Needs(cfg, "opensearch", "fluent-bit")
    ensures cfg.rustfs ==> Needs(cfg, "milvus", "rustfs")
  {
    assert "cert-manager" in COMPONENTS && "fluent-bit" in COMPONENTS && "rustfs" in COMPONENTS;
    assert "milvus" in COMPONENTS && "opensearch" in COMPONENTS;
    assert "cert-manager" in InternalDeps("rustfs") && "fluent-bit" in InternalDeps("opensearch");
    assert "rustfs" in ["rustfs"];
  }

  /** There are no other edges. */
  lemma OnlyProductNeeds(cfg: Config, x: string, d: string)
    requires ProductTable(cfg) && Needs(cfg, x, d)
    ensures (x == "rustfs" && d == "cert-manager") || (x == "opensearch" && d == "fluent-bit") || (x == "milvus" && d == "rustfs" && cfg.rustfs)
  {
    RoleManagedNotComponents();
    RoleManagedHaveNoSpec();
    if x in cfg.specs && d in cfg.specs[x].deps { assert d in InternalDeps(x); }
  }

  lemma ReachedIsWanted(cfg: Config, names: seq<string>, y: string)
    requires ProductTable(cfg) && ReachedFrom(cfg, names, y)
    ensures Wanted(cfg.rustfs, names, y)
  {
    var x :| x in names && Reach(cfg, x, y);
    var p :| PathTo(cfg, p, x, y);
    WantedAlongPath(cfg, names, p);
  }

  lemma {:induction false} WantedAlongPath(cfg: Config, names: seq<string>, p: seq<string>)
    requires ProductTable(cfg) && IsPath(cfg, p) && p[0] in names
    ensures Wanted(cfg.rustfs, names, p[|p| - 1])
  {
    hide Needs;
    if |p| > 1 {
      var init := p[..|p| - 1];
      WantedAlongPath(cfg, names, init);
      assert Needs(cfg, p[|p| - 2], p[|p| - 2 + 1]);
      OnlyProductNeeds(cfg, p[|p| - 2], p[|p| - 1]);
    }
  }

  lemma ProductAdmissible(cfg: Config, x: string)
    requires ProductSite(cfg)
    ensures Admissible(cfg, x) <==> x in COMPONENTS && x in cfg.enabled && (x in STORAGE_FREE || cfg.storageClass != "")
  {
    if x in COMPONENTS {
      forall d | d in Dependencies(cfg, x)
        ensures d in cfg.specs || d in cfg.roleManaged
      {
        assert d in InternalDeps(x) || d == "rustfs";
      }
    }
  }

  /** Both are listed, `d` before `x`. */
  ghost predicate Precedes(l: seq<string>, d: string, x: string) {
    exists i, j :: 0 <= i < j < |l| && l[i] == d && l[j] == x
  }

  lemma NeededPrecedes(cfg: Config, only: seq<string>, x: string, d: string)
    requires ProductTable(cfg) && Scope(cfg, only).Ok? && x in Scope(cfg, only).value && Needs(cfg, x, d)
    ensures Precedes(Scope(cfg, only).value, d, x)
  {
    hide Scope;
    ProductTableIsSound(cfg);
    var l := Scope(cfg, only).value;
    var j: nat :| j < |l| && l[j] == x;
    AcyclicOrder(cfg, only, j, d);
    var i :| 0 <= i < |l[..j]| && l[..j][i] == d;
    assert l[i] == d && l[j] == x;
  }

  /** The product's own resolution, with no word of a graph: when it succeeds, what it lists, and
      in which order. */
  lemma ProductScope(cfg: Config, only: seq<string>)
    requires ProductSite(cfg)
    ensures Scope(cfg, only).Ok? <==>
      && TrimAll(only) != []
      && forall x :: Wanted(cfg.rustfs, TrimAll(only), x) ==>
           x in COMPONENTS && x in cfg.enabled && (x in STORAGE_FREE || cfg.storageClass != "")
    ensures Scope(cfg, only).Ok? ==>
      && NoDup(Scope(cfg, only).value)
      && (forall x :: x in Scope(cfg, only).value <==> Wanted(cfg.rustfs, TrimAll(only), x))
      && InstallOrder(Scope(cfg, only).value, cfg.rustfs)
  {
    hide ProductSite;
    hide Wanted;
    ScopeTheorem(cfg, only);
    hide Scope;
    assert ProductTable(cfg) by { ProductSiteHasTable(cfg); }
    hide ProductTable;
    forall x
      ensures ReachedFrom(cfg, TrimAll(only), x) <==> Wanted(cfg.rustfs, TrimAll(only), x)
      ensures Admissible(cfg, x) <==> x in COMPONENTS && x in cfg.enabled && (x in STORAGE_FREE || cfg.storageClass != "")
    {
      ProductAdmissible(cfg, x);
      if ReachedFrom(cfg, TrimAll(only), x) { ReachedIsWanted(cfg, TrimAll(only), x); }
      if Wanted(cfg.rustfs, TrimAll(only), x) { WantedIsReached(cfg, TrimAll(only), x); }
    }
    hide Admissible;
    if Scope(cfg, only).Ok? { ProductOrder(cfg, only); }
    hide InstallOrder;
  }

  lemma ProductSiteHasTable(cfg: Config)
    requires ProductSite(cfg)
    ensures ProductTable(cfg)
  {
  }

  /** Prerequisites stand before what needs them. */
  ghost predicate InstallOrder(l: seq<string>, rustfs: bool) {
    && ("rustfs" in l ==> Precedes(l, "cert-manager", "rustfs"))
    && ("milvus" in l && rustfs ==> Precedes(l, "rustfs", "milvus"))
    && ("opensearch" in l ==> Precedes(l, "fluent-bit", "opensearch"))
  }

  lemma ProductOrder(cfg: Config, only: seq<string>)
    requires ProductTable(cfg) && Scope(cfg, only).Ok?
    ensures InstallOrder(Scope(cfg, only).value, cfg.rustfs)
  {
    ProductNeeds(cfg);
    hide Needs;
    hide Scope;
    hide ProductTable;
    hide Precedes;
    var l := Scope(cfg, only).value;
    if "rustfs" in l { NeededPrecedes(cfg, only, "rustfs", "cert-manager"); }
    if "milvus" in l && cfg.rustfs { NeededPrecedes(cfg, only, "milvus", "rustfs"); }
    if "opensearch" in l { NeededPrecedes(cfg, only, "opensearch", "fluent-bit"); }
  }

  /** Milvus on a rustfs site: three components, all enabled, in this order. */
  lemma MilvusBringsItsStore(cfg: Config, only: seq<string>)
    requires ProductTable(cfg) && cfg.rustfs && Scope(cfg, only).Ok? && "milvus" in Scope(cfg, only).value
    ensures var l := Scope(cfg, only).value;
      exists i, j, k :: 0 <= i < j < k < |l| && l[i] == "cert-manager" && l[j] == "rustfs" && l[k] == "milvus"
    ensures "cert-manager" in cfg.enabled && "rustfs" in cfg.enabled && "milvus" in cfg.enabled
  {
    ScopeTheorem(cfg, only);
    ProductOrder(cfg, only);
    hide Scope;
    hide ProductTable;
    var l := Scope(cfg, only).value;
    var j, k :| 0 <= j < k < |l| && l[j] == "rustfs" && l[k] == "milvus";
    assert "rustfs" in l;
    var i, j' :| 0 <= i < j' < |l| && l[i] == "cert-manager" && l[j'] == "rustfs";
    assert j == j';
    assert Admissible(cfg, l[i]) && Admissible(cfg, l[j]) && Admissible(cfg, l[k]);
  }

  /** Elsewhere it stands alone. */
  lemma MilvusAlone(cfg: Config)
    requires ProductTable(cfg) && !cfg.rustfs && Scope(cfg, ["milvus"]).Ok?
    ensures Scope(cfg, ["milvus"]).value == ["milvus"]
  {
    ScopeTheorem(cfg, ["milvus"]);
    TrimAllSame(["milvus"]);
    NonEmptyClosure(cfg, ["milvus"]);
    hide Scope;
    var l := Scope(cfg, ["milvus"]).value;
    forall x | x in l
      ensures x == "milvus"
    {
      ReachedIsWanted(cfg, ["milvus"], x);
    }
    assert l[0] in l;
    SameLength(l, ["milvus"]);
  }
}
