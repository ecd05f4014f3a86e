/** What the walk computes, for any finite component table: exactly what the requested
    names reach, each once, dependencies first except along a cycle. */
module ClosureTheory {
  import opened Closure
  import opened Strings

  // ---- reachability, independently of the walk ----------------------------------------

  ghost predicate IsPath(cfg: Config, p: seq<string>) {
    |p| > 0 && forall i: nat :: i + 1 < |p| ==> Needs(cfg, p[i], p[i + 1])
  }

  ghost predicate PathTo(cfg: Config, p: seq<string>, x: string, y: string) {
    IsPath(cfg, p) && p[0] == x && p[|p| - 1] == y
  }

  ghost predicate Reach(cfg: Config, x: string, y: string) {
    exists p :: PathTo(cfg, p, x, y)
  }

  ghost predicate ReachedFrom(cfg: Config, roots: seq<string>, y: string) {
    exists x :: x in roots && Reach(cfg, x, y)
  }

  ghost predicate Acyclic(cfg: Config) {
    forall x, d :: Needs(cfg, x, d) ==> !Reach(cfg, d, x)
  }

  lemma ReachSelf(cfg: Config, x: string)
    ensures Reach(cfg, x, x)
  {
    assert PathTo(cfg, [x], x, x);
  }

  lemma ReachStep(cfg: Config, x: string, y: string, d: string)
    requires Reach(cfg, x, y) && Needs(cfg, y, d)
    ensures Reach(cfg, x, d)
  {
    var p :| PathTo(cfg, p, x, y);
    assert PathTo(cfg, p + [d], x, d);
  }

  lemma ReachFromDep(cfg: Config, x: string, d: string, y: string)
    requires Needs(cfg, x, d) && Reach(cfg, d, y)
    ensures Reach(cfg, x, y)
  {
    var p :| PathTo(cfg, p, d, y);
    assert PathTo(cfg, [x] + p, x, y);
  }

  // ---- what the walk keeps ---------------------------------------------------------------

  /** The node itself raises no objection: known, enabled, dependencies all declared. */
  predicate Good(cfg: Config, x: string) {
    && x in cfg.specs && x in cfg.enabled
    && (forall d :: d in Dependencies(cfg, x) ==> d in cfg.specs || d in cfg.roleManaged)
  }

  /** Marked but not yet appended: the names the walk is in the middle of. */
  ghost predicate Open(w: Walk, x: string) {
    x in w.seen && x !in w.scope
  }

  ghost predicate WalkOk(w: Walk) {
    NoDup(w.scope) && forall x :: x in w.scope ==> x in w.seen
  }

  /** Every dependency of the i-th name stands before it, or leads back to it. */
  ghost predicate OrderedAt(cfg: Config, scope: seq<string>, i: nat)
    requires i < |scope|
  {
    forall d :: Needs(cfg, scope[i], d) ==> d in scope[..i] || Reach(cfg, d, scope[i])
  }

  /** What a successful visit adds to the walk. */
  ghost predicate Grown(cfg: Config, w: Walk, w': Walk) {
    && WalkOk(w')
    && w.seen <= w'.seen
    && |w.scope| <= |w'.scope| && w'.scope[..|w.scope|] == w.scope
    && (forall x :: Open(w', x) <==> Open(w, x))
    && (forall x :: x in w'.seen && x !in w.seen ==> Good(cfg, x))
    && (forall x, d :: x in w'.seen && x !in w.seen && Needs(cfg, x, d) ==> d in w'.seen)
    && (forall i: nat :: |w.scope| <= i < |w'.scope| ==> OrderedAt(cfg, w'.scope, i))
  }

  /** The names that were added are all reached from `from`. */
  ghost predicate AddedReached(cfg: Config, w: Walk, w': Walk, from: string) {
    forall x :: x in w'.seen && x !in w.seen ==> Reach(cfg, from, x)
  }

  ghost predicate OpenReach(cfg: Config, w: Walk, name: string) {
    forall g :: Open(w, g) ==> Reach(cfg, g, name)
  }

  lemma GrownReflexive(cfg: Config, w: Walk)
    requires WalkOk(w)
    ensures Grown(cfg, w, w)
  {
  }

  lemma GrownTransitive(cfg: Config, a: Walk, b: Walk, c: Walk)
    requires Grown(cfg, a, b) && Grown(cfg, b, c)
    ensures Grown(cfg, a, c)
  {
    assert c.scope[..|a.scope|] == a.scope by {
      assert c.scope[..|b.scope|][..|a.scope|] == c.scope[..|a.scope|];
    }
    forall i: nat | |a.scope| <= i < |c.scope|
      ensures OrderedAt(cfg, c.scope, i)
    {
      if i < |b.scope| {
        assert OrderedAt(cfg, b.scope, i);
        assert c.scope[..|b.scope|][i] == c.scope[i];
        assert c.scope[..|b.scope|][..i] == c.scope[..i];
      }
    }
  }

  /** Appending the visited name closes it. */
  lemma CloseName(cfg: Config, w: Walk, name: string, w1: Walk)
    requires WalkOk(w) && name !in w.seen && Good(cfg, name) && OpenReach(cfg, w, name)
    requires Grown(cfg, w.(seen := w.seen + {name}), w1)
    requires forall d :: Needs(cfg, name, d) ==> d in w1.seen
    ensures Grown(cfg, w, w1.(scope := w1.scope + [name]))
  {
    var marked := w.(seen := w.seen + {name});
    var w2 := w1.(scope := w1.scope + [name]);
    assert Open(marked, name);
    assert name !in w1.scope;
    assert w2.scope[..|w.scope|] == w1.scope[..|w.scope|];
    forall i: nat | |w.scope| <= i < |w2.scope|
      ensures OrderedAt(cfg, w2.scope, i)
    {
      if i < |w1.scope| {
        assert OrderedAt(cfg, w1.scope, i);
        assert w2.scope[..i] == w1.scope[..i];
      } else {
        LastIsOrdered(cfg, w, name, w1);
        assert w2.scope[..i] == w1.scope;
      }
    }
    OpenAfterClose(w, name, w1);
  }

  lemma LastIsOrdered(cfg: Config, w: Walk, name: string, w1: Walk)
    requires OpenReach(cfg, w, name) && Grown(cfg, w.(seen := w.seen + {name}), w1)
    requires forall d :: Needs(cfg, name, d) ==> d in w1.seen
    ensures forall d :: Needs(cfg, name, d) ==> d in w1.scope || Reach(cfg, d, name)
  {
    ReachSelf(cfg, name);
    forall d | Needs(cfg, name, d)
      ensures d in w1.scope || Reach(cfg, d, name)
    {
      if d !in w1.scope {
        assert Open(w1, d);
        assert d == name || Open(w, d);
      }
    }
  }

  lemma OpenAfterClose(w: Walk, name: string, w1: Walk)
    requires WalkOk(w) && name !in w.seen
    requires forall x :: Open(w1, x) <==> Open(w.(seen := w.seen + {name}), x)
    ensures forall x :: Open(w1.(scope := w1.scope + [name]), x) <==> Open(w, x)
  {
    forall x
      ensures Open(w1.(scope := w1.scope + [name]), x) <==> Open(w, x)
    {
      assert Open(w1, x) <==> Open(w.(seen := w.seen + {name}), x);
      assert x in w1.scope + [name] <==> x in w1.scope || x == name;
    }
  }

  // ---- the walk itself -------------------------------------------------------------------

  ghost predicate Blamed(cfg: Config, from: string) {
    exists x :: Reach(cfg, from, x) && !Good(cfg, x)
  }

  lemma {:induction false} AddGrows(cfg: Config, name: string, w: Walk)
    requires WalkOk(w) && OpenReach(cfg, w, name)
    ensures Add(cfg, name, w).Ok? ==>
      var w' := Add(cfg, name, w).value; Grown(cfg, w, w') && AddedReached(cfg, w, w', name) && name in w'.seen
    ensures Add(cfg, name, w).Err? ==> Blamed(cfg, name)
    decreases Remaining(cfg, w.seen), 0, 0, 0
  {
    ReachSelf(cfg, name);
    if name in w.seen {
      GrownReflexive(cfg, w);
    } else if name in cfg.specs && name in cfg.enabled {
      var marked := w.(seen := w.seen + {name});
      FewerRemain(cfg, w.seen, name);
      OpenedReaches(cfg, w, name);
      AddDepsGrows(cfg, name, Dependencies(cfg, name), marked);
      var r := AddDeps(cfg, Dependencies(cfg, name), marked);
      if r.Ok? { CloseName(cfg, w, name, r.value); }
    }
  }

  lemma OpenedReaches(cfg: Config, w: Walk, name: string)
    requires OpenReach(cfg, w, name)
    ensures OpenReach(cfg, w.(seen := w.seen + {name}), name)
  {
    ReachSelf(cfg, name);
  }

  lemma {:induction false} AddDepsGrows(cfg: Config, name: string, deps: seq<string>, w: Walk)
    requires WalkOk(w) && OpenReach(cfg, w, name)
    requires forall d :: d in deps ==> d in Dependencies(cfg, name)
    ensures AddDeps(cfg, deps, w).Ok? ==>
      var w' := AddDeps(cfg, deps, w).value;
      && Grown(cfg, w, w') && AddedReached(cfg, w, w', name)
      && (forall d :: d in deps && d in cfg.specs ==> d in w'.seen)
      && (forall d :: d in deps ==> d in cfg.specs || d in cfg.roleManaged)
    ensures AddDeps(cfg, deps, w).Err? ==> Blamed(cfg, name)
    decreases Remaining(cfg, w.seen), 1, |deps|, 0
  {
    if deps == [] {
      GrownReflexive(cfg, w);
    } else {
      var d, rest := deps[0], deps[1..];
      assert deps == [d] + rest;
      ReachSelf(cfg, name);
      if d !in cfg.specs {
        if d in cfg.roleManaged { AddDepsGrows(cfg, name, rest, w); }
      } else {
        assert Needs(cfg, name, d);
        ReachStep(cfg, name, name, d);
        if d in cfg.enabled { DepGrows(cfg, name, d, rest, w); }
      }
    }
  }

  lemma {:induction false} DepGrows(cfg: Config, name: string, d: string, rest: seq<string>, w: Walk)
    requires WalkOk(w) && OpenReach(cfg, w, name) && Needs(cfg, name, d)
    requires forall e :: e in rest ==> e in Dependencies(cfg, name)
    ensures Add(cfg, d, w).Err? ==> Blamed(cfg, name)
    ensures Add(cfg, d, w).Ok? && AddDeps(cfg, rest, Add(cfg, d, w).value).Err? ==> Blamed(cfg, name)
    ensures Add(cfg, d, w).Ok? && AddDeps(cfg, rest, Add(cfg, d, w).value).Ok? ==>
      var w' := AddDeps(cfg, rest, Add(cfg, d, w).value).value;
      && Grown(cfg, w, w') && AddedReached(cfg, w, w', name) && d in w'.seen
      && (forall e :: e in rest && e in cfg.specs ==> e in w'.seen)
      && (forall e :: e in rest ==> e in cfg.specs || e in cfg.roleManaged)
    decreases Remaining(cfg, w.seen), 1, |rest|, 1
  {
    DepOpenReach(cfg, w, name, d);
    AddGrows(cfg, d, w);
    if Add(cfg, d, w).Err? {
      BlameUp(cfg, name, d);
    } else {
      var w1 := Add(cfg, d, w).value;
      NoMoreRemain(cfg, w.seen, w1.seen);
      AddDepsGrows(cfg, name, rest, w1);
      if AddDeps(cfg, rest, w1).Ok? {
        GrownTransitive(cfg, w, w1, AddDeps(cfg, rest, w1).value);
        ReachedUp(cfg, name, d, w, w1);
      }
    }
  }

  lemma DepOpenReach(cfg: Config, w: Walk, name: string, d: string)
    requires OpenReach(cfg, w, name) && Needs(cfg, name, d)
    ensures OpenReach(cfg, w, d)
  {
    forall g | Open(w, g)
      ensures Reach(cfg, g, d)
    {
      ReachStep(cfg, g, name, d);
    }
  }

  lemma BlameUp(cfg: Config, name: string, d: string)
    requires Needs(cfg, name, d) && Blamed(cfg, d)
    ensures Blamed(cfg, name)
  {
    var x :| Reach(cfg, d, x) && !Good(cfg, x);
    ReachFromDep(cfg, name, d, x);
  }

  lemma ReachedUp(cfg: Config, name: string, d: string, w: Walk, w1: Walk)
    requires Needs(cfg, name, d) && AddedReached(cfg, w, w1, d)
    ensures AddedReached(cfg, w, w1, name)
  {
    forall x | x in w1.seen && x !in w.seen
      ensures Reach(cfg, name, x)
    {
      ReachFromDep(cfg, name, d, x);
    }
  }

  // ---- the requested names ----------------------------------------------------------------

  ghost predicate BlamedFrom(cfg: Config, roots: seq<string>) {
    exists y :: ReachedFrom(cfg, roots, y) && !Good(cfg, y)
  }

  /** Between two requested names nothing is half visited. */
  ghost predicate Settled(w: Walk) {
    WalkOk(w) && forall x :: x in w.seen ==> x in w.scope
  }

  lemma {:induction false} AddAllGrows(cfg: Config, names: seq<string>, w: Walk)
    requires Settled(w)
    ensures AddAll(cfg, names, w).Ok? ==>
      var w' := AddAll(cfg, names, w).value;
      && Grown(cfg, w, w') && Settled(w') && (forall x :: x in names ==> x in w'.seen)
      && (forall x :: x in w'.seen && x !in w.seen ==> ReachedFrom(cfg, names, x))
    ensures AddAll(cfg, names, w).Err? ==> BlamedFrom(cfg, names)
  {
    if names == [] {
      GrownReflexive(cfg, w);
    } else {
      var name, rest := names[0], names[1..];
      assert names == [name] + rest;
      assert OpenReach(cfg, w, name);
      AddGrows(cfg, name, w);
      if Add(cfg, name, w).Err? {
        var x :| Reach(cfg, name, x) && !Good(cfg, x);
        assert ReachedFrom(cfg, names, x);
      } else {
        var w1 := Add(cfg, name, w).value;
        StaysSettled(cfg, w, w1);
        AddAllGrows(cfg, rest, w1);
        RestReaches(cfg, name, rest);
        if AddAll(cfg, rest, w1).Ok? { GrownTransitive(cfg, w, w1, AddAll(cfg, rest, w1).value); }
      }
    }
  }

  lemma StaysSettled(cfg: Config, w: Walk, w1: Walk)
    requires Settled(w) && Grown(cfg, w, w1)
    ensures Settled(w1)
  {
    forall x | x in w1.seen
      ensures x in w1.scope
    {
      assert Open(w1, x) <==> Open(w, x);
    }
  }

  lemma RestReaches(cfg: Config, name: string, rest: seq<string>)
    ensures forall x :: ReachedFrom(cfg, rest, x) ==> ReachedFrom(cfg, [name] + rest, x)
    ensures forall x :: Reach(cfg, name, x) ==> ReachedFrom(cfg, [name] + rest, x)
  {
    assert name in [name] + rest;
    forall x | ReachedFrom(cfg, rest, x)
      ensures ReachedFrom(cfg, [name] + rest, x)
    {
      var r :| r in rest && Reach(cfg, r, x);
      assert r in [name] + rest;
    }
  }

  /** A set that holds x and is closed under dependencies holds all that x reaches. */
  lemma {:induction false} ClosedHolds(cfg: Config, s: set<string>, p: seq<string>)
    requires IsPath(cfg, p) && p[0] in s
    requires forall x, d :: x in s && Needs(cfg, x, d) ==> d in s
    ensures p[|p| - 1] in s
  {
    if |p| > 1 {
      assert Needs(cfg, p[0], p[0 + 1]);
      forall i: nat | i + 1 < |p[1..]|
        ensures Needs(cfg, p[1..][i], p[1..][i + 1])
      {
        assert Needs(cfg, p[i + 1], p[i + 1 + 1]);
      }
      ClosedHolds(cfg, s, p[1..]);
    }
  }

  lemma SeenHoldsReached(cfg: Config, names: seq<string>, w: Walk, y: string)
    requires Grown(cfg, Walk({}, []), w) && (forall x :: x in names ==> x in w.seen) && ReachedFrom(cfg, names, y)
    ensures y in w.seen
  {
    var x :| x in names && Reach(cfg, x, y);
    var p :| PathTo(cfg, p, x, y);
    ClosedHolds(cfg, w.seen, p);
  }

  // ---- the theorem about componentsScope ---------------------------------------------------

  ghost predicate Admissible(cfg: Config, y: string) {
    Good(cfg, y) && StorageFeasible(cfg, y)
  }

  /** The closure of `names` as a list: exactly what they reach, each once, dependencies
      first unless they lead back. */
  ghost predicate IsClosureOf(cfg: Config, scope: seq<string>, names: seq<string>) {
    && NoDup(scope)
    && (forall y :: y in scope <==> ReachedFrom(cfg, names, y))
    && (forall i: nat :: i < |scope| ==> OrderedAt(cfg, scope, i))
  }

  lemma WalkTheorem(cfg: Config, names: seq<string>)
    ensures AddAll(cfg, names, Walk({}, [])).Ok? ==>
      var w := AddAll(cfg, names, Walk({}, [])).value;
      IsClosureOf(cfg, w.scope, names) && forall y :: y in w.scope ==> Good(cfg, y)
    ensures AddAll(cfg, names, Walk({}, [])).Err? ==> BlamedFrom(cfg, names)
  {
    AddAllGrows(cfg, names, Walk({}, []));
    if AddAll(cfg, names, Walk({}, [])).Ok? {
      var w := AddAll(cfg, names, Walk({}, [])).value;
      forall y
        ensures y in w.scope <==> ReachedFrom(cfg, names, y)
      {
        if ReachedFrom(cfg, names, y) { SeenHoldsReached(cfg, names, w, y); }
      }
    }
  }

  /** For any finite table the walk ends, and it succeeds exactly when something was asked
      for and everything reached is known, enabled, storage-feasible and has only declared
      dependencies. It then returns exactly what is reached, each name once, with every
      dependency before its dependent unless the two lie on a cycle. */
  lemma ScopeTheorem(cfg: Config, only: seq<string>)
    ensures Scope(cfg, only).Ok? <==>
      TrimAll(only) != [] && forall y :: ReachedFrom(cfg, TrimAll(only), y) ==> Admissible(cfg, y)
    ensures Scope(cfg, only).Ok? ==> IsClosureOf(cfg, Scope(cfg, only).value, TrimAll(only))
  {
    var names := TrimAll(only);
    WalkTheorem(cfg, names);
    var r := AddAll(cfg, names, Walk({}, []));
    if r.Ok? {
      assert forall y :: y in r.value.scope <==> ReachedFrom(cfg, names, y);
    } else {
      var y :| ReachedFrom(cfg, names, y) && !Good(cfg, y);
    }
  }

  /** In an acyclic table dependencies always come first. */
  lemma AcyclicOrder(cfg: Config, only: seq<string>, i: nat, d: string)
    requires Acyclic(cfg) && Scope(cfg, only).Ok? && i < |Scope(cfg, only).value| && Needs(cfg, Scope(cfg, only).value[i], d)
    ensures d in Scope(cfg, only).value[..i]
  {
    ScopeTheorem(cfg, only);
    assert OrderedAt(cfg, Scope(cfg, only).value, i);
  }

  // ---- refusals -----------------------------------------------------------------------------

  /** What is wrong with a name for the walk to end with this error. */
  ghost predicate Culprit(cfg: Config, x: string, e: ScopeError) {
    match e
    case UnknownComponent => x !in cfg.specs && x !in cfg.deferred
    case DeferredComponent => x !in cfg.specs && x in cfg.deferred
    case NotEnabled => x in cfg.specs && x !in cfg.enabled
    case DependencyNotEnabled => x in cfg.specs && x !in cfg.enabled
    case UndeclaredDependency => x in cfg.specs && exists d :: d in cfg.specs[x].deps && d !in cfg.specs && d !in cfg.roleManaged
    case NoStorageClass => x in cfg.specs && cfg.specs[x].needsStorage && cfg.storageClass == ""
    case EmptyScope => false
  }

  ghost predicate Accused(cfg: Config, from: string, e: ScopeError) {
    exists x :: Reach(cfg, from, x) && Culprit(cfg, x, e)
  }

  lemma AccusedUp(cfg: Config, name: string, d: string, e: ScopeError)
    requires Needs(cfg, name, d) && Accused(cfg, d, e)
    ensures Accused(cfg, name, e)
  {
    var x :| Reach(cfg, d, x) && Culprit(cfg, x, e);
    ReachFromDep(cfg, name, d, x);
  }

  lemma {:induction false} AddAccuses(cfg: Config, name: string, w: Walk)
    requires "rustfs" in cfg.specs || "rustfs" in cfg.roleManaged
    ensures Add(cfg, name, w).Err? ==> Accused(cfg, name, Add(cfg, name, w).error)
    decreases Remaining(cfg, w.seen), 0, 0
  {
    ReachSelf(cfg, name);
    if name !in w.seen && name in cfg.specs && name in cfg.enabled {
      FewerRemain(cfg, w.seen, name);
      AddDepsAccuses(cfg, name, Dependencies(cfg, name), w.(seen := w.seen + {name}));
    }
  }

  lemma {:induction false} AddDepsAccuses(cfg: Config, name: string, deps: seq<string>, w: Walk)
    requires "rustfs" in cfg.specs || "rustfs" in cfg.roleManaged
    requires name in cfg.specs && forall d :: d in deps ==> d in Dependencies(cfg, name)
    ensures AddDeps(cfg, deps, w).Err? ==> Accused(cfg, name, AddDeps(cfg, deps, w).error)
    decreases Remaining(cfg, w.seen), 1, |deps|
  {
    if deps != [] {
      var d, rest := deps[0], deps[1..];
      assert deps == [d] + rest;
      ReachSelf(cfg, name);
      if d in cfg.specs {
        assert Needs(cfg, name, d);
        ReachStep(cfg, name, name, d);
        if d in cfg.enabled {
          AddAccuses(cfg, d, w);
          if Add(cfg, d, w).Err? {
            AccusedUp(cfg, name, d, Add(cfg, d, w).error);
          } else {
            NoMoreRemain(cfg, w.seen, Add(cfg, d, w).value.seen);
            AddDepsAccuses(cfg, name, rest, Add(cfg, d, w).value);
          }
        }
      } else if d in cfg.roleManaged {
        AddDepsAccuses(cfg, name, rest, w);
      }
    }
  }

  lemma {:induction false} AddAllAccuses(cfg: Config, names: seq<string>, w: Walk) returns (name: string)
    requires "rustfs" in cfg.specs || "rustfs" in cfg.roleManaged
    ensures AddAll(cfg, names, w).Err? ==> name in names && Accused(cfg, name, AddAll(cfg, names, w).error)
  {
    if names == [] {
      name := "";
    } else {
      AddAccuses(cfg, names[0], w);
      name := names[0];
      if Add(cfg, names[0], w).Ok? { name := AddAllAccuses(cfg, names[1..], Add(cfg, names[0], w).value); }
    }
  }

  /** Every refusal names its reason: nothing was asked for, or something reached from what was
      asked for is unknown, deferred, not enabled, without storage, or leans on something that
      is no component at all. */
  lemma RefusalsMean(cfg: Config, only: seq<string>)
    requires "rustfs" in cfg.specs || "rustfs" in cfg.roleManaged
    requires Scope(cfg, only).Err?
    ensures Scope(cfg, only) == Err(EmptyScope) <==> TrimAll(only) == []
    ensures Scope(cfg, only) != Err(EmptyScope) ==>
      exists x :: ReachedFrom(cfg, TrimAll(only), x) && Culprit(cfg, x, Scope(cfg, only).error)
  {
    var names := TrimAll(only);
    if names != [] {
      WalkTheorem(cfg, names);
      var name := AddAllAccuses(cfg, names, Walk({}, []));
      var r := AddAll(cfg, names, Walk({}, []));
      if r.Err? {
        var x :| Reach(cfg, name, x) && Culprit(cfg, x, r.error);
        assert ReachedFrom(cfg, names, x) && Culprit(cfg, x, Scope(cfg, only).error);
      } else {
        var x :| x in r.value.scope && !StorageFeasible(cfg, x);
        assert ReachedFrom(cfg, names, x) && Culprit(cfg, x, NoStorageClass);
      }
    }
  }

  /** The requested names are what the user wrote, without the blanks around them. */
  lemma {:induction false} TrimAllMeans(only: seq<string>, x: string)
    ensures x in TrimAll(only) <==> x != "" && exists i :: 0 <= i < |only| && Strings.Trim(only[i]) == x
  {
    if only != [] {
      TrimAllMeans(only[1..], x);
      if x in TrimAll(only[1..]) {
        var i :| 0 <= i < |only[1..]| && Strings.Trim(only[1..][i]) == x;
        assert Strings.Trim(only[i + 1]) == x;
      }
      if i :| 0 <= i < |only| && Strings.Trim(only[i]) == x && x != "" {
        if i > 0 { assert only[1..][i - 1] == only[i]; }
      }
    }
  }

  // ---- applying it to its own output ---------------------------------------------------------

  /** Every name of the list has its dependencies earlier in the list (or is its own). */
  ghost predicate DepsFirst(cfg: Config, l: seq<string>, n: nat)
    requires n <= |l|
  {
    forall i: nat, d :: i < n && Needs(cfg, l[i], d) ==> d in l[..i + 1]
  }

  ghost function Marks(l: seq<string>): set<string> {
    set x | x in l
  }

  /** Dependencies that are all seen add nothing. */
  lemma {:induction false} SeenDepsAddNothing(cfg: Config, deps: seq<string>, w: Walk)
    requires forall d :: d in deps ==> (d in cfg.specs && d in cfg.enabled && d in w.seen) || (d !in cfg.specs && d in cfg.roleManaged)
    ensures AddDeps(cfg, deps, w) == Ok(w)
  {
    if deps != [] {
      assert deps[0] in deps;
      SeenDepsAddNothing(cfg, deps[1..], w);
    }
  }

  lemma AddReady(cfg: Config, name: string, w: Walk)
    requires Good(cfg, name) && name !in w.seen
    requires forall d :: Needs(cfg, name, d) ==> d in cfg.enabled && d in w.seen + {name}
    ensures Add(cfg, name, w) == Ok(Walk(w.seen + {name}, w.scope + [name]))
  {
    forall d | d in Dependencies(cfg, name) && d in cfg.specs
      ensures d in cfg.enabled && d in w.seen + {name}
    {
      assert Needs(cfg, name, d);
    }
    SeenDepsAddNothing(cfg, Dependencies(cfg, name), w.(seen := w.seen + {name}));
  }

  /** Walking a good list with its dependencies first reproduces it. */
  lemma {:induction false} OrderedListWalks(cfg: Config, l: seq<string>, n: nat)
    requires NoDup(l) && n <= |l| && DepsFirst(cfg, l, |l|)
    requires forall x :: x in l ==> Good(cfg, x)
    ensures AddAll(cfg, l[n..], Walk(Marks(l[..n]), l[..n])) == Ok(Walk(Marks(l), l))
    decreases |l| - n
  {
    var w := Walk(Marks(l[..n]), l[..n]);
    if n == |l| {
      assert l[..n] == l;
    } else {
      var name := l[n];
      assert l[n..][0] == name && l[n..][1..] == l[n + 1..];
      forall d | Needs(cfg, name, d)
        ensures d in cfg.enabled && d in w.seen + {name}
      {
        assert d in l[..n + 1] && d in l && Good(cfg, d);
      }
      AddReady(cfg, name, w);
      assert w.seen + {name} == Marks(l[..n + 1]) && l[..n] + [name] == l[..n + 1];
      OrderedListWalks(cfg, l, n + 1);
    }
  }

  /** A name with an unvisited dependency is not the next one appended. */
  lemma UnreadyIsNotNext(cfg: Config, name: string, w: Walk, d: string)
    requires Settled(w) && name !in w.seen && Needs(cfg, name, d) && d !in w.seen && d != name && Add(cfg, name, w).Ok?
    ensures var w' := Add(cfg, name, w).value; |w'.scope| > |w.scope| && w'.scope[|w.scope|] != name
  {
    AddGrows(cfg, name, w);
    var w' := Add(cfg, name, w).value;
    StaysSettled(cfg, w, w');
    assert Needs(cfg, name, d) && d in w'.seen;
    assert d in w'.scope && d !in w.scope;
    assert w'.scope[|w'.scope| - 1] == name;
    assert forall j :: 0 <= j < |w.scope| ==> w.scope[j] == w'.scope[..|w.scope|][j] == w'.scope[j];
    var i: nat :| i < |w'.scope| && w'.scope[i] == d;
  }

  lemma {:induction false} AddAllExtends(cfg: Config, names: seq<string>, w: Walk)
    requires Settled(w) && AddAll(cfg, names, w).Ok?
    ensures |AddAll(cfg, names, w).value.scope| >= |w.scope| && AddAll(cfg, names, w).value.scope[..|w.scope|] == w.scope
  {
    AddAllGrows(cfg, names, w);
  }

  /** Conversely a list that the walk reproduces has its dependencies first. */
  lemma {:induction false} WalkedListIsOrdered(cfg: Config, l: seq<string>, n: nat)
    requires NoDup(l) && n <= |l| && DepsFirst(cfg, l, n)
    requires forall x :: x in l ==> Good(cfg, x)
    requires AddAll(cfg, l[n..], Walk(Marks(l[..n]), l[..n])) == Ok(Walk(Marks(l), l))
    ensures DepsFirst(cfg, l, |l|)
    decreases |l| - n
  {
    if n < |l| {
      var w, name := Walk(Marks(l[..n]), l[..n]), l[n];
      assert l[n..][0] == name && l[n..][1..] == l[n + 1..];
      var w1 := Add(cfg, name, w).value;
      NextWalked(cfg, l, n);
      assert DepsFirst(cfg, l, n + 1);
      forall d | Needs(cfg, name, d)
        ensures d in cfg.enabled && d in w.seen + {name}
      {
        assert d in l[..n + 1] && Good(cfg, d);
      }
      AddReady(cfg, name, w);
      assert w.seen + {name} == Marks(l[..n + 1]) && l[..n] + [name] == l[..n + 1];
      WalkedListIsOrdered(cfg, l, n + 1);
    }
  }

  lemma NextWalked(cfg: Config, l: seq<string>, n: nat)
    requires NoDup(l) && n < |l|
    requires AddAll(cfg, l[n..], Walk(Marks(l[..n]), l[..n])) == Ok(Walk(Marks(l), l))
    ensures forall d :: Needs(cfg, l[n], d) ==> d in l[..n + 1]
  {
    var w, name := Walk(Marks(l[..n]), l[..n]), l[n];
    assert l[n..][0] == name && l[n..][1..] == l[n + 1..];
    assert Settled(w);
    var w1 := Add(cfg, name, w).value;
    AddGrows(cfg, name, w);
    StaysSettled(cfg, w, w1);
    AddAllExtends(cfg, l[n + 1..], w1);
    assert |w1.scope| > n ==> w1.scope[n] == l[..|w1.scope|][n] == name;
    forall d | Needs(cfg, name, d)
      ensures d in l[..n + 1]
    {
      if d !in l[..n + 1] {
        UnreadyIsNotNext(cfg, name, w, d);
        assert false;
      }
    }
  }

  /** The names of the table are canonical: trimmed and not blank. */
  predicate TableOk(cfg: Config) {
    forall x :: x in cfg.specs ==> Strings.Trimmed(x)
  }

  lemma {:induction false} TrimAllSame(l: seq<string>)
    requires forall x :: x in l ==> Strings.Trimmed(x)
    ensures TrimAll(l) == l
  {
    if l != [] {
      assert l[0] in l;
      TrimAllSame(l[1..]);
    }
  }

  lemma FreshWalkIff(cfg: Config, l: seq<string>)
    requires NoDup(l) && forall x :: x in l ==> Good(cfg, x)
    ensures AddAll(cfg, l, Walk({}, [])) == Ok(Walk(Marks(l), l)) <==> DepsFirst(cfg, l, |l|)
  {
    assert l[0..] == l && l[..0] == [] && Marks(l[..0]) == {};
    if DepsFirst(cfg, l, |l|) { OrderedListWalks(cfg, l, 0); }
    if AddAll(cfg, l, Walk({}, [])) == Ok(Walk(Marks(l), l)) { WalkedListIsOrdered(cfg, l, 0); }
  }

  lemma WalkedScopeDecides(cfg: Config, names: seq<string>, w: Walk)
    requires AddAll(cfg, names, Walk({}, [])) == Ok(w)
    ensures w == Walk(Marks(w.scope), w.scope)
  {
    AddAllGrows(cfg, names, Walk({}, []));
    assert w.seen == Marks(w.scope);
  }

  /** Exactly when resolving a list reproduces it in the same order. */
  lemma ScopeReproducesIff(cfg: Config, l: seq<string>)
    requires TableOk(cfg) && l != [] && NoDup(l) && forall x :: x in l ==> Admissible(cfg, x)
    ensures Scope(cfg, l) == Ok(l) <==> DepsFirst(cfg, l, |l|)
  {
    TrimAllSame(l);
    FreshWalkIff(cfg, l);
    var r := AddAll(cfg, l, Walk({}, []));
    if r.Ok? { WalkedScopeDecides(cfg, l, r.value); }
  }

  /** In an acyclic table resolving is idempotent: a closure resolves to itself. */
  lemma ScopeIdempotent(cfg: Config, only: seq<string>)
    requires TableOk(cfg) && Acyclic(cfg) && Scope(cfg, only).Ok?
    ensures Scope(cfg, Scope(cfg, only).value) == Scope(cfg, only)
  {
    ScopeTheorem(cfg, only);
    var l := Scope(cfg, only).value;
    NonEmptyClosure(cfg, only);
    forall i: nat, d | i < |l| && Needs(cfg, l[i], d)
      ensures d in l[..i + 1]
    {
      AcyclicOrder(cfg, only, i, d);
      assert l[..i + 1] == l[..i] + [l[i]];
    }
    ScopeReproducesIff(cfg, l);
  }

  lemma NonEmptyClosure(cfg: Config, only: seq<string>)
    requires Scope(cfg, only).Ok?
    ensures Scope(cfg, only).value != []
  {
    ScopeTheorem(cfg, only);
    var x := TrimAll(only)[0];
    ReachSelf(cfg, x);
    assert ReachedFrom(cfg, TrimAll(only), x);
  }

  // ---- a cycle breaks both ----------------------------------------------------------------------

  const RING: Config := Config(
    map["a" := Spec("", "", "", "", "", "", false, ["b"]), "b" := Spec("", "", "", "", "", "", false, ["a"])],
    {"a", "b"}, {}, {}, false, "")

  /** Two components that need each other: the closure is resolved, but resolving it again
      turns it round. */
  lemma CycleIsNotIdempotent()
    ensures Scope(RING, ["a"]) == Ok(["b", "a"])
    ensures Scope(RING, ["b", "a"]) == Ok(["a", "b"])
  {
    RingWalks("a", "b");
    RingWalks("b", "a");
    TrimAllSame(["a"]);
    TrimAllSame(["b", "a"]);
    var w := Walk({"a", "b"}, ["a", "b"]);
    assert Add(RING, "a", w) == Ok(w);
    assert ["b", "a"][1..] == ["a"];
    assert AddAll(RING, ["a"], w) == Ok(w);
  }

  lemma RingWalks(x: string, y: string)
    requires (x == "a" && y == "b") || (x == "b" && y == "a")
    ensures Add(RING, x, Walk({}, [])) == Ok(Walk({"a", "b"}, [y, x]))
  {
    assert Dependencies(RING, x) == [y] && Dependencies(RING, y) == [x];
    var none, inner := Walk({}, []), Walk({x, y}, []);
    var outer := Walk({x}, []);
    assert {x} + {y} == {x, y} == {"a", "b"} && {} + {x} == {x};
    assert outer.(seen := outer.seen + {y}) == inner && none.(seen := none.seen + {x}) == outer;
    SeenDepsAddNothing(RING, [x], inner);
    assert x[0] != y[0] && y !in outer.seen && y in RING.specs && y in RING.enabled;
    assert AddDeps(RING, Dependencies(RING, y), inner) == Ok(inner);
    assert [] + [y] == [y];
    assert Add(RING, y, outer) == Ok(Walk({x, y}, [y]));
    assert [y][1..] == [];
    assert AddDeps(RING, [], Walk({x, y}, [y])) == Ok(Walk({x, y}, [y]));
    assert AddDeps(RING, [y], outer) == Ok(Walk({x, y}, [y]));
    assert [y] + [x] == [y, x];
  }
}
