/** The dependency closure of a components run: a depth-first walk over the component
    table, as a function that threads the `seen` marks and the `scope` built so far. */
module Closure {
  import Strings

  datatype Result<+T> = Ok(value: T) | Err(error: ScopeError)

  datatype ScopeError =
    | EmptyScope | UnknownComponent | DeferredComponent | NotEnabled
    | UndeclaredDependency | DependencyNotEnabled | NoStorageClass

  datatype Spec = Spec(ns: string, release: string, chart: string, chartVersion: string, kind: string, workload: string,
                       needsStorage: bool, deps: seq<string>)

  /** The component table together with what the site config says about it. */
  datatype Config = Config(
    specs: map<string, Spec>, enabled: set<string>, roleManaged: set<string>, deferred: set<string>,
    rustfs: bool, storageClass: string)

  datatype Walk = Walk(seen: set<string>, scope: seq<string>)

  /** Fixed prerequisites, plus the object store when milvus uses it. */
  function Dependencies(cfg: Config, name: string): seq<string> {
    (if name in cfg.specs then cfg.specs[name].deps else [])
    + if name == "milvus" && cfg.rustfs then ["rustfs"] else []
  }

  /** An edge of the graph: a dependency that is itself a component of the table. */
  predicate Needs(cfg: Config, x: string, d: string) {
    d in Dependencies(cfg, x) && d in cfg.specs
  }

  // ---- the walk --------------------------------------------------------------------

  function Remaining(cfg: Config, seen: set<string>): nat {
    |cfg.specs.Keys - seen|
  }

  function Add(cfg: Config, name: string, w: Walk): (r: Result<Walk>)
    decreases Remaining(cfg, w.seen), 0, 0
    ensures r.Ok? ==> w.seen <= r.value.seen
  {
    if name in w.seen then Ok(w)
    else if name !in cfg.specs then Err(if name in cfg.deferred then DeferredComponent else UnknownComponent)
    else if name !in cfg.enabled then Err(NotEnabled)
    else
      assert cfg.specs.Keys - (w.seen + {name}) < cfg.specs.Keys - w.seen by {
        assert name in cfg.specs.Keys - w.seen;
      }
      FewerRemain(cfg, w.seen, name);
      match AddDeps(cfg, Dependencies(cfg, name), w.(seen := w.seen + {name}))
      case Err(e) => Err(e)
      case Ok(w') => Ok(w'.(scope := w'.scope + [name]))
  }

  function AddDeps(cfg: Config, deps: seq<string>, w: Walk): (r: Result<Walk>)
    decreases Remaining(cfg, w.seen), 1, |deps|
    ensures r.Ok? ==> w.seen <= r.value.seen
  {
    if deps == [] then Ok(w)
    else if deps[0] !in cfg.specs then
      if deps[0] !in cfg.roleManaged then Err(UndeclaredDependency) else AddDeps(cfg, deps[1..], w)
    else if deps[0] !in cfg.enabled then Err(DependencyNotEnabled)
    else
      match Add(cfg, deps[0], w)
      case Err(e) => Err(e)
      case Ok(w') => NoMoreRemain(cfg, w.seen, w'.seen); AddDeps(cfg, deps[1..], w')
  }

  function AddAll(cfg: Config, names: seq<string>, w: Walk): Result<Walk> {
    if names == [] then Ok(w)
    else
      match Add(cfg, names[0], w)
      case Err(e) => Err(e)
      case Ok(w') => AddAll(cfg, names[1..], w')
  }

  lemma FewerRemain(cfg: Config, seen: set<string>, name: string)
    requires name in cfg.specs && name !in seen
    ensures Remaining(cfg, seen + {name}) < Remaining(cfg, seen)
  {
    assert cfg.specs.Keys - seen == (cfg.specs.Keys - (seen + {name})) + {name};
  }

  lemma NoMoreRemain(cfg: Config, seen: set<string>, seen': set<string>)
    requires seen <= seen'
    ensures Remaining(cfg, seen') <= Remaining(cfg, seen)
  {
    Smaller(cfg.specs.Keys - seen', cfg.specs.Keys - seen);
  }

  lemma Smaller(a: set<string>, b: set<string>)
    requires a <= b
    ensures |a| <= |b|
  {
    assert b == a + (b - a);
  }

  /** Names as the user wrote them: trimmed, blanks dropped. */
  function TrimAll(only: seq<string>): seq<string> {
    if only == [] then []
    else (if Strings.Trim(only[0]) == "" then [] else [Strings.Trim(only[0])]) + TrimAll(only[1..])
  }

  predicate StorageFeasible(cfg: Config, name: string) {
    name in cfg.specs && cfg.specs[name].needsStorage ==> cfg.storageClass != ""
  }

  /** The scope of an `--only` list: the list must name something, and every component it
      reaches must be admissible. */
  function Scope(cfg: Config, only: seq<string>): Result<seq<string>> {
    var names := TrimAll(only);
    if names == [] then Err(EmptyScope)
    else
      match AddAll(cfg, names, Walk({}, []))
      case Err(e) => Err(e)
      case Ok(w) => if forall x | x in w.scope :: StorageFeasible(cfg, x) then Ok(w.scope) else Err(NoStorageClass)
  }
}
