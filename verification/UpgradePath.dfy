/** Splitting a multi-minor upgrade into single-minor steps. */
module UpgradePath {
  import opened Wrappers
  import opened Minors
  import opened ConfigTree

  /** Minor to recommended patch version. */
  type Patches = map<int, string>

  // ---- the steps -----------------------------------------------------------------------------

  /** One recommended patch per minor in between, in order, then the requested version. */
  predicate IsStepList(current: int, target: int, requested: string, path: Patches, steps: seq<string>) {
    && current < target && |steps| == target - current && steps[|steps| - 1] == requested
    && (forall i :: 0 <= i < |steps| - 1 ==> current + 1 + i in path && steps[i] == path[current + 1 + i])
  }

  /** The ordered target versions from one minor to another; None for a downgrade or a gap. */
  method ComputeUpgradeSteps(current: int, target: int, requested: string, path: Patches) returns (steps: Option<seq<string>>)
    ensures steps.None? <==> target < current || exists m :: current < m < target && m !in path
    ensures steps.Some? && target == current ==> steps.value == [requested]
    ensures steps.Some? && target > current ==> IsStepList(current, target, requested, path, steps.value)
  {
    if target < current { return None; }
    if target == current { return Some([requested]); }
    var out: seq<string> := [];
    var m := current + 1;
    while m < target
      invariant current < m <= target && |out| == m - current - 1
      invariant forall k :: current < k < m ==> k in path
      invariant forall i :: 0 <= i < |out| ==> current + 1 + i in path && out[i] == path[current + 1 + i]
    {
      if m !in path { return None; }
      out := out + [path[m]];
      m := m + 1;
    }
    steps := Some(out + [requested]);
  }

  /** Each entry is a version of its own minor. */
  predicate OwnMinor(path: Patches) {
    forall m :: m in path ==> MinorOfVersion(path[m]) == Some(m)
  }

  /** Every step raises the minor by exactly one, from current + 1 to the target. */
  lemma StepsRiseByOne(current: int, target: int, requested: string, path: Patches, steps: seq<string>, i: nat)
    requires IsStepList(current, target, requested, path, steps) && OwnMinor(path) && MinorOfVersion(requested) == Some(target)
    requires i < |steps|
    ensures MinorOfVersion(steps[i]) == Some(current + 1 + i)
  {
    hide MinorOfVersion;
    if i < |steps| - 1 { assert steps[i] == path[current + 1 + i]; }
  }

  // ---- the configured path ----------------------------------------------------------------------

  predicate InRange(m: int) {
    MIN_INT <= m <= MAX_INT
  }

  /** User entries stay; every default minor the user did not set is filled in; nothing else. */
  ghost predicate IsMerged(cur: map<string, string>, def: Patches, merged: map<string, string>) {
    && (forall k :: k in cur ==> k in merged && merged[k] == cur[k])
    && (forall m :: m in def ==> Key(m) in merged && (Key(m) !in cur ==> merged[Key(m)] == def[m]))
    && (forall k :: k in merged ==> k in cur || exists m :: m in def && Key(m) == k)
  }

  lemma HasMember(s: set<int>)
    requires s != {}
    ensures exists x :: x in s
  {
    if forall x :: x !in s { assert false; }
  }

  /** Seeds the defaults; the order the defaults are visited in does not matter. */
  method MergeDefaults(cur: map<string, string>, def: Patches) returns (merged: map<string, string>)
    requires forall m :: m in def ==> InRange(m)
    ensures IsMerged(cur, def, merged)
  {
    hide Key;
    merged := cur;
    var rest := def.Keys;
    while rest != {}
      invariant rest <= def.Keys
      invariant forall k :: k in cur ==> k in merged && merged[k] == cur[k]
      invariant forall m :: m in def && m !in rest ==> Key(m) in merged && (Key(m) !in cur ==> merged[Key(m)] == def[m])
      invariant forall k :: k in merged ==> k in cur || exists m :: m in def && m !in rest && Key(m) == k
    {
      HasMember(rest);
      var minor :| minor in rest;
      forall m | m in def && Key(m) == Key(minor)
        ensures m == minor
      {
        KeyInjective(m, minor);
      }
      if Key(minor) !in merged { merged := merged[Key(minor) := def[minor]]; }
      rest := rest - {minor};
    }
  }

  lemma MergedUnique(cur: map<string, string>, def: Patches, a: map<string, string>, b: map<string, string>)
    requires IsMerged(cur, def, a) && IsMerged(cur, def, b)
    ensures a == b
  {
    forall k
      ensures k in a <==> k in b
      ensures k in a ==> a[k] == b[k]
    {
      if k in a && k !in cur { var m :| m in def && Key(m) == k; }
      if k in b && k !in cur { var m :| m in def && Key(m) == k; }
    }
  }

  /** Merging the defaults again changes nothing. */
  lemma MergeIdempotent(cur: map<string, string>, def: Patches, merged: map<string, string>, again: map<string, string>)
    requires IsMerged(cur, def, merged) && IsMerged(merged, def, again)
    ensures again == merged
  {
    assert IsMerged(merged, def, merged);
    MergedUnique(merged, def, again, merged);
  }

  /** A path the reader may produce: each minor some key names, with the patch of such a key. */
  ghost predicate IsEffective(m: map<string, string>, path: Patches) {
    && (forall k :: k in m ==> ParseMinor(k).Some? && ParseMinor(k).value in path)
    && (forall n :: n in path ==> NamedWith(m, n, path[n]))
  }

  ghost predicate NamedWith(m: map<string, string>, minor: int, patch: string) {
    exists k :: k in m && ParseMinor(k) == Some(minor) && m[k] == patch
  }

  /** Reads the live path. Keys are visited in no particular order, as a map is. */
  method EffectivePath(m: map<string, string>) returns (path: Option<Patches>)
    ensures path.Some? <==> forall k :: k in m ==> ParseMinor(k).Some?
    ensures path.Some? ==> IsEffective(m, path.value)
  {
    hide ParseMinor;
    var out: Patches := map[];
    var rest := m.Keys;
    while rest != {}
      invariant rest <= m.Keys
      invariant forall k :: k in m && k !in rest ==> ParseMinor(k).Some? && ParseMinor(k).value in out
      invariant forall n :: n in out ==> NamedWith(m, n, out[n])
    {
      var key :| key in rest;
      match ParseMinor(key)
      case None => return None;
      case Some(minor) =>
        out := out[minor := m[key]];
        assert NamedWith(m, minor, m[key]);
        rest := rest - {key};
    }
    path := Some(out);
  }

  /** No two keys name the same minor with different patches. */
  ghost predicate Unambiguous(m: map<string, string>) {
    forall k, l :: k in m && l in m && ParseMinor(k) == ParseMinor(l) ==> m[k] == m[l]
  }

  /** The reader's result is determined exactly when no two keys disagree about a minor;
      otherwise it depends on the order the map happens to be visited in. */
  lemma EffectiveDeterminedIff(m: map<string, string>)
    requires forall k :: k in m ==> ParseMinor(k).Some?
    ensures Unambiguous(m) <==> forall a, b :: IsEffective(m, a) && IsEffective(m, b) ==> a == b
  {
    if Unambiguous(m) {
      forall a, b | IsEffective(m, a) && IsEffective(m, b)
        ensures a == b
      {
        SameEffective(m, a, b);
      }
    } else {
      var k, l :| k in m && l in m && ParseMinor(k) == ParseMinor(l) && m[k] != m[l];
      TwoReadings(m, k, l);
    }
  }

  lemma SameEffective(m: map<string, string>, a: Patches, b: Patches)
    requires Unambiguous(m) && IsEffective(m, a) && IsEffective(m, b)
    ensures a == b
  {
    hide ParseMinor;
    forall n
      ensures n in a <==> n in b
      ensures n in a ==> a[n] == b[n]
    {
      if n in a {
        var k :| k in m && ParseMinor(k) == Some(n) && m[k] == a[n];
        assert n in b;
        var l :| l in m && ParseMinor(l) == Some(n) && m[l] == b[n];
      }
      if n in b {
        var l :| l in m && ParseMinor(l) == Some(n) && m[l] == b[n];
      }
    }
  }

  ghost function Pick(m: map<string, string>, n: int): string
    requires exists k :: k in m && ParseMinor(k) == Some(n)
  {
    var k :| k in m && ParseMinor(k) == Some(n);
    m[k]
  }

  lemma TwoReadings(m: map<string, string>, k: string, l: string)
    requires forall x :: x in m ==> ParseMinor(x).Some?
    requires k in m && l in m && ParseMinor(k) == ParseMinor(l) && m[k] != m[l]
    ensures exists a, b :: IsEffective(m, a) && IsEffective(m, b) && a != b
  {
    hide ParseMinor;
    var minors := set x | x in m :: ParseMinor(x).value;
    var n := ParseMinor(k).value;
    var all: Patches := map i | i in minors :: Pick(m, i);
    forall i | i in all
      ensures NamedWith(m, i, all[i])
    {
    }
    var a, b := all[n := m[k]], all[n := m[l]];
    assert NamedWith(m, n, m[k]) && NamedWith(m, n, m[l]);
    assert IsEffective(m, a) && IsEffective(m, b);
    assert a[n] != b[n];
  }

  /** With canonical user keys, merge then read gives the user's patch where there is one and
      the default elsewhere, in whatever order maps are visited. */
  lemma MergeThenRead(cur: map<string, string>, def: Patches, merged: map<string, string>, path: Patches, n: int)
    requires forall m :: m in def ==> InRange(m)
    requires forall k :: k in cur ==> exists m :: InRange(m) && Key(m) == k
    requires IsMerged(cur, def, merged) && IsEffective(merged, path) && InRange(n)
    ensures n in path <==> Key(n) in cur || n in def
    ensures n in path ==> path[n] == if Key(n) in cur then cur[Key(n)] else def[n]
  {
    KeyRoundTrip(n);
    hide ParseMinor;
    hide Key;
    if n in path {
      var k :| k in merged && ParseMinor(k) == Some(n) && merged[k] == path[n];
      CanonicalKey(cur, def, merged, k, n);
    }
    if Key(n) in cur || n in def {
      assert Key(n) in merged;
    }
  }

  lemma CanonicalKey(cur: map<string, string>, def: Patches, merged: map<string, string>, k: string, n: int)
    requires forall m :: m in def ==> InRange(m)
    requires forall k :: k in cur ==> exists m :: InRange(m) && Key(m) == k
    requires IsMerged(cur, def, merged) && k in merged && ParseMinor(k) == Some(n)
    ensures k == Key(n) && (k !in cur ==> n in def)
  {
    if k in cur {
      var m :| InRange(m) && Key(m) == k;
      KeyRoundTrip(m);
    } else {
      var m :| m in def && Key(m) == k;
      KeyRoundTrip(m);
    }
  }

  // ---- the path inside the configuration ------------------------------------------------------

  const PATH_FIELD: Path := ["cluster_require", "kube_upgrade_path"]

  /** The configured path: nothing there is an empty path; None when something there, or on
      the way, is not a mapping of strings. */
  function ReadPath(cfg: Node): Option<map<string, string>> {
    match NestedField(cfg, PATH_FIELD)
    case NotAMap => None
    case Missing => Some(map[])
    case Found(v) =>
      if v.Map? && (forall k :: k in v.m ==> v.m[k].Str?) then Some(map k | k in v.m :: v.m[k].s) else None
  }

  /** The path reads as what is there, if that is a mapping of strings, and as empty where nothing
      is there: neither the field nor, unless it is null, a parent that is no mapping. */
  lemma ReadPathMeans(cfg: Node)
    requires cfg.Map?
    ensures Lookup(cfg, ["cluster_require", "kube_upgrade_path"]).Some? ==>
      var v := Lookup(cfg, ["cluster_require", "kube_upgrade_path"]).value;
      && (ReadPath(cfg).Some? <==> v.Map? && forall k :: k in v.m ==> v.m[k].Str?)
      && (ReadPath(cfg).Some? ==> AsNode(ReadPath(cfg).value) == v)
    ensures Lookup(cfg, ["cluster_require", "kube_upgrade_path"]).None? ==>
      && (ReadPath(cfg).Some? ==> ReadPath(cfg).value == map[])
      && (ReadPath(cfg).Some? <==> "cluster_require" !in cfg.m || cfg.m["cluster_require"].Null? || cfg.m["cluster_require"].Map?)
  {
    FoundIsLookup(cfg, PATH_FIELD);
    var rest := PATH_FIELD[1..];
    assert rest == ["kube_upgrade_path"] && rest[1..] == [] && PATH_FIELD[0] == "cluster_require";
    if "cluster_require" in cfg.m {
      var parent := cfg.m["cluster_require"];
      assert NestedField(cfg, PATH_FIELD) == NestedField(parent, rest);
      if parent.Map? && rest[0] in parent.m { assert NestedField(parent, rest) == NestedField(parent.m[rest[0]], []); }
    }
    if ReadPath(cfg).Some? && Lookup(cfg, PATH_FIELD).Some? {
      assert AsNode(ReadPath(cfg).value).m == Lookup(cfg, PATH_FIELD).value.m;
    }
  }

  function AsNode(m: map<string, string>): Node {
    Map(map k | k in m :: Str(m[k]))
  }

  /** The configuration after seeding the defaults into it. */
  ghost predicate Seeded(root: Node, def: Patches, root': Node) {
    && root.Map? && ReadPath(root).Some?
    && exists merged :: IsMerged(ReadPath(root).value, def, merged) && SetField(root, PATH_FIELD, AsNode(merged)) == Some(root')
  }

  /** The live configuration, changed in place. */
  class Config {
    var root: Node

    constructor (root: Node)
      ensures this.root == root
    {
      this.root := root;
    }

    /** Seeds the defaults. It fails, changing nothing, when the path cannot be read or when
        a null stands where its parent mapping should be. */
    method MergeKubeUpgradePathDefaults(def: Patches) returns (ok: bool)
      requires root.Map? && forall m :: m in def ==> InRange(m)
      modifies this
      ensures ok <==> ReadPath(old(root)).Some? && WayIsClear(old(root), PATH_FIELD)
      ensures ok ==> Seeded(old(root), def, root)
      ensures !ok ==> root == old(root)
    {
      SettableIff(root);
      match ReadPath(root)
      case None => ok := false;
      case Some(cur) =>
        var merged := MergeDefaults(cur, def);
        var out := SetField(root, PATH_FIELD, AsNode(merged));
        ok := out.Some?;
        if ok { root := out.value; }
    }

    /** Reads the live path back. */
    method EffectiveKubeUpgradePath() returns (path: Option<Patches>)
      ensures path.Some? <==> ReadPath(root).Some? && forall k :: k in ReadPath(root).value ==> ParseMinor(k).Some?
      ensures path.Some? ==> IsEffective(ReadPath(root).value, path.value)
    {
      match ReadPath(root)
      case None => path := None;
      case Some(m) => path := EffectivePath(m);
    }
  }

  lemma SettableIff(root: Node)
    requires root.Map?
    ensures forall v :: SetField(root, PATH_FIELD, v).Some? <==> WayIsClear(root, PATH_FIELD)
  {
    var k := PATH_FIELD[0];
    assert PATH_FIELD[1..] == ["kube_upgrade_path"];
    assert [k][1..] == [];
    forall v
      ensures SetField(root, PATH_FIELD, v).Some? <==> !(k in root.m && !root.m[k].Map?)
    {
    }
    assert Lookup(root, [k]) == if k in root.m then Some(root.m[k]) else None;
    assert [k] < PATH_FIELD;
    forall q | q < PATH_FIELD && Lookup(root, q).Some?
      ensures q == [] || q == [k]
    {
      assert |q| == 0 || |q| == 1;
      assert |q| == 1 ==> q[0] == PATH_FIELD[0];
    }
  }

  lemma AsNodeReads(m: map<string, string>)
    ensures AsNode(m).Map? && (forall k :: k in AsNode(m).m ==> AsNode(m).m[k].Str?)
    ensures (map k | k in AsNode(m).m :: AsNode(m).m[k].s) == m
  {
  }

  /** Seeding changes the path and nothing else; the path then reads as the merged one. */
  lemma SeededReads(root: Node, def: Patches, root': Node)
    requires Seeded(root, def, root')
    ensures root'.Map? && ReadPath(root').Some? && IsMerged(ReadPath(root).value, def, ReadPath(root').value)
    ensures Lookup(root', PATH_FIELD) == Some(AsNode(ReadPath(root').value))
    ensures forall q :: !Comparable(PATH_FIELD, q) ==> Lookup(root', q) == Lookup(root, q)
  {
    var merged :| IsMerged(ReadPath(root).value, def, merged) && SetField(root, PATH_FIELD, AsNode(merged)) == Some(root');
    SetThenRead(root, PATH_FIELD, AsNode(merged));
    FoundIsLookup(root', PATH_FIELD);
    AsNodeReads(merged);
    forall q | !Comparable(PATH_FIELD, q)
      ensures Lookup(root', q) == Lookup(root, q)
    {
      SetElsewhere(root, PATH_FIELD, AsNode(merged), q);
    }
  }

  /** Seeding a seeded configuration changes nothing. */
  lemma SeedIdempotent(root: Node, def: Patches, root': Node, root'': Node)
    requires Seeded(root, def, root') && Seeded(root', def, root'')
    ensures root'' == root'
  {
    SeededReads(root, def, root');
    var again :| IsMerged(ReadPath(root').value, def, again) && SetField(root', PATH_FIELD, AsNode(again)) == Some(root'');
    MergeIdempotent(ReadPath(root).value, def, ReadPath(root').value, again);
    SetSame(root', PATH_FIELD, AsNode(again));
  }

  /** Seeding and reading back: with canonical user keys the reader finds the user's patch
      for a minor where the user set one, else the default, else nothing. */
  lemma SeedThenRead(root: Node, def: Patches, root': Node, path: Patches, n: int)
    requires forall m :: m in def ==> InRange(m)
    requires Seeded(root, def, root') && forall k :: k in ReadPath(root).value ==> exists m :: InRange(m) && Key(m) == k
    requires ReadPath(root').Some? && IsEffective(ReadPath(root').value, path) && InRange(n)
    ensures n in path <==> Key(n) in ReadPath(root).value || n in def
    ensures n in path ==> path[n] == if Key(n) in ReadPath(root).value then ReadPath(root).value[Key(n)] else def[n]
  {
    SeededReads(root, def, root');
    MergeThenRead(ReadPath(root).value, def, ReadPath(root').value, path, n);
  }
}
