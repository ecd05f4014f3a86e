/** The per-hop version overlay: the allow-listed paths of one minor's defaults, laid over
    the terminal config of a multi-minor upgrade. */
module Overlay {
  import opened Wrappers
  import opened ConfigTree

  const KUBE_VERSION: Path := ["kubernetes", "kube_version"]

  /** Different entries never lie on one another's way. */
  ghost predicate Independent(paths: seq<Path>) {
    && (forall i :: 0 <= i < |paths| ==> paths[i] != [])
    && (forall i, j :: 0 <= i < |paths| && 0 <= j < |paths| && paths[i] != paths[j] ==> !Comparable(paths[i], paths[j]))
  }

  /** Picks the listed values of `vars`; None when a path runs through a non-mapping. */
  function Pick(vars: Node, paths: seq<Path>): Option<Node>
    requires forall i :: 0 <= i < |paths| ==> paths[i] != []
  {
    if paths == [] then Some(Map(map[]))
    else
      var n := |paths| - 1;
      match Pick(vars, paths[..n])
      case None => None
      case Some(overlay) =>
        match NestedField(vars, paths[n])
        case NotAMap => None
        case Missing => Some(overlay)
        case Found(v) => if overlay.Map? then SetField(overlay, paths[n], v) else None
  }

  /** The overlay as the program builds it, path by path. */
  method UpgradeVersionOverlay(vars: Node, paths: seq<Path>) returns (overlay: Option<Node>)
    requires forall i :: 0 <= i < |paths| ==> paths[i] != []
    ensures overlay == Pick(vars, paths)
  {
    var out: Node := Map(map[]);
    for i := 0 to |paths|
      invariant Pick(vars, paths[..i]) == Some(out)
    {
      assert paths[..i + 1][..i] == paths[..i] && paths[..i + 1][i] == paths[i];
      match NestedField(vars, paths[i])
      case NotAMap =>
        PickFails(vars, paths, i + 1);
        return None;
      case Missing =>
      case Found(v) =>
        if !out.Map? {
          PickFails(vars, paths, i + 1);
          return None;
        }
        match SetField(out, paths[i], v) {
          case None =>
            PickFails(vars, paths, i + 1);
            return None;
          case Some(o) => out := o;
        }
    }
    assert paths[..|paths|] == paths;
    overlay := Some(out);
  }

  lemma {:induction false} PickFails(vars: Node, paths: seq<Path>, n: nat)
    requires n <= |paths| && (forall i :: 0 <= i < |paths| ==> paths[i] != []) && Pick(vars, paths[..n]) == None
    ensures Pick(vars, paths) == None
    decreases |paths| - n
  {
    if n == |paths| {
      assert paths[..n] == paths;
    } else {
      assert paths[..n + 1][..n] == paths[..n];
      PickFails(vars, paths, n + 1);
    }
  }

  // ---- what the overlay holds ---------------------------------------------------------------

  /** Everything in the overlay lies at, above or below a listed path that `vars` defines,
      and above it there are only mappings. */
  ghost predicate OnlyPicked(vars: Node, paths: seq<Path>, overlay: Node) {
    && overlay.Map?
    && (forall q :: q != [] && Lookup(overlay, q).Some? ==> Touched(vars, paths, q))
    && (forall q :: Lookup(overlay, q).Some? && !Lookup(overlay, q).value.Map? ==> Covered(vars, paths, q))
  }

  ghost predicate Touched(vars: Node, paths: seq<Path>, q: Path) {
    exists p :: p in paths && Lookup(vars, p).Some? && Comparable(p, q)
  }

  ghost predicate Covered(vars: Node, paths: seq<Path>, q: Path) {
    exists p :: p in paths && Lookup(vars, p).Some? && p <= q
  }

  lemma TouchedGrows(vars: Node, paths: seq<Path>, p: Path)
    ensures forall q :: Touched(vars, paths, q) ==> Touched(vars, paths + [p], q)
    ensures forall q :: Covered(vars, paths, q) ==> Covered(vars, paths + [p], q)
    ensures forall q :: Lookup(vars, p).Some? && Comparable(p, q) ==> Touched(vars, paths + [p], q)
    ensures forall q :: Lookup(vars, p).Some? && p <= q ==> Covered(vars, paths + [p], q)
  {
    assert p in paths + [p];
    forall q | Touched(vars, paths, q)
      ensures Touched(vars, paths + [p], q)
    {
      var r :| r in paths && Lookup(vars, r).Some? && Comparable(r, q);
      assert r in paths + [p];
    }
    forall q | Covered(vars, paths, q)
      ensures Covered(vars, paths + [p], q)
    {
      var r :| r in paths && Lookup(vars, r).Some? && r <= q;
      assert r in paths + [p];
    }
  }

  lemma SetKeepsOnlyPicked(vars: Node, paths: seq<Path>, overlay: Node, p: Path, v: Node, overlay': Node)
    requires OnlyPicked(vars, paths, overlay) && p != [] && Lookup(vars, p) == Some(v)
    requires SetField(overlay, p, v) == Some(overlay')
    ensures OnlyPicked(vars, paths + [p], overlay')
  {
    TouchedGrows(vars, paths, p);
    SetThenRead(overlay, p, v);
    forall q | Lookup(overlay', q).Some?
      ensures q != [] ==> Touched(vars, paths + [p], q)
      ensures !Lookup(overlay', q).value.Map? ==> Covered(vars, paths + [p], q)
    {
      if !Comparable(p, q) {
        SetElsewhere(overlay, p, v, q);
      } else if q <= p && q != p {
        SetOnTheWay(overlay, p, v, q);
      }
    }
  }

  /** For independent paths the overlay is built exactly when no listed path of `vars` runs
      through a non-mapping; writing never fails. Each listed path then reads what `vars`
      defines there, or nothing. */
  lemma {:induction false} PickTheorem(vars: Node, paths: seq<Path>)
    requires Independent(paths)
    ensures Pick(vars, paths).Some? <==> forall i :: 0 <= i < |paths| ==> !NestedField(vars, paths[i]).NotAMap?
    ensures Pick(vars, paths).Some? ==>
      && OnlyPicked(vars, paths, Pick(vars, paths).value)
      && (forall i :: 0 <= i < |paths| ==> Lookup(Pick(vars, paths).value, paths[i]) == Lookup(vars, paths[i]))
  {
    if paths != [] {
      var n := |paths| - 1;
      var init, p := paths[..n], paths[n];
      assert paths == init + [p];
      PickTheorem(vars, init);
      if Pick(vars, init).Some? { PickStep(vars, init, p, Pick(vars, init).value); }
    } else {
      EmptyOverlay();
    }
  }

  lemma EmptyOverlay()
    ensures forall q :: q != [] ==> Lookup(Map(map[]), q).None?
  {
  }

  /** Nothing of the earlier paths lies on the way to a new independent one. */
  lemma WayToNextIsClear(vars: Node, paths: seq<Path>, overlay: Node, p: Path)
    requires OnlyPicked(vars, paths, overlay) && (forall r :: r in paths && r != p ==> !Comparable(r, p))
    ensures WayIsClear(overlay, p)
    ensures p != [] && p !in paths ==> Lookup(overlay, p).None?
  {
    forall q | q < p && Lookup(overlay, q).Some?
      ensures Lookup(overlay, q).value.Map?
    {
      forall r | r in paths
        ensures !(r <= q)
      {
        assert r <= q ==> r <= p && |r| < |p|;
      }
      assert !Covered(vars, paths, q);
    }
  }

  lemma PickStep(vars: Node, paths: seq<Path>, p: Path, overlay: Node)
    requires p != [] && Independent(paths + [p]) && OnlyPicked(vars, paths, overlay)
    requires forall i :: 0 <= i < |paths| ==> Lookup(overlay, paths[i]) == Lookup(vars, paths[i])
    ensures NestedField(vars, p).Missing? ==>
      OnlyPicked(vars, paths + [p], overlay) && Lookup(overlay, p) == Lookup(vars, p)
    ensures NestedField(vars, p).Found? ==>
      var r := SetField(overlay, p, NestedField(vars, p).node);
      && r.Some? && OnlyPicked(vars, paths + [p], r.value) && Lookup(r.value, p) == Lookup(vars, p)
      && forall i :: 0 <= i < |paths| ==> Lookup(r.value, paths[i]) == Lookup(vars, paths[i])
  {
    LastIsIndependent(paths, p);
    FoundIsLookup(vars, p);
    WayToNextIsClear(vars, paths, overlay, p);
    if NestedField(vars, p).Missing? {
      TouchedGrows(vars, paths, p);
      if p in paths {
        var i :| 0 <= i < |paths| && paths[i] == p;
        assert Lookup(overlay, paths[i]) == Lookup(vars, paths[i]);
      }
    } else if NestedField(vars, p).Found? {
      var v := NestedField(vars, p).node;
      ClearWaySets(overlay, p, v);
      var overlay' := SetField(overlay, p, v).value;
      SetThenRead(overlay, p, v);
      SetKeepsOnlyPicked(vars, paths, overlay, p, v, overlay');
      forall i | 0 <= i < |paths|
        ensures Lookup(overlay', paths[i]) == Lookup(vars, paths[i])
      {
        if paths[i] != p {
          assert paths[i] in paths;
          ComparableSymmetric(paths[i], p);
          SetElsewhere(overlay, p, v, paths[i]);
        }
      }
    }
  }

  lemma ComparableSymmetric(p: Path, q: Path)
    ensures Comparable(p, q) <==> Comparable(q, p)
  {
  }

  lemma LastIsIndependent(paths: seq<Path>, p: Path)
    requires Independent(paths + [p])
    ensures p != [] && (forall r :: r in paths && r != p ==> !Comparable(r, p)) && Independent(paths)
  {
    var all := paths + [p];
    assert all[|paths|] == p;
    forall r | r in paths && r != p
      ensures !Comparable(r, p)
    {
      var i :| 0 <= i < |paths| && paths[i] == r;
      assert all[i] == r;
    }
    forall i, j | 0 <= i < |paths| && 0 <= j < |paths| && paths[i] != paths[j]
      ensures !Comparable(paths[i], paths[j])
    {
      assert all[i] == paths[i] && all[j] == paths[j];
    }
    forall i | 0 <= i < |paths|
      ensures paths[i] != []
    {
      assert all[i] == paths[i];
    }
  }
}
