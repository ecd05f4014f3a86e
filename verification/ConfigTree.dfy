/** Configurations as finite trees, read and written by path, and the deep merge that lays
    one over another. */
module ConfigTree {
  import opened Wrappers

  /** A config value: a string, another scalar or list, an explicit null, or a mapping. */
  datatype Node = Str(s: string) | Scalar(v: int) | Null | Map(m: map<string, Node>)

  type Path = seq<string>

  // ---- reading ------------------------------------------------------------------------------

  /** The value at a path, if there is one. */
  function Lookup(n: Node, p: Path): Option<Node> {
    if p == [] then Some(n)
    else if n.Map? && p[0] in n.m then Lookup(n.m[p[0]], p[1..])
    else None
  }

  /** A nested read as the library reports it: found, absent, or a path through something
      that is not a mapping. */
  datatype Field = Found(node: Node) | Missing | NotAMap

  function NestedField(n: Node, p: Path): Field {
    if p == [] then Found(n)
    else if n.Null? then Missing
    else if !n.Map? then NotAMap
    else if p[0] !in n.m then Missing
    else NestedField(n.m[p[0]], p[1..])
  }

  lemma {:induction false} FoundIsLookup(n: Node, p: Path)
    ensures Lookup(n, p).Some? <==> NestedField(n, p).Found?
    ensures Lookup(n, p).Some? ==> NestedField(n, p) == Found(Lookup(n, p).value)
  {
    if p != [] && n.Map? && p[0] in n.m { FoundIsLookup(n.m[p[0]], p[1..]); }
  }

  /** At `q` stands something that is neither a mapping nor null. */
  predicate BlockedAt(n: Node, q: Path) {
    Lookup(n, q).Some? && !Lookup(n, q).value.Map? && !Lookup(n, q).value.Null?
  }

  /** A read fails exactly on a way through something that is neither a mapping nor null. */
  lemma {:induction false} NotAMapIff(n: Node, p: Path)
    ensures NestedField(n, p).NotAMap? <==> exists q :: q < p && BlockedAt(n, q)
  {
    if p != [] && n.Map? && p[0] in n.m {
      var child, rest := n.m[p[0]], p[1..];
      NotAMapIff(child, rest);
      if NestedField(n, p).NotAMap? {
        var q :| q < rest && BlockedAt(child, q);
        assert ([p[0]] + q)[1..] == q;
        assert [p[0]] + q < p && BlockedAt(n, [p[0]] + q);
      }
      forall q | q < p && BlockedAt(n, q)
        ensures NestedField(n, p).NotAMap?
      {
        assert q != [] && q[0] == p[0];
        assert q[1..] < rest && BlockedAt(child, q[1..]);
      }
    } else if p != [] {
      assert [] < p && (BlockedAt(n, []) <==> !n.Map? && !n.Null?);
      forall q | q < p && q != []
        ensures !BlockedAt(n, q)
      {
      }
    }
  }

  // ---- writing ------------------------------------------------------------------------------

  /** Sets a value, creating mappings on the way; None when something else is in the way. */
  function SetField(n: Node, p: Path, v: Node): Option<Node>
    requires n.Map? && p != []
    decreases p
  {
    if |p| == 1 then Some(Map(n.m[p[0] := v]))
    else
      var child := if p[0] in n.m then n.m[p[0]] else Map(map[]);
      if !child.Map? then None
      else
        match SetField(child, p[1..], v)
        case None => None
        case Some(c) => Some(Map(n.m[p[0] := c]))
  }

  /** One path is a prefix of the other. */
  predicate Comparable(p: Path, q: Path) {
    p <= q || q <= p
  }

  lemma {:induction false} SetThenRead(n: Node, p: Path, v: Node)
    requires n.Map? && p != [] && SetField(n, p, v).Some?
    ensures SetField(n, p, v).value.Map? && Lookup(SetField(n, p, v).value, p) == Some(v)
    decreases p
  {
    if |p| > 1 {
      var child := if p[0] in n.m then n.m[p[0]] else Map(map[]);
      SetThenRead(child, p[1..], v);
    }
  }

  lemma {:induction false} SetElsewhere(n: Node, p: Path, v: Node, q: Path)
    requires n.Map? && p != [] && SetField(n, p, v).Some? && !Comparable(p, q)
    ensures Lookup(SetField(n, p, v).value, q) == Lookup(n, q)
    decreases p
  {
    assert q != [];
    if |p| > 1 && q[0] == p[0] {
      var child := if p[0] in n.m then n.m[p[0]] else Map(map[]);
      assert !Comparable(p[1..], q[1..]) by {
        assert p == [p[0]] + p[1..] && q == [q[0]] + q[1..];
      }
      SetElsewhere(child, p[1..], v, q[1..]);
    }
  }

  /** Writing what is already there changes nothing. */
  lemma {:induction false} SetSame(n: Node, p: Path, v: Node)
    requires n.Map? && p != [] && Lookup(n, p) == Some(v)
    ensures SetField(n, p, v) == Some(n)
    decreases p
  {
    if |p| == 1 {
      assert Lookup(n, p) == Some(n.m[p[0]]);
      assert n.m[p[0] := v] == n.m;
    } else {
      assert n.m[p[0]].Map?;
      SetSame(n.m[p[0]], p[1..], v);
      assert n.m[p[0] := n.m[p[0]]] == n.m;
    }
  }

  /** Above the written path there are mappings afterwards. */
  lemma {:induction false} SetOnTheWay(n: Node, p: Path, v: Node, q: Path)
    requires n.Map? && p != [] && SetField(n, p, v).Some? && q <= p && q != p
    ensures Lookup(SetField(n, p, v).value, q).Some? && Lookup(SetField(n, p, v).value, q).value.Map?
    decreases p
  {
    if q != [] {
      var child := if p[0] in n.m then n.m[p[0]] else Map(map[]);
      SetOnTheWay(child, p[1..], v, q[1..]);
    }
  }

  /** Nothing but a mapping, or nothing at all, stands on the way to the path. */
  ghost predicate WayIsClear(n: Node, p: Path) {
    forall q :: q < p && Lookup(n, q).Some? ==> Lookup(n, q).value.Map?
  }

  lemma {:induction false} ClearWayReads(n: Node, p: Path)
    requires WayIsClear(n, p)
    ensures !NestedField(n, p).NotAMap?
    decreases p
  {
    if p != [] {
      assert [] < p && Lookup(n, []) == Some(n);
      if p[0] in n.m {
        forall q | q < p[1..] && Lookup(n.m[p[0]], q).Some?
          ensures Lookup(n.m[p[0]], q).value.Map?
        {
          assert ([p[0]] + q)[1..] == q && [p[0]] + q < p;
          assert Lookup(n, [p[0]] + q) == Lookup(n.m[p[0]], q);
        }
        ClearWayReads(n.m[p[0]], p[1..]);
      }
    }
  }

  lemma {:induction false} ClearWaySets(n: Node, p: Path, v: Node)
    requires n.Map? && p != [] && WayIsClear(n, p)
    ensures SetField(n, p, v).Some?
    decreases p
  {
    if |p| > 1 {
      var child := if p[0] in n.m then n.m[p[0]] else Map(map[]);
      assert child.Map? by {
        if p[0] in n.m {
          assert Lookup(n, [p[0]]) == Some(n.m[p[0]]) by { assert [p[0]][1..] == []; }
          assert [p[0]] < p;
        }
      }
      forall q | q < p[1..] && Lookup(child, q).Some?
        ensures Lookup(child, q).value.Map?
      {
        assert ([p[0]] + q)[1..] == q;
        assert [p[0]] + q < p;
        if p[0] in n.m { assert Lookup(n, [p[0]] + q) == Lookup(child, q); }
      }
      ClearWaySets(child, p[1..], v);
    }
  }

  // ---- merging ------------------------------------------------------------------------------

  /** Deep merge: nested mappings are merged, any other value of `src` wins. */
  function Merge(base: Node, src: Node): Node
    decreases src
  {
    if base.Map? && src.Map? then
      Map(map k | k in base.m.Keys + src.m.Keys ::
            if k !in src.m then base.m[k]
            else if k in base.m then Merge(base.m[k], src.m[k])
            else src.m[k])
    else src
  }

  /** Where `src` holds a value, that value is read, merged into what was there if both are
      mappings. */
  lemma {:induction false} MergeReadsSource(base: Node, src: Node, p: Path)
    requires Lookup(src, p).Some?
    ensures Lookup(Merge(base, src), p) ==
      Some(if Lookup(base, p).Some? then Merge(Lookup(base, p).value, Lookup(src, p).value) else Lookup(src, p).value)
    decreases p
  {
    if p != [] && base.Map? && p[0] in base.m {
      MergeReadsSource(base.m[p[0]], src.m[p[0]], p[1..]);
    }
  }

  /** Where `src` says nothing, neither at the path nor by a value in its way, the base is
      read as before. */
  lemma {:induction false} MergeKeepsBase(base: Node, src: Node, p: Path)
    requires base.Map? && src.Map? && Lookup(src, p).None? && WayIsClear(src, p)
    ensures Lookup(Merge(base, src), p) == Lookup(base, p)
    decreases p
  {
    if p != [] && p[0] in src.m {
      var s := src.m[p[0]];
      assert [p[0]][1..] == [] && Lookup(src, [p[0]]) == Some(s);
      if |p| > 1 {
        assert [p[0]] < p && s.Map?;
        forall q | q < p[1..] && Lookup(s, q).Some?
          ensures Lookup(s, q).value.Map?
        {
          assert ([p[0]] + q)[1..] == q && [p[0]] + q < p;
          assert Lookup(src, [p[0]] + q) == Lookup(s, q);
        }
        if p[0] in base.m && base.m[p[0]].Map? {
          MergeKeepsBase(base.m[p[0]], s, p[1..]);
        }
      }
    }
  }

  /** The merge reads as the source alone exactly when the base defines nothing that the
      source leaves open. */
  lemma {:induction false} MergeIsSourceIff(base: Node, src: Node)
    ensures Merge(base, src) == src <==> forall r :: Lookup(base, r).Some? && WayIsClear(src, r) ==> Lookup(src, r).Some?
    decreases src
  {
    if forall r :: Lookup(base, r).Some? && WayIsClear(src, r) ==> Lookup(src, r).Some? {
      MergeIsSource(base, src);
    }
    if Merge(base, src) == src {
      forall r | Lookup(base, r).Some? && WayIsClear(src, r)
        ensures Lookup(src, r).Some?
      {
        if r != [] && Lookup(src, r).None? {
          assert [] < r && Lookup(src, []) == Some(src);
          MergeKeepsBase(base, src, r);
        }
      }
    }
  }

  lemma {:induction false} MergeIsSource(base: Node, src: Node)
    requires forall r :: Lookup(base, r).Some? && WayIsClear(src, r) ==> Lookup(src, r).Some?
    ensures Merge(base, src) == src
    decreases src
  {
    if base.Map? && src.Map? {
      forall k | k in base.m
        ensures k in src.m && Merge(base.m[k], src.m[k]) == src.m[k]
      {
        assert [k][1..] == [];
        assert Lookup(base, [k]) == Some(base.m[k]);
        assert WayIsClear(src, [k]) by {
          forall q | q < [k] && Lookup(src, q).Some?
            ensures Lookup(src, q).value.Map?
          {
            assert q == [];
          }
        }
        assert Lookup(src, [k]).Some?;
        forall r | Lookup(base.m[k], r).Some? && WayIsClear(src.m[k], r)
          ensures Lookup(src.m[k], r).Some?
        {
          var kr := [k] + r;
          assert kr[1..] == r;
          assert Lookup(base, kr).Some?;
          WayBelow(src, k, r);
          assert Lookup(src, kr).Some?;
        }
        MergeIsSource(base.m[k], src.m[k]);
      }
      assert Merge(base, src).m == src.m;
    }
  }

  lemma WayBelow(n: Node, k: string, r: Path)
    requires n.Map? && k in n.m && WayIsClear(n.m[k], r)
    ensures WayIsClear(n, [k] + r)
  {
    forall q | q < [k] + r && Lookup(n, q).Some?
      ensures Lookup(n, q).value.Map?
    {
      if q != [] {
        assert q[0] == ([k] + r)[0] && q[1..] < r;
        assert Lookup(n, q) == Lookup(n.m[k], q[1..]);
      }
    }
  }

  // ---- regrouping merges ----------------------------------------------------------------------

  predicate Regroups(a: Node, b: Node, c: Node) {
    Merge(Merge(a, b), c) == Merge(a, Merge(b, c))
  }

  /** At a path, a plain value of `b` stands between two mappings and hides something of `a`. */
  ghost predicate Hides(a: Node, b: Node, c: Node, p: Path) {
    var x, y, z := Lookup(a, p), Lookup(b, p), Lookup(c, p);
    x.Some? && y.Some? && z.Some? && x.value.Map? && !y.value.Map? && z.value.Map? && Merge(x.value, z.value) != z.value
  }

  /** Merges regroup exactly when no plain value hides part of a mapping. */
  lemma RegroupsIff(a: Node, b: Node, c: Node)
    ensures Regroups(a, b, c) <==> forall p :: !Hides(a, b, c, p)
  {
    if Regroups(a, b, c) {
      forall p
        ensures !Hides(a, b, c, p)
      {
        RegroupsHidesNothing(a, b, c, p);
      }
    }
    if forall p :: !Hides(a, b, c, p) { NothingHiddenRegroups(a, b, c); }
  }

  lemma {:induction false} RegroupsHidesNothing(a: Node, b: Node, c: Node, p: Path)
    requires Regroups(a, b, c)
    ensures !Hides(a, b, c, p)
    decreases p
  {
    if p != [] && a.Map? && b.Map? && c.Map? && p[0] in a.m && p[0] in b.m && p[0] in c.m {
      var k := p[0];
      assert Merge(Merge(a, b), c).m[k] == Merge(Merge(a.m[k], b.m[k]), c.m[k]);
      assert Merge(a, Merge(b, c)).m[k] == Merge(a.m[k], Merge(b.m[k], c.m[k]));
      RegroupsHidesNothing(a.m[k], b.m[k], c.m[k], p[1..]);
    }
  }

  lemma {:induction false} NothingHiddenRegroups(a: Node, b: Node, c: Node)
    requires forall p :: !Hides(a, b, c, p)
    ensures Regroups(a, b, c)
    decreases b
  {
    if a.Map? && b.Map? && c.Map? {
      forall k | k in a.m && k in b.m && k in c.m
        ensures Regroups(a.m[k], b.m[k], c.m[k])
      {
        forall p
          ensures !Hides(a.m[k], b.m[k], c.m[k], p)
        {
          assert ([k] + p)[1..] == p;
          assert !Hides(a, b, c, [k] + p);
        }
        NothingHiddenRegroups(a.m[k], b.m[k], c.m[k]);
      }
      assert Merge(Merge(a, b), c).m == Merge(a, Merge(b, c)).m;
    } else {
      assert !Hides(a, b, c, []);
    }
  }
}
