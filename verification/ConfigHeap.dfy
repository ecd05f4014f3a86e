/** The configuration of one hop as it is built in memory: mappings are cells that can be
    shared and written in place. */
module ConfigHeap {
  import opened Wrappers
  import opened ConfigTree
  import opened Overlay
  import opened VersionPaths
  import opened UpgradeConfig

  /** A value in memory: a plain one, or a reference to a mapping's cell. */
  datatype Val = Leaf(node: Node) | Ref(at: nat)

  /** All cells ever allocated, by address. */
  type Heap = seq<map<string, Val>>

  /** The value stands for this tree. */
  ghost predicate Holds(h: Heap, v: Val, n: Node)
    decreases n
  {
    match n
    case Map(m) => v.Ref? && v.at < |h| && h[v.at].Keys == m.Keys && forall k :: k in m ==> Holds(h, h[v.at][k], m[k])
    case _ => v == Leaf(n)
  }

  /** The cells it is made of. */
  ghost function Cells(h: Heap, v: Val, n: Node): set<nat>
    decreases n
  {
    match n
    case Map(m) =>
      if v.Ref? && v.at < |h| && h[v.at].Keys == m.Keys then
        {v.at} + set k, c | k in m && c in Cells(h, h[v.at][k], m[k]) :: c
      else {}
    case _ => {}
  }

  /** No cell occurs in it twice, so a write through one path is seen through no other. */
  ghost predicate Unshared(h: Heap, v: Val, n: Node)
    requires Holds(h, v, n)
    decreases n
  {
    n.Map? ==>
      && (forall k :: k in n.m ==> Unshared(h, h[v.at][k], n.m[k]) && v.at !in Cells(h, h[v.at][k], n.m[k]))
      && (forall k, l :: k in n.m && l in n.m && k != l ==> Cells(h, h[v.at][k], n.m[k]) !! Cells(h, h[v.at][l], n.m[l]))
  }

  // ---- frames -----------------------------------------------------------------------------------

  /** The cells of a value are as they were. */
  ghost predicate Kept(h: Heap, h': Heap, cells: set<nat>) {
    forall c :: c in cells ==> c < |h| && c < |h'| && h'[c] == h[c]
  }

  lemma {:induction false} CellsInHeap(h: Heap, v: Val, n: Node)
    requires Holds(h, v, n)
    ensures forall c :: c in Cells(h, v, n) ==> c < |h|
    decreases n
  {
    if n.Map? {
      forall k | k in n.m
        ensures forall c :: c in Cells(h, h[v.at][k], n.m[k]) ==> c < |h|
      {
        CellsInHeap(h, h[v.at][k], n.m[k]);
      }
    }
  }

  lemma ChildCells(h: Heap, v: Val, n: Node, k: string)
    requires Holds(h, v, n) && n.Map? && k in n.m
    ensures v.at in Cells(h, v, n) && Cells(h, h[v.at][k], n.m[k]) <= Cells(h, v, n)
  {
  }

  /** What keeps a value's cells keeps the value. */
  lemma {:induction false} Frame(h: Heap, h': Heap, v: Val, n: Node)
    requires Holds(h, v, n) && Kept(h, h', Cells(h, v, n))
    ensures Holds(h', v, n) && Cells(h', v, n) == Cells(h, v, n)
    ensures Unshared(h, v, n) ==> Unshared(h', v, n)
    decreases n
  {
    if n.Map? {
      forall k | k in n.m
        ensures Holds(h', h[v.at][k], n.m[k]) && Cells(h', h[v.at][k], n.m[k]) == Cells(h, h[v.at][k], n.m[k])
        ensures Unshared(h, h[v.at][k], n.m[k]) ==> Unshared(h', h[v.at][k], n.m[k])
      {
        ChildCells(h, v, n, k);
        Frame(h, h', h[v.at][k], n.m[k]);
      }
      assert h'[v.at] == h[v.at] by { assert v.at in Cells(h, v, n); }
    }
  }

  /** Allocation keeps everything. */
  lemma GrowthKeeps(h: Heap, h': Heap, v: Val, n: Node)
    requires Holds(h, v, n) && h <= h'
    ensures Holds(h', v, n) && Cells(h', v, n) == Cells(h, v, n)
    ensures Unshared(h, v, n) ==> Unshared(h', v, n)
  {
    CellsInHeap(h, v, n);
    Frame(h, h', v, n);
  }

  /** A value whose cells all lie between two addresses. */
  ghost predicate Between(cells: set<nat>, lo: nat, hi: nat) {
    forall c :: c in cells ==> lo <= c < hi
  }

  class Store {
    var cells: Heap

    // ---- the deep copy --------------------------------------------------------------------------

    /** A copy that shares nothing with anything and nothing with itself. */
    method DeepCopy(v: Val, ghost n: Node) returns (w: Val)
      requires Holds(cells, v, n)
      modifies this
      ensures old(cells) <= cells && Holds(cells, w, n) && Unshared(cells, w, n)
      ensures Between(Cells(cells, w, n), |old(cells)|, |cells|)
      decreases n
    {
      if v.Leaf? { return v; }
      var m := cells[v.at];
      var out: map<string, Val> := map[];
      var rest := m.Keys;
      while rest != {}
        invariant old(cells) <= cells && rest <= m.Keys == n.m.Keys && out.Keys == m.Keys - rest
        invariant Copied(cells, out, n.m, |old(cells)|)
        decreases rest
      {
        var k :| k in rest;
        ghost var before := cells;
        GrowthKeeps(old(cells), cells, m[k], n.m[k]);
        var child := DeepCopy(m[k], n.m[k]);
        CopiedGrows(before, cells, out, n.m, |old(cells)|, k, child);
        out := out[k := child];
        rest := rest - {k};
      }
      ghost var before := cells;
      cells := cells + [out];
      w := Ref(|cells| - 1);
      CopiedIsUnshared(before, cells, out, n, |old(cells)|);
    }

    // ---- the write in place ----------------------------------------------------------------------

    /** Walks down the path, creating the mappings that are missing, and writes at its end.
        Nothing but the cells of this value is written; on failure nothing at all. */
    method SetNestedField(at: nat, ghost n: Node, p: Path, value: Node) returns (ok: bool)
      requires n.Map? && Holds(cells, Ref(at), n) && Unshared(cells, Ref(at), n) && p != [] && !value.Map?
      modifies this
      ensures ok <==> SetField(n, p, value).Some?
      ensures !ok ==> cells == old(cells)
      ensures ok ==> Holds(cells, Ref(at), SetField(n, p, value).value)
      ensures OnlyWithin(old(cells), cells, Cells(old(cells), Ref(at), n))
      decreases p, 1
    {
      var k := p[0];
      if |p| == 1 {
        cells := cells[at := cells[at][k := Leaf(value)]];
        WrittenHolds(old(cells), cells, at, n, k, Leaf(value), value);
        return true;
      }
      if k in cells[at] {
        var child := cells[at][k];
        if child.Leaf? { return false; }
        ok := SetNestedField(child.at, n.m[k], p[1..], value);
        ChildCells(old(cells), Ref(at), n, k);
        if ok {
          assert cells[at] == old(cells)[at][k := child];
          WrittenHolds(old(cells), cells, at, n, k, child, SetField(n.m[k], p[1..], value).value);
        }
      } else {
        ok := true;
        SetBelowNew(at, n, p, value);
      }
    }

    method SetBelowNew(at: nat, ghost n: Node, p: Path, value: Node)
      requires n.Map? && Holds(cells, Ref(at), n) && Unshared(cells, Ref(at), n) && |p| > 1 && p[0] !in n.m && !value.Map?
      modifies this
      ensures SetField(n, p, value).Some? && Holds(cells, Ref(at), SetField(n, p, value).value)
      ensures OnlyWithin(old(cells), cells, {at})
      decreases p, 0
    {
      var k, created := p[0], |cells|;
      cells := cells[at := cells[at][k := Ref(created)]] + [map[]];
      AlwaysSets(p[1..], value);
      var _ := SetNestedField(created, Map(map[]), p[1..], value);
      WrittenHolds(old(cells), cells, at, n, k, Ref(created), SetField(Map(map[]), p[1..], value).value);
    }

    // ---- the merge -------------------------------------------------------------------------------

    /** A new mapping for every pair of mappings that meet; everything else is shared with the
        inputs, and neither input is written to. */
    method CombineConfigMaps(base: nat, src: nat, ghost b: Node, ghost s: Node) returns (out: nat)
      requires b.Map? && s.Map? && Holds(cells, Ref(base), b) && Holds(cells, Ref(src), s)
      modifies this
      ensures old(cells) <= cells && Holds(cells, Ref(out), Merge(b, s))
      decreases s
    {
      hide Merge;
      var m, overlay := cells[base], cells[src];
      var rest := overlay.Keys;
      while rest != {}
        invariant old(cells) <= cells && rest <= overlay.Keys == s.m.Keys && m.Keys == b.m.Keys + (overlay.Keys - rest)
        invariant Combined(cells, m, b.m, s.m, rest)
        decreases rest
      {
        var k :| k in rest;
        ghost var before, was := cells, m;
        GrowthKeeps(old(cells), cells, overlay[k], s.m[k]);
        if k in m && m[k].Ref? && overlay[k].Ref? {
          var merged := CombineConfigMaps(m[k].at, overlay[k].at, b.m[k], s.m[k]);
          m := m[k := Ref(merged)];
        } else {
          m := m[k := overlay[k]];
          if k in b.m { PlainValueWins(b.m[k], s.m[k]); }
        }
        CombinedGrows(before, cells, was, b.m, s.m, rest, k, m[k]);
        rest := rest - {k};
      }
      ghost var before := cells;
      cells := cells + [m];
      out := |cells| - 1;
      CombinedHolds(before, cells, m, b, s);
    }

    // ---- one hop ---------------------------------------------------------------------------------

    /** Builds the configuration of one hop from the terminal one. Everything that was in memory
        before is untouched, so the terminal configuration still reads as it did, and the next
        hop starts from the same one; the result stands for exactly the specified tree. */
    method BuildUpgradeStepConfig(base: nat, version: string, isFinal: bool, overlay: Option<nat>, ghost n: Node, ghost files: VarsFiles)
      returns (cfg: Option<nat>)
      requires n.Map? && Holds(cells, Ref(base), n)
      requires overlay.Some? <==> OverlayFor(files, version).Some?
      requires overlay.Some? ==> Holds(cells, Ref(overlay.value), OverlayFor(files, version).value)
      modifies this
      ensures old(cells) <= cells && Holds(cells, Ref(base), n)
      ensures cfg.Some? <==> UpgradeConfig.BuildUpgradeStepConfig(files, n, version, isFinal).Some?
      ensures cfg.Some? ==> Holds(cells, Ref(cfg.value), UpgradeConfig.BuildUpgradeStepConfig(files, n, version, isFinal).value)
    {
      hide OverlayFor;
      var copy := DeepCopy(Ref(base), n);
      ghost var copied := cells;
      var ok := SetNestedField(copy.at, n, KUBE_VERSION, Str(version));
      SameBelow(old(cells), copied, cells, Cells(copied, copy, n));
      GrowthKeeps(old(cells), cells, Ref(base), n);
      if !ok { return None; }
      if isFinal { return Some(copy.at); }
      if overlay.None? { return None; }
      GrowthKeeps(old(cells), cells, Ref(overlay.value), OverlayFor(files, version).value);
      SetThenRead(n, KUBE_VERSION, Str(version));
      ghost var written := cells;
      var out := CombineConfigMaps(copy.at, overlay.value, SetField(n, KUBE_VERSION, Str(version)).value, OverlayFor(files, version).value);
      GrowthKeeps(written, cells, Ref(base), n);
      cfg := Some(out);
    }
  }

  /** A write among cells allocated since leaves the older ones as they were. */
  lemma SameBelow(h: Heap, mid: Heap, h': Heap, written: set<nat>)
    requires h <= mid && OnlyWithin(mid, h', written) && Between(written, |h|, |mid|)
    ensures h <= h'
  {
    forall c | 0 <= c < |h|
      ensures h'[c] == h[c]
    {
      assert h'[c] == mid[c];
    }
  }

  /** The merge so far: source keys outside `rest` are merged, the others still the base's. */
  ghost predicate Combined(h: Heap, out: map<string, Val>, b: map<string, Node>, s: map<string, Node>, rest: set<string>) {
    forall k :: k in out ==>
      if k in s && k !in rest then Holds(h, out[k], if k in b then Merge(b[k], s[k]) else s[k])
      else k in b && Holds(h, out[k], b[k])
  }

  lemma CombinedGrows(h: Heap, h': Heap, out: map<string, Val>, b: map<string, Node>, s: map<string, Node>, rest: set<string>, k: string, v: Val)
    requires Combined(h, out, b, s, rest) && h <= h' && k in rest && k in s
    requires Holds(h', v, if k in b then Merge(b[k], s[k]) else s[k])
    ensures Combined(h', out[k := v], b, s, rest - {k})
  {
    forall l | l in out && l != k
      ensures if l in s && l !in rest then Holds(h', out[l], if l in b then Merge(b[l], s[l]) else s[l]) else l in b && Holds(h', out[l], b[l])
    {
      if l in s && l !in rest { GrowthKeeps(h, h', out[l], if l in b then Merge(b[l], s[l]) else s[l]); }
      else { GrowthKeeps(h, h', out[l], b[l]); }
    }
  }

  lemma PlainValueWins(b: Node, s: Node)
    requires !(b.Map? && s.Map?)
    ensures Merge(b, s) == s
  {
  }

  lemma CombinedHolds(h: Heap, h': Heap, out: map<string, Val>, b: Node, s: Node)
    requires b.Map? && s.Map? && Combined(h, out, b.m, s.m, {}) && out.Keys == b.m.Keys + s.m.Keys && h' == h + [out]
    ensures Holds(h', Ref(|h|), Merge(b, s))
  {
    forall k | k in out
      ensures Holds(h', out[k], Merge(b, s).m[k])
    {
      GrowthKeeps(h, h', out[k], Merge(b, s).m[k]);
    }
  }

  /** Whatever lies outside these cells is as it was. */
  ghost predicate OnlyWithin(h: Heap, h': Heap, written: set<nat>) {
    |h| <= |h'| && forall c: nat :: c < |h| && c !in written ==> h'[c] == h[c]
  }

  lemma {:induction false} AlwaysSets(p: Path, value: Node)
    requires p != []
    ensures SetField(Map(map[]), p, value).Some?
  {
    if |p| > 1 { AlwaysSets(p[1..], value); }
  }

  /** The children that a write below the root leaves alone. */
  lemma OtherChildren(h: Heap, h': Heap, at: nat, n: Node, k: string, l: string)
    requires n.Map? && Holds(h, Ref(at), n) && Unshared(h, Ref(at), n) && l in n.m && l != k
    requires OnlyWithin(h, h', {at} + if k in n.m then Cells(h, h[at][k], n.m[k]) else {})
    ensures Holds(h', h[at][l], n.m[l])
  {
    CellsInHeap(h, h[at][l], n.m[l]);
    Frame(h, h', h[at][l], n.m[l]);
  }

  /** The root's entry for `k` now leads to `v`, and nothing else is changed for the tree. */
  lemma WrittenHolds(h: Heap, h': Heap, at: nat, n: Node, k: string, v: Val, x: Node)
    requires n.Map? && Holds(h, Ref(at), n) && Unshared(h, Ref(at), n)
    requires OnlyWithin(h, h', {at} + if k in n.m then Cells(h, h[at][k], n.m[k]) else {})
    requires h'[at] == h[at][k := v] && Holds(h', v, x)
    ensures Holds(h', Ref(at), Map(n.m[k := x]))
  {
    forall l | l in n.m && l != k
      ensures Holds(h', h[at][l], n.m[l])
    {
      OtherChildren(h, h', at, n, k, l);
    }
  }

  /** The children copied so far. */
  ghost predicate Copied(h: Heap, out: map<string, Val>, m: map<string, Node>, lo: nat) {
    && (forall k :: k in out ==> k in m && Holds(h, out[k], m[k]) && Unshared(h, out[k], m[k]) && Between(Cells(h, out[k], m[k]), lo, |h|))
    && (forall k, l :: k in out && l in out && k != l ==> Cells(h, out[k], m[k]) !! Cells(h, out[l], m[l]))
  }

  lemma CopiedGrows(h: Heap, h': Heap, out: map<string, Val>, m: map<string, Node>, lo: nat, k: string, child: Val)
    requires Copied(h, out, m, lo) && h <= h' && lo <= |h| && k in m && k !in out
    requires Holds(h', child, m[k]) && Unshared(h', child, m[k]) && Between(Cells(h', child, m[k]), |h|, |h'|)
    ensures Copied(h', out[k := child], m, lo)
  {
    forall l | l in out
      ensures Holds(h', out[l], m[l]) && Unshared(h', out[l], m[l]) && Cells(h', out[l], m[l]) == Cells(h, out[l], m[l])
    {
      GrowthKeeps(h, h', out[l], m[l]);
    }
  }

  lemma CopiedIsUnshared(h: Heap, h': Heap, out: map<string, Val>, n: Node, lo: nat)
    requires n.Map? && Copied(h, out, n.m, lo) && out.Keys == n.m.Keys && h' == h + [out] && lo <= |h|
    ensures Holds(h', Ref(|h|), n) && Unshared(h', Ref(|h|), n) && Between(Cells(h', Ref(|h|), n), lo, |h'|)
  {
    forall k | k in out
      ensures Holds(h', out[k], n.m[k]) && Unshared(h', out[k], n.m[k]) && Cells(h', out[k], n.m[k]) == Cells(h, out[k], n.m[k])
    {
      GrowthKeeps(h, h', out[k], n.m[k]);
    }
  }
}
