/** The configuration of one hop of a multi-minor upgrade, and the guard that keeps the final
    hop from rolling a component back. */
module UpgradeConfig {
  import opened Wrappers
  import opened ConfigTree
  import opened Overlay
  import opened VersionPaths
  import opened Minors
  import opened Versions

  /** The embedded per-minor defaults that can be read and parsed. */
  type VarsFiles = map<int, Node>

  /** The overlay of the minor a version belongs to, if version, file and fields are readable. */
  function OverlayFor(files: VarsFiles, version: string): Option<Node> {
    AllowListIndependent();
    match MinorOfVersion(version)
    case None => None
    case Some(minor) => if minor in files then Pick(files[minor], PATHS) else None
  }

  /** The configuration of one hop: the terminal one with the hop's kube_version and, before
      the final hop, the hop's own component versions. */
  function BuildUpgradeStepConfig(files: VarsFiles, base: Node, version: string, isFinal: bool): Option<Node>
    requires base.Map?
  {
    match SetField(base, KUBE_VERSION, Str(version))
    case None => None
    case Some(cfg) =>
      if isFinal then Some(cfg)
      else
        match OverlayFor(files, version)
        case None => None
        case Some(overlay) => Some(Merge(cfg, overlay))
  }

  // ---- what a hop reads -------------------------------------------------------------------------

  /** `overlay` holds exactly what `vars` defines at the allow-listed paths. */
  ghost predicate Overlays(vars: Node, overlay: Node) {
    && OnlyPicked(vars, PATHS, overlay)
    && (forall p :: p in PATHS ==> Lookup(overlay, p) == Lookup(vars, p))
  }

  lemma OverlayForHolds(files: VarsFiles, version: string)
    requires OverlayFor(files, version).Some?
    ensures MinorOfVersion(version).Some? && MinorOfVersion(version).value in files
    ensures Overlays(files[MinorOfVersion(version).value], OverlayFor(files, version).value)
  {
    hide MinorOfVersion;
    AllowListIndependent();
    PickTheorem(files[MinorOfVersion(version).value], PATHS);
  }

  lemma CoveredTouches(vars: Node, r: Path, q: Path)
    requires r <= q
    ensures Covered(vars, PATHS, r) ==> Touched(vars, PATHS, q)
  {
    hide PATHS;
    if Covered(vars, PATHS, r) {
      var p :| p in PATHS && Lookup(vars, p).Some? && p <= r;
      assert Comparable(p, q);
    }
  }

  /** A path that touches none of the picked ones reads the base through the merge. */
  lemma UntouchedReadsBase(vars: Node, overlay: Node, cfg: Node, q: Path)
    requires Overlays(vars, overlay) && cfg.Map? && q != [] && !Touched(vars, PATHS, q)
    ensures Lookup(Merge(cfg, overlay), q) == Lookup(cfg, q)
  {
    hide PATHS;
    forall r | r < q && Lookup(overlay, r).Some?
      ensures Lookup(overlay, r).value.Map?
    {
      CoveredTouches(vars, r, q);
    }
    MergeKeepsBase(cfg, overlay, q);
  }

  lemma ListedUntouched(vars: Node, p: Path)
    requires p == KUBE_VERSION || (p in PATHS && Lookup(vars, p).None?)
    ensures !Touched(vars, PATHS, p)
  {
    AllowListIndependent();
    hide PATHS;
    forall r | r in PATHS && Lookup(vars, r).Some?
      ensures !Comparable(r, p)
    {
      if p in PATHS {
        var i :| 0 <= i < |PATHS| && PATHS[i] == r;
        var j :| 0 <= j < |PATHS| && PATHS[j] == p;
      }
    }
  }

  /** Every hop reads its own kube_version. The final one reads the terminal value at every other
      path. An intermediate one reads the hop's value at every allow-listed path its defaults
      define, merged into the terminal value when both are mappings; and the terminal value at
      every path that neither is, leads to nor lies below one of these. */
  lemma HopReads(files: VarsFiles, base: Node, version: string, isFinal: bool, cfg: Node)
    requires base.Map? && BuildUpgradeStepConfig(files, base, version, isFinal) == Some(cfg)
    ensures cfg.Map? && Lookup(cfg, ["kubernetes", "kube_version"]) == Some(Str(version))
    ensures isFinal ==> forall q :: !Comparable(["kubernetes", "kube_version"], q) ==> Lookup(cfg, q) == Lookup(base, q)
    ensures !isFinal ==> MinorOfVersion(version).Some? && MinorOfVersion(version).value in files
    ensures !isFinal ==> var vars := files[MinorOfVersion(version).value];
      && (forall p :: p in PATHS && Lookup(vars, p).Some? ==> Lookup(cfg, p) == Some(Over(Lookup(base, p), Lookup(vars, p).value)))
      && (forall q :: !Comparable(KUBE_VERSION, q) && !Touched(vars, PATHS, q) ==> Lookup(cfg, q) == Lookup(base, q))
  {
    hide MinorOfVersion;
    SetThenRead(base, KUBE_VERSION, Str(version));
    if isFinal {
      forall q | !Comparable(["kubernetes", "kube_version"], q)
        ensures Lookup(cfg, q) == Lookup(base, q)
      {
        SetElsewhere(base, KUBE_VERSION, Str(version), q);
      }
    } else {
      MiddleHopReadsAll(files, base, version, cfg);
    }
    hide PATHS;
  }

  lemma MiddleHopReadsAll(files: VarsFiles, base: Node, version: string, cfg: Node)
    requires base.Map? && BuildUpgradeStepConfig(files, base, version, false) == Some(cfg)
    ensures MinorOfVersion(version).Some? && MinorOfVersion(version).value in files
    ensures cfg.Map? && Lookup(cfg, KUBE_VERSION) == Some(Str(version))
    ensures var vars := files[MinorOfVersion(version).value];
      && (forall p :: p in PATHS && Lookup(vars, p).Some? ==> Lookup(cfg, p) == Some(Over(Lookup(base, p), Lookup(vars, p).value)))
      && (forall q :: !Comparable(KUBE_VERSION, q) && !Touched(vars, PATHS, q) ==> Lookup(cfg, q) == Lookup(base, q))
  {
    hide MinorOfVersion;
    hide PATHS;
    OverlayForHolds(files, version);
    var vars, overlay := files[MinorOfVersion(version).value], OverlayFor(files, version).value;
    var forced := SetField(base, KUBE_VERSION, Str(version)).value;
    SetThenRead(base, KUBE_VERSION, Str(version));
    ListedUntouched(vars, KUBE_VERSION);
    UntouchedReadsBase(vars, overlay, forced, KUBE_VERSION);
    forall p | p in PATHS && Lookup(vars, p).Some?
      ensures Lookup(cfg, p) == Some(Over(Lookup(base, p), Lookup(vars, p).value))
    {
      ListedApart(p);
      SetElsewhere(base, KUBE_VERSION, Str(version), p);
      MergeReadsSource(forced, overlay, p);
    }
    forall q | !Comparable(KUBE_VERSION, q) && !Touched(vars, PATHS, q)
      ensures Lookup(cfg, q) == Lookup(base, q)
    {
      SetElsewhere(base, KUBE_VERSION, Str(version), q);
      UntouchedReadsBase(vars, overlay, forced, q);
    }
  }

  /** A value laid over what was there before. */
  function Over(under: Option<Node>, v: Node): Node {
    if under.Some? then Merge(under.value, v) else v
  }

  lemma ListedApart(p: Path)
    requires p in PATHS
    ensures !Comparable(KUBE_VERSION, p)
  {
    AllowListIndependent();
    hide PATHS;
    ComparableSymmetric(p, KUBE_VERSION);
  }

  /** A hop can be built exactly when `kubernetes` is a mapping or absent and, before the
      final hop, the minor, its defaults and every allow-listed field of them can be read. */
  lemma HopBuildsIff(files: VarsFiles, base: Node, version: string, isFinal: bool)
    requires base.Map?
    ensures BuildUpgradeStepConfig(files, base, version, isFinal).Some? <==> Settable(base) && (isFinal || HasOverlay(files, version))
  {
    assert KUBE_VERSION[1..] == ["kube_version"];
    OverlayForIff(files, version);
    hide PATHS;
    hide MinorOfVersion;
  }

  predicate Settable(base: Node)
    requires base.Map?
  {
    "kubernetes" in base.m ==> base.m["kubernetes"].Map?
  }

  ghost predicate HasOverlay(files: VarsFiles, version: string) {
    && MinorOfVersion(version).Some? && MinorOfVersion(version).value in files
    && (forall p :: p in PATHS ==> !NestedField(files[MinorOfVersion(version).value], p).NotAMap?)
  }

  lemma OverlayForIff(files: VarsFiles, version: string)
    ensures OverlayFor(files, version).Some? <==> HasOverlay(files, version)
  {
    hide MinorOfVersion;
    AllowListIndependent();
    if MinorOfVersion(version).Some? && MinorOfVersion(version).value in files {
      PickTheorem(files[MinorOfVersion(version).value], PATHS);
      hide PATHS;
    }
  }

  /** The hop reads the very value of its defaults exactly when the terminal config defines
      nothing below the path that this value leaves open; in particular for any plain value. */
  lemma HopReadsExactlyIff(files: VarsFiles, base: Node, version: string, cfg: Node, p: Path)
    requires base.Map? && BuildUpgradeStepConfig(files, base, version, false) == Some(cfg) && p in PATHS
    requires MinorOfVersion(version).Some? && MinorOfVersion(version).value in files
    requires Lookup(files[MinorOfVersion(version).value], p).Some?
    ensures var v := Lookup(files[MinorOfVersion(version).value], p);
      && (Lookup(cfg, p) == v <==> Lookup(base, p).Some? ==> LeavesNothingOpen(Lookup(base, p).value, v.value))
      && (!v.value.Map? ==> Lookup(cfg, p) == v)
  {
    hide MinorOfVersion;
    hide PATHS;
    HopReads(files, base, version, false, cfg);
    var v := Lookup(files[MinorOfVersion(version).value], p).value;
    if Lookup(base, p).Some? { MergeIsSourceIff(Lookup(base, p).value, v); }
  }

  ghost predicate LeavesNothingOpen(under: Node, v: Node) {
    forall r :: Lookup(under, r).Some? && WayIsClear(v, r) ==> Lookup(v, r).Some?
  }

  // ---- the rollback guard -----------------------------------------------------------------------

  /** A string read: nothing there, a string, or something else there or on the way. */
  datatype StringField = Absent | Text(text: string) | Bad

  function NestedString(n: Node, p: Path): StringField {
    match NestedField(n, p)
    case Missing => Absent
    case NotAMap => Bad
    case Found(v) => if v.Str? then Text(v.s) else Bad
  }

  predicate Pinned(base: Node, p: Path) {
    NestedString(base, p).Text? && NestedString(base, p).text != ""
  }

  /** The hop's overlay can be read and does not ask for more than the pinned version. */
  predicate HopAllows(parse: Parser, files: VarsFiles, p: Path, pinned: string, step: string) {
    && OverlayFor(files, step).Some?
    && var hop := NestedString(OverlayFor(files, step).value, p);
       !hop.Bad? && (hop.Text? && hop.text != "" ==> CompareVersionNumbers(parse, pinned, hop.text) >= 0)
  }

  predicate FieldAllows(parse: Parser, files: VarsFiles, base: Node, steps: seq<string>, p: Path)
    requires |steps| > 0
  {
    && !NestedString(base, p).Bad?
    && (Pinned(base, p) ==> forall j :: 0 <= j < |steps| - 1 ==> HopAllows(parse, files, p, NestedString(base, p).text, steps[j]))
  }

  /** The conflicts of one field with the intermediate hops; None when something is unreadable. */
  method FieldConflicts(parse: Parser, files: VarsFiles, base: Node, steps: seq<string>, p: Path) returns (conflicts: Option<nat>)
    requires |steps| > 0
    ensures conflicts == Some(0) <==> FieldAllows(parse, files, base, steps, p)
  {
    hide OverlayFor;
    hide NestedString;
    hide CompareVersionNumbers;
    var problems: nat := 0;
    if NestedString(base, p).Bad? { return None; }
    if Pinned(base, p) {
      var pinned := NestedString(base, p).text;
      for j := 0 to |steps| - 1
        invariant problems == 0 <==> forall k :: 0 <= k < j ==> HopAllows(parse, files, p, pinned, steps[k])
      {
        var overlay := OverlayFor(files, steps[j]);
        if overlay.None? {
          assert !HopAllows(parse, files, p, pinned, steps[j]);
          return None;
        }
        var hop := NestedString(overlay.value, p);
        if hop.Bad? {
          assert !HopAllows(parse, files, p, pinned, steps[j]);
          return None;
        }
        if hop.Text? && hop.text != "" && CompareVersionNumbers(parse, pinned, hop.text) < 0 { problems := problems + 1; }
      }
    }
    conflicts := Some(problems);
  }

  /** Checks every pinned field against every intermediate hop, collecting the conflicts. */
  method ValidateTerminalVersions(parse: Parser, files: VarsFiles, base: Node, steps: seq<string>) returns (ok: bool)
    ensures ok <==> Accepts(parse, files, base, steps)
    ensures |steps| <= 1 ==> ok
  {
    if |steps| <= 1 { return true; }
    hide PATHS;
    hide FieldAllows;
    var problems: nat := 0;
    for i := 0 to |PATHS|
      invariant problems == 0 <==> forall k :: 0 <= k < i ==> FieldAllows(parse, files, base, steps, PATHS[k])
    {
      var conflicts := FieldConflicts(parse, files, base, steps, PATHS[i]);
      if conflicts.None? {
        assert PATHS[i] in PATHS;
        return false;
      }
      problems := problems + conflicts.value;
    }
    ok := problems == 0;
  }

  ghost predicate Accepts(parse: Parser, files: VarsFiles, base: Node, steps: seq<string>) {
    |steps| <= 1 || forall p :: p in PATHS ==> FieldAllows(parse, files, base, steps, p)
  }

  // ---- what the guard means -----------------------------------------------------------------------

  /** What a hop's configuration reads at a field; Bad if the hop cannot be built. */
  function HopValue(files: VarsFiles, base: Node, steps: seq<string>, j: nat, p: Path): StringField
    requires base.Map? && j < |steps|
  {
    match BuildUpgradeStepConfig(files, base, steps[j], j == |steps| - 1)
    case None => Bad
    case Some(cfg) => NestedString(cfg, p)
  }

  /** What a step's own defaults say about a field. */
  function VarsValue(files: VarsFiles, step: string, p: Path): StringField {
    match MinorOfVersion(step)
    case None => Bad
    case Some(minor) => if minor in files then NestedString(files[minor], p) else Bad
  }

  lemma StringIsLookup(n: Node, p: Path)
    ensures forall t :: NestedString(n, p) == Text(t) <==> Lookup(n, p) == Some(Str(t))
    ensures NestedString(n, p).Absent? ==> Lookup(n, p).None?
    ensures NestedString(n, p).Absent? <==>
      Lookup(n, p).None? && forall q :: q < p ==> !BlockedAt(n, q)
  {
    FoundIsLookup(n, p);
    NotAMapIff(n, p);
    hide BlockedAt;
  }

  /** The final hop reads the pinned version. */
  lemma FinalHopReads(files: VarsFiles, base: Node, steps: seq<string>, p: Path)
    requires base.Map? && Settable(base) && |steps| > 0 && p in PATHS && Pinned(base, p)
    ensures HopValue(files, base, steps, |steps| - 1, p) == NestedString(base, p)
  {
    var last := steps[|steps| - 1];
    HopBuildsIff(files, base, last, true);
    ListedApart(p);
    hide PATHS;
    SetElsewhere(base, KUBE_VERSION, Str(last), p);
    StringIsLookup(base, p);
    StringIsLookup(BuildUpgradeStepConfig(files, base, last, true).value, p);
  }

  /** The overlay and the defaults it was picked from agree about every listed string. */
  lemma OverlayString(files: VarsFiles, step: string, p: Path)
    requires p in PATHS && OverlayFor(files, step).Some?
    ensures NestedString(OverlayFor(files, step).value, p) == VarsValue(files, step, p)
  {
    OverlayForHolds(files, step);
    OverlayForIff(files, step);
    hide MinorOfVersion;
    hide OverlayFor;
    ListedIndependent(p);
    hide PATHS;
    var vars, overlay := files[MinorOfVersion(step).value], OverlayFor(files, step).value;
    WayToNextIsClear(vars, PATHS, overlay, p);
    ClearWayReads(overlay, p);
    FoundIsLookup(overlay, p);
    FoundIsLookup(vars, p);
  }

  lemma ListedIndependent(p: Path)
    requires p in PATHS
    ensures forall r :: r in PATHS && r != p ==> !Comparable(r, p)
  {
    AllowListIndependent();
    hide PATHS;
    forall r | r in PATHS && r != p
      ensures !Comparable(r, p)
    {
      var i :| 0 <= i < |PATHS| && PATHS[i] == r;
      var j :| 0 <= j < |PATHS| && PATHS[j] == p;
    }
  }

  /** An intermediate hop reads its defaults' version where they give one, else the pin. */
  lemma MiddleHopReads(files: VarsFiles, base: Node, steps: seq<string>, j: nat, p: Path)
    requires base.Map? && Settable(base) && j < |steps| - 1 && p in PATHS && Pinned(base, p)
    requires OverlayFor(files, steps[j]).Some?
    ensures HopValue(files, base, steps, j, p) ==
      if VarsValue(files, steps[j], p).Absent? then NestedString(base, p) else VarsValue(files, steps[j], p)
  {
    var step := steps[j];
    OverlayForIff(files, step);
    HopBuildsIff(files, base, step, false);
    var cfg := BuildUpgradeStepConfig(files, base, step, false).value;
    hide BuildUpgradeStepConfig;
    HopReads(files, base, step, false, cfg);
    hide MinorOfVersion;
    hide OverlayFor;
    var vars := files[MinorOfVersion(step).value];
    if Lookup(vars, p).None? {
      ListedUntouched(vars, p);
      ListedApart(p);
    }
    hide PATHS;
    FoundIsLookup(vars, p);
    FoundIsLookup(base, p);
    FoundIsLookup(cfg, p);
  }

  /** At every intermediate hop the field can be read and is not above the pinned version. */
  ghost predicate NeverAbove(parse: Parser, files: VarsFiles, base: Node, steps: seq<string>, p: Path)
    requires base.Map? && NestedString(base, p).Text?
  {
    forall j :: 0 <= j < |steps| - 1 ==>
      && HopValue(files, base, steps, j, p).Text?
      && CompareVersionNumbers(parse, NestedString(base, p).text, HopValue(files, base, steps, j, p).text) >= 0
  }

  lemma HopAllowsIff(parse: Parser, files: VarsFiles, base: Node, steps: seq<string>, p: Path, j: nat)
    requires base.Map? && Settable(base) && p in PATHS && Pinned(base, p) && j < |steps| - 1 && parse("").None?
    ensures HopAllows(parse, files, p, NestedString(base, p).text, steps[j]) <==>
      && HopValue(files, base, steps, j, p).Text?
      && CompareVersionNumbers(parse, NestedString(base, p).text, HopValue(files, base, steps, j, p).text) >= 0
  {
    var pinned := NestedString(base, p).text;
    OverlayForIff(files, steps[j]);
    HopBuildsIff(files, base, steps[j], false);
    if OverlayFor(files, steps[j]).Some? {
      OverlayString(files, steps[j], p);
      MiddleHopReads(files, base, steps, j, p);
      ComparisonSwaps(parse, pinned, pinned);
      EmptyIsLeast(parse, pinned);
    }
    hide PATHS;
    hide OverlayFor;
    hide NestedString;
    hide VarsValue;
    hide CompareVersionNumbers;
  }

  lemma EmptyIsLeast(parse: Parser, a: string)
    requires parse("").None?
    ensures CompareVersionNumbers(parse, a, "") >= 0
  {
  }

  /** The guard accepts exactly when every listed field of the terminal config is readable and
      no pinned field stands higher, at any intermediate hop, than where the final hop puts it. */
  lemma GuardMeans(parse: Parser, files: VarsFiles, base: Node, steps: seq<string>)
    requires base.Map? && Settable(base) && |steps| > 1 && parse("").None?
    ensures Accepts(parse, files, base, steps) <==> forall p :: p in PATHS ==>
      && !NestedString(base, p).Bad?
      && (Pinned(base, p) ==>
        && HopValue(files, base, steps, |steps| - 1, p) == NestedString(base, p)
        && NeverAbove(parse, files, base, steps, p))
  {
    forall p | p in PATHS && Pinned(base, p)
      ensures HopValue(files, base, steps, |steps| - 1, p) == NestedString(base, p)
      ensures FieldAllows(parse, files, base, steps, p) <==> NeverAbove(parse, files, base, steps, p)
    {
      FinalHopReads(files, base, steps, p);
      FieldMeans(parse, files, base, steps, p);
    }
    hide PATHS;
    hide NeverAbove;
    hide HopValue;
    hide NestedString;
  }

  lemma FieldMeans(parse: Parser, files: VarsFiles, base: Node, steps: seq<string>, p: Path)
    requires base.Map? && Settable(base) && p in PATHS && Pinned(base, p) && |steps| > 1 && parse("").None?
    ensures FieldAllows(parse, files, base, steps, p) <==> NeverAbove(parse, files, base, steps, p)
  {
    forall j: nat | j < |steps| - 1
      ensures HopAllows(parse, files, p, NestedString(base, p).text, steps[j]) <==>
        && HopValue(files, base, steps, j, p).Text?
        && CompareVersionNumbers(parse, NestedString(base, p).text, HopValue(files, base, steps, j, p).text) >= 0
    {
      HopAllowsIff(parse, files, base, steps, p, j);
    }
    hide PATHS;
    hide HopAllows;
    hide HopValue;
    hide NestedString;
    hide CompareVersionNumbers;
  }

  // ---- rising over the whole upgrade -------------------------------------------------------------

  ghost predicate Rises(parse: Parser, files: VarsFiles, base: Node, steps: seq<string>, p: Path)
    requires base.Map?
  {
    forall i, j :: 0 <= i <= j < |steps| ==>
      && HopValue(files, base, steps, i, p).Text? && HopValue(files, base, steps, j, p).Text?
      && CompareVersionNumbers(parse, HopValue(files, base, steps, i, p).text, HopValue(files, base, steps, j, p).text) <= 0
  }

  /** The version a hop asks for: its defaults' own, else the pinned one. */
  function Asked(files: VarsFiles, step: string, p: Path, pinned: string): string {
    if VarsValue(files, step, p).Text? then VarsValue(files, step, p).text else pinned
  }

  /** No later default asks for less than an earlier hop did; a hop without a default counts
      as asking for the pinned version already. */
  ghost predicate DefaultsRise(parse: Parser, files: VarsFiles, steps: seq<string>, p: Path, pinned: string) {
    forall i, j :: 0 <= i < j < |steps| - 1 && VarsValue(files, steps[j], p).Text? ==>
      CompareVersionNumbers(parse, Asked(files, steps[i], p, pinned), Asked(files, steps[j], p, pinned)) <= 0
  }

  lemma AcceptedHop(parse: Parser, files: VarsFiles, base: Node, steps: seq<string>, p: Path, j: nat)
    requires base.Map? && Settable(base) && p in PATHS && Pinned(base, p) && parse("").None?
    requires |steps| > 1 && Accepts(parse, files, base, steps) && j < |steps|
    ensures HopValue(files, base, steps, j, p) ==
      Text(if j == |steps| - 1 then NestedString(base, p).text else Asked(files, steps[j], p, NestedString(base, p).text))
    ensures CompareVersionNumbers(parse, HopValue(files, base, steps, j, p).text, NestedString(base, p).text) <= 0
  {
    var pinned := NestedString(base, p).text;
    if j == |steps| - 1 {
      FinalHopReads(files, base, steps, p);
      ComparisonSwaps(parse, pinned, pinned);
    } else {
      assert FieldAllows(parse, files, base, steps, p);
      assert HopAllows(parse, files, p, pinned, steps[j]);
      HopAllowsIff(parse, files, base, steps, p, j);
      MiddleHopReads(files, base, steps, j, p);
      ComparisonSwaps(parse, pinned, HopValue(files, base, steps, j, p).text);
    }
    hide PATHS;
    hide HopValue;
    hide NestedString;
    hide VarsValue;
    hide CompareVersionNumbers;
  }

  /** What AcceptedHop says, for every hop. */
  ghost predicate HopsKnown(parse: Parser, files: VarsFiles, base: Node, steps: seq<string>, p: Path, pinned: string)
    requires base.Map?
  {
    forall j :: 0 <= j < |steps| ==>
      && HopValue(files, base, steps, j, p) == Text(if j == |steps| - 1 then pinned else Asked(files, steps[j], p, pinned))
      && CompareVersionNumbers(parse, HopValue(files, base, steps, j, p).text, pinned) <= 0
  }

  lemma RisingHopsRise(parse: Parser, files: VarsFiles, base: Node, steps: seq<string>, p: Path, pinned: string)
    requires base.Map? && HopsKnown(parse, files, base, steps, p, pinned) && Rises(parse, files, base, steps, p)
    ensures DefaultsRise(parse, files, steps, p, pinned)
  {
    hide HopValue;
    hide VarsValue;
    hide CompareVersionNumbers;
    forall i, j | 0 <= i < j < |steps| - 1 && VarsValue(files, steps[j], p).Text?
      ensures CompareVersionNumbers(parse, Asked(files, steps[i], p, pinned), Asked(files, steps[j], p, pinned)) <= 0
    {
      assert HopValue(files, base, steps, i, p).Text? && HopValue(files, base, steps, j, p).Text?;
      hide Asked;
    }
  }

  lemma RisingDefaultsRise(parse: Parser, files: VarsFiles, base: Node, steps: seq<string>, p: Path, pinned: string, i: nat, j: nat)
    requires base.Map? && HopsKnown(parse, files, base, steps, p, pinned) && DefaultsRise(parse, files, steps, p, pinned)
    requires i <= j < |steps|
    ensures HopValue(files, base, steps, i, p).Text? && HopValue(files, base, steps, j, p).Text?
    ensures CompareVersionNumbers(parse, HopValue(files, base, steps, i, p).text, HopValue(files, base, steps, j, p).text) <= 0
  {
    hide HopValue;
    hide VarsValue;
    hide CompareVersionNumbers;
    ComparisonSwaps(parse, HopValue(files, base, steps, i, p).text, HopValue(files, base, steps, i, p).text);
  }

  /** Under an accepted upgrade a pinned field rises over all hops exactly when the defaults
      do. A hop that has no default jumps to the pinned version, so a later one with a lower
      default falls back. */
  lemma RisesIff(parse: Parser, files: VarsFiles, base: Node, steps: seq<string>, p: Path)
    requires base.Map? && Settable(base) && p in PATHS && Pinned(base, p) && parse("").None?
    requires |steps| > 1 && Accepts(parse, files, base, steps)
    ensures Rises(parse, files, base, steps, p) <==> DefaultsRise(parse, files, steps, p, NestedString(base, p).text)
  {
    var pinned := NestedString(base, p).text;
    assert HopsKnown(parse, files, base, steps, p, pinned) by {
      forall j | 0 <= j < |steps|
        ensures HopValue(files, base, steps, j, p) == Text(if j == |steps| - 1 then pinned else Asked(files, steps[j], p, pinned))
        ensures CompareVersionNumbers(parse, HopValue(files, base, steps, j, p).text, pinned) <= 0
      {
        AcceptedHop(parse, files, base, steps, p, j);
      }
      hide HopValue;
    }
    hide PATHS;
    hide HopValue;
    hide HopsKnown;
    hide DefaultsRise;
    hide CompareVersionNumbers;
    if Rises(parse, files, base, steps, p) { RisingHopsRise(parse, files, base, steps, p, pinned); }
    if DefaultsRise(parse, files, steps, p, pinned) {
      forall i, j | 0 <= i <= j < |steps|
        ensures HopValue(files, base, steps, i, p).Text? && HopValue(files, base, steps, j, p).Text?
        ensures CompareVersionNumbers(parse, HopValue(files, base, steps, i, p).text, HopValue(files, base, steps, j, p).text) <= 0
      {
        RisingDefaultsRise(parse, files, base, steps, p, pinned, i, j);
      }
    }
  }

  /** When the hops that give the field a default come first, and each parses and asks for no
      less than the one before, the field rises over the whole upgrade. */
  lemma PrefixRises(parse: Parser, files: VarsFiles, base: Node, steps: seq<string>, p: Path, n: nat)
    requires base.Map? && Settable(base) && p in PATHS && Pinned(base, p) && parse("").None?
    requires |steps| > 1 && Accepts(parse, files, base, steps) && n < |steps|
    requires forall j :: 0 <= j < |steps| - 1 ==> (VarsValue(files, steps[j], p).Text? <==> j < n)
    requires forall j :: 0 <= j < n ==> VarsValue(files, steps[j], p).Text? && parse(VarsValue(files, steps[j], p).text).Some?
    requires forall j :: 0 < j < n ==>
      CompareVersionNumbers(parse, VarsValue(files, steps[j - 1], p).text, VarsValue(files, steps[j], p).text) <= 0
    ensures Rises(parse, files, base, steps, p)
  {
    RisesIff(parse, files, base, steps, p);
    var pinned := NestedString(base, p).text;
    forall i, j | 0 <= i < j < |steps| - 1 && VarsValue(files, steps[j], p).Text?
      ensures CompareVersionNumbers(parse, Asked(files, steps[i], p, pinned), Asked(files, steps[j], p, pinned)) <= 0
    {
      PrefixChain(parse, files, steps, p, n, i, j);
    }
    hide PATHS;
    hide Rises;
    hide NestedString;
    hide VarsValue;
    hide CompareVersionNumbers;
  }

  lemma {:induction false} PrefixChain(parse: Parser, files: VarsFiles, steps: seq<string>, p: Path, n: nat, i: nat, j: nat)
    requires i < j < n < |steps|
    requires forall j :: 0 <= j < n ==> VarsValue(files, steps[j], p).Text? && parse(VarsValue(files, steps[j], p).text).Some?
    requires forall j :: 0 < j < n ==>
      CompareVersionNumbers(parse, VarsValue(files, steps[j - 1], p).text, VarsValue(files, steps[j], p).text) <= 0
    ensures CompareVersionNumbers(parse, VarsValue(files, steps[i], p).text, VarsValue(files, steps[j], p).text) <= 0
  {
    hide VarsValue;
    hide CompareVersionNumbers;
    if i < j - 1 {
      PrefixChain(parse, files, steps, p, n, i, j - 1);
      ComparisonChains(parse, VarsValue(files, steps[i], p).text, VarsValue(files, steps[j - 1], p).text, VarsValue(files, steps[j], p).text);
    }
  }
}
