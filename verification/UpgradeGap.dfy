/** An accepted upgrade in which a component falls back between two intermediate hops. */
module UpgradeGap {
  import opened Wrappers
  import opened ConfigTree
  import opened Overlay
  import opened VersionPaths
  import opened Minors
  import opened Versions
  import opened UpgradeConfig

  const ETCD: Path := ["etcd", "etcd_version"]

  function EtcdOnly(version: string): Node {
    Map(map["etcd" := Map(map["etcd_version" := Str(version)])])
  }

  /** 1.28 has no etcd default, 1.29 asks for 3.5, and the end state is pinned to 3.6. */
  const FILES: VarsFiles := map[28 := Map(map[]), 29 := EtcdOnly("3.5")]
  const STEPS: seq<string> := [Key(28) + ".1", Key(29) + ".1", Key(30) + ".1"]

  lemma ListedEtcd()
    ensures ETCD in PATHS
    ensures forall p :: p in PATHS ==> p != [] && (p[0] == "etcd" ==> p == ETCD)
  {
    assert REGISTRY_PATHS[0] == ETCD;
    forall p | p in PATHS
      ensures p != [] && (p[0] == "etcd" ==> p == ETCD)
    {
      assert p in KUBERNETES_PATHS || p in REGISTRY_PATHS || p in CRI_PATHS || p in CNI_PATHS || p in OTHER_PATHS;
    }
  }

  lemma EtcdOnlyReads(version: string, p: Path)
    requires p != [] && (p[0] == "etcd" ==> p == ETCD)
    ensures NestedField(EtcdOnly(version), p) == if p == ETCD then Found(Str(version)) else Missing
    ensures NestedField(Map(map[]), p) == Missing
  {
    if p == ETCD {
      var inner := Map(map["etcd_version" := Str(version)]);
      var q := ["etcd_version"];
      assert p[1..] == q && q[1..] == [];
      assert NestedField(inner, q) == NestedField(Str(version), []) == Found(Str(version));
      assert EtcdOnly(version).m["etcd"] == inner;
      assert NestedField(EtcdOnly(version), p) == NestedField(inner, q);
    }
  }

  lemma MinorsOfSteps()
    ensures MinorOfVersion(STEPS[0]) == Some(28) && MinorOfVersion(STEPS[1]) == Some(29)
  {
    VersionMinor(28, ".1");
    VersionMinor(29, ".1");
  }

  lemma Overlaid(j: nat)
    requires j < 2
    ensures OverlayFor(FILES, STEPS[j]).Some?
    ensures forall p :: p in PATHS ==>
      VarsValue(FILES, STEPS[j], p) == if j == 1 && p == ETCD then StringField.Text("3.5") else Absent
  {
    MinorsOfSteps();
    ListedEtcd();
    hide MinorOfVersion;
    hide PATHS;
    forall p | p in PATHS
      ensures NestedField(FILES[28 + j], p) == if j == 1 && p == ETCD then Found(Str("3.5")) else Missing
    {
      EtcdOnlyReads("3.5", p);
    }
    OverlayForIff(FILES, STEPS[j]);
    hide OverlayFor;
  }

  lemma EtcdAllowed(parse: Parser, j: nat)
    requires parse("3.5") == Some(Version(3, 5, 0, [])) && parse("3.6") == Some(Version(3, 6, 0, [])) && j < 2
    ensures HopAllows(parse, FILES, ETCD, "3.6", STEPS[j])
  {
    assert CompareVersionNumbers(parse, "3.6", "3.5") > 0;
    ListedEtcd();
    Overlaid(j);
    OverlayString(FILES, STEPS[j], ETCD);
    hide OverlayFor;
    hide PATHS;
    hide VarsValue;
    hide NestedString;
    hide STEPS;
    hide FILES;
    hide CompareVersionNumbers;
  }

  lemma BaseReads(p: Path)
    requires p in PATHS
    ensures NestedString(EtcdOnly("3.6"), p) == if p == ETCD then StringField.Text("3.6") else Absent
  {
    ListedEtcd();
    hide PATHS;
    EtcdOnlyReads("3.6", p);
    hide NestedField;
    hide EtcdOnly;
  }

  lemma FieldAllowed(parse: Parser, p: Path)
    requires parse("3.5") == Some(Version(3, 5, 0, [])) && parse("3.6") == Some(Version(3, 6, 0, [])) && p in PATHS
    ensures FieldAllows(parse, FILES, EtcdOnly("3.6"), STEPS, p)
  {
    BaseReads(p);
    hide PATHS;
    hide EtcdOnly;
    hide NestedString;
    hide HopAllows;
    hide FILES;
    assert |STEPS| == 3;
    hide STEPS;
    if p == ETCD {
      EtcdAllowed(parse, 0);
      EtcdAllowed(parse, 1);
    }
  }

  /** The guard accepts this upgrade, and etcd goes 3.6, 3.5, 3.6. */
  lemma GapFalls(parse: Parser)
    requires parse("").None? && parse("3.5") == Some(Version(3, 5, 0, [])) && parse("3.6") == Some(Version(3, 6, 0, []))
    ensures Accepts(parse, FILES, EtcdOnly("3.6"), STEPS) && ETCD in PATHS && Pinned(EtcdOnly("3.6"), ETCD)
    ensures !Rises(parse, FILES, EtcdOnly("3.6"), STEPS, ETCD)
  {
    ListedEtcd();
    var base := EtcdOnly("3.6");
    assert base.Map? && Settable(base) && |STEPS| == 3;
    assert CompareVersionNumbers(parse, "3.6", "3.5") > 0;
    hide CompareVersionNumbers;
    hide PATHS;
    hide STEPS;
    hide FieldAllows;
    hide NestedString;
    hide EtcdOnly;
    hide Rises;
    hide VarsValue;
    forall p | p in PATHS
      ensures FieldAllows(parse, FILES, base, STEPS, p)
    {
      FieldAllowed(parse, p);
    }
    BaseReads(ETCD);
    RisesIff(parse, FILES, base, STEPS, ETCD);
    Overlaid(0);
    Overlaid(1);
    assert Asked(FILES, STEPS[0], ETCD, "3.6") == "3.6" && Asked(FILES, STEPS[1], ETCD, "3.6") == "3.5";
  }
}
