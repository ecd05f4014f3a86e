/** The component versions the program ships for each Kubernetes minor, and that an accepted
    upgrade over them never takes a pinned component back. */
module ShippedDefaults {
  import opened Wrappers
  import opened ConfigTree
  import opened VersionPaths
  import opened Minors
  import opened Versions
  import opened UpgradeConfig
  import opened UpgradePath

  const FIRST_MINOR := 23
  const LAST_MINOR := 37

  /** From minor `since` on, until a later entry, the defaults ask for this version. */
  datatype Entry = Entry(since: int, text: string, version: Version)

  /** Two entries of one field: the later one does not ask for less. */
  predicate NotAbove(a: Version, b: Version) {
    || a == b
    || (a.pre == b.pre == [] && (a.major < b.major || (a.major == b.major && (a.minor < b.minor || (a.minor == b.minor && a.patch <= b.patch)))))
  }

  /** The entries of one field. */
  datatype Field = Field(entries: seq<Entry>) {
    /** They begin with the first minor and ask for no less from entry to entry. */
    predicate Ascending() {
      && entries != [] && entries[0].since == FIRST_MINOR
      && (forall i :: 0 < i < |entries| ==> entries[i - 1].since < entries[i].since && NotAbove(entries[i - 1].version, entries[i].version))
    }

    predicate Ends(since: int, version: Version) {
      entries != [] && entries[|entries| - 1].since == since && entries[|entries| - 1].version == version
    }

    /** From a later minor on another default, which does not ask for less. */
    function Then(since: int, text: string, version: Version): (longer: Field)
      requires Ascending()
      requires var last := entries[|entries| - 1]; last.since < since && NotAbove(last.version, version)
      ensures longer.Ascending() && longer.Ends(since, version)
    {
      Field(entries + [Entry(since, text, version)])
    }

    /** What the field's defaults ask for at a minor: the last entry that has begun. */
    function At(minor: int): Entry
      requires entries != []
      decreases |entries|
    {
      if |entries| == 1 || entries[|entries| - 1].since <= minor then entries[|entries| - 1]
      else Field(entries[..|entries| - 1]).At(minor)
    }
  }

  function V(major: nat, minor: nat, patch: nat): Version {
    Version(major, minor, patch, [])
  }

  /** A field's default from the first minor on. */
  function Begin(text: string, version: Version): (field: Field)
    ensures field.Ascending() && field.Ends(FIRST_MINOR, version)
  {
    Field([Entry(FIRST_MINOR, text, version)])
  }

  type Rising = f: Field | f.Ascending() witness Begin("", V(0, 0, 0))

  const HELM: Rising := Begin("v3.8.2", V(3, 8, 2)).Then(24, "v3.10.3", V(3, 10, 3)).Then(26, "v3.11.2", V(3, 11, 2))
    .Then(27, "v3.12.1", V(3, 12, 1)).Then(29, "v3.13.3", V(3, 13, 3)).Then(32, "v3.14.3", V(3, 14, 3))
    .Then(33, "v3.18.5", V(3, 18, 5))
  const SANDBOX_IMAGE: Rising := Begin("3.6", V(3, 6, 0)).Then(24, "3.7", V(3, 7, 0)).Then(25, "3.8", V(3, 8, 0))
    .Then(26, "3.9", V(3, 9, 0)).Then(31, "3.10", V(3, 10, 0)).Then(34, "3.10.1", V(3, 10, 1))
    .Then(36, "3.10.2", V(3, 10, 2))
  const KUBE_VIP: Rising := Begin("v0.7.2", V(0, 7, 2))
  const HAPROXY: Rising := Begin("2.9.6-alpine", Version(2, 9, 6, [Word("alpine")]))

  const KUBERNETES_DEFAULTS: seq<Rising> := [HELM, SANDBOX_IMAGE, KUBE_VIP, HAPROXY]

  const ETCD: Rising := Begin("v3.5.6", V(3, 5, 6)).Then(25, "v3.5.9", V(3, 5, 9)).Then(26, "v3.5.10", V(3, 5, 10))
    .Then(27, "v3.5.12", V(3, 5, 12)).Then(28, "v3.5.15", V(3, 5, 15)).Then(31, "v3.5.24", V(3, 5, 24))
    .Then(34, "v3.6.5", V(3, 6, 5)).Then(35, "v3.6.6", V(3, 6, 6)).Then(36, "v3.6.8", V(3, 6, 8))
    .Then(37, "v3.7.0", V(3, 7, 0))
  const KEEPALIVED: Rising := Begin("2.3.4", V(2, 3, 4))
  const HARBOR: Rising := Begin("v2.10.2", V(2, 10, 2))
  const DOCKERCOMPOSE: Rising := Begin("v2.20.3", V(2, 20, 3))
  const DOCKER_REGISTRY: Rising := Begin("2.8.3", V(2, 8, 3))

  const REGISTRY_DEFAULTS: seq<Rising> := [ETCD, KEEPALIVED, HARBOR, DOCKERCOMPOSE, DOCKER_REGISTRY]

  const CRICTL: Rising := Begin("v1.23.0", V(1, 23, 0)).Then(24, "v1.24.0", V(1, 24, 0)).Then(25, "v1.25.0", V(1, 25, 0))
    .Then(26, "v1.26.0", V(1, 26, 0)).Then(27, "v1.27.0", V(1, 27, 0)).Then(28, "v1.28.0", V(1, 28, 0))
    .Then(29, "v1.29.0", V(1, 29, 0)).Then(30, "v1.30.0", V(1, 30, 0)).Then(31, "v1.31.0", V(1, 31, 0))
    .Then(32, "v1.32.0", V(1, 32, 0)).Then(33, "v1.33.0", V(1, 33, 0)).Then(34, "v1.34.0", V(1, 34, 0))
    .Then(35, "v1.35.0", V(1, 35, 0)).Then(36, "v1.36.0", V(1, 36, 0)).Then(37, "v1.37.0", V(1, 37, 0))
  const DOCKER: Rising := Begin("20.10.23", V(20, 10, 23)).Then(26, "23.0.6", V(23, 0, 6)).Then(27, "24.0.9", V(24, 0, 9))
    .Then(29, "25.0.5", V(25, 0, 5))
  const CRIDOCKERD: Rising := Begin("v0.3.2", V(0, 3, 2)).Then(26, "v0.3.7", V(0, 3, 7)).Then(27, "v0.3.15", V(0, 3, 15))
    .Then(29, "v0.3.21", V(0, 3, 21))
  const CONTAINERD: Rising := Begin("v1.6.20", V(1, 6, 20)).Then(26, "v1.6.21", V(1, 6, 21))
    .Then(27, "v1.7.13", V(1, 7, 13)).Then(35, "v2.3.4", V(2, 3, 4))
  const RUNC: Rising := Begin("v1.1.5", V(1, 1, 5)).Then(26, "v1.1.7", V(1, 1, 7)).Then(27, "v1.1.12", V(1, 1, 12))
    .Then(35, "v1.2.6", V(1, 2, 6))

  const CRI_DEFAULTS: seq<Rising> := [CRICTL, DOCKER, CRIDOCKERD, CONTAINERD, RUNC]

  const CNI_PLUGINS: Rising := Begin("v1.9.1", V(1, 9, 1))
  const CALICO: Rising := Begin("v3.25.2", V(3, 25, 2)).Then(24, "v3.26.5", V(3, 26, 5)).Then(27, "v3.28.5", V(3, 28, 5))
    .Then(29, "v3.29.7", V(3, 29, 7)).Then(31, "v3.30.7", V(3, 30, 7)).Then(32, "v3.31.7", V(3, 31, 7))
    .Then(34, "v3.32.2", V(3, 32, 2))
  const CILIUM: Rising := Begin("1.14.19", V(1, 14, 19)).Then(26, "1.15.19", V(1, 15, 19)).Then(27, "1.16.19", V(1, 16, 19))
    .Then(29, "1.17.18", V(1, 17, 18)).Then(30, "1.18.13", V(1, 18, 13)).Then(31, "1.19.7", V(1, 19, 7))
    .Then(33, "1.20.1", V(1, 20, 1))
  const FLANNEL: Rising := Begin("v0.27.4", V(0, 27, 4)).Then(35, "v0.28.9", V(0, 28, 9))
  const KUBEOVN: Rising := Begin("v1.13.15", V(1, 13, 15)).Then(29, "v1.15.0", V(1, 15, 0)).Then(35, "v1.16.2", V(1, 16, 2))
  const HYBRIDNET: Rising := Begin("0.6.8", V(0, 6, 8))
  const MULTUS: Rising := Begin("v4.2.4", V(4, 2, 4)).Then(35, "v4.3.0", V(4, 3, 0))
  const SPIDERPOOL: Rising := Begin("v1.1.1", V(1, 1, 1)).Then(35, "v1.2.2", V(1, 2, 2))

  const CNI_DEFAULTS: seq<Rising> := [CNI_PLUGINS, CALICO, CILIUM, FLANNEL, KUBEOVN, HYBRIDNET, MULTUS, SPIDERPOOL]

  const LOCALPV_PROVISIONER: Rising := Begin("4.4.0", V(4, 4, 0))
  const NFS_PROVISIONER: Rising := Begin("4.0.18", V(4, 0, 18))
  const COREDNS: Rising := Begin("v1.8.6", V(1, 8, 6)).Then(25, "v1.9.3", V(1, 9, 3)).Then(27, "v1.10.1", V(1, 10, 1))
    .Then(29, "v1.11.1", V(1, 11, 1)).Then(30, "v1.11.3", V(1, 11, 3)).Then(33, "v1.12.0", V(1, 12, 0))
    .Then(34, "v1.12.1", V(1, 12, 1)).Then(35, "v1.13.1", V(1, 13, 1)).Then(36, "v1.14.2", V(1, 14, 2))
    .Then(37, "v1.14.6", V(1, 14, 6))
  const NODELOCALDNS: Rising := Begin("1.21.1", V(1, 21, 1)).Then(25, "1.22.8", V(1, 22, 8))
    .Then(26, "1.22.13", V(1, 22, 13)).Then(27, "1.22.20", V(1, 22, 20)).Then(28, "1.22.23", V(1, 22, 23))
    .Then(30, "1.22.28", V(1, 22, 28)).Then(31, "1.23.1", V(1, 23, 1)).Then(33, "1.25.0", V(1, 25, 0))
    .Then(34, "1.26.4", V(1, 26, 4)).Then(36, "1.26.7", V(1, 26, 7))

  const OTHER_DEFAULTS: seq<Rising> := [LOCALPV_PROVISIONER, NFS_PROVISIONER, COREDNS, NODELOCALDNS]

  /** In the order of the allow-list. */
  const TABLE: seq<Rising> := KUBERNETES_DEFAULTS + REGISTRY_DEFAULTS + CRI_DEFAULTS + CNI_DEFAULTS + OTHER_DEFAULTS

  /** The shipped defaults give every listed field a default. */
  lemma ShippedTableIsComplete()
    ensures |TABLE| == |PATHS|
  {
    hide Begin;
    hide V;
  }

  // ---- the entry in force ------------------------------------------------------------------------

  lemma {:induction false} AtIsAnEntry(f: Rising, minor: int) returns (i: nat)
    requires FIRST_MINOR <= minor
    ensures i < |f.entries| && f.At(minor) == f.entries[i] && f.entries[i].since <= minor
    ensures i + 1 < |f.entries| ==> minor < f.entries[i + 1].since
    decreases |f.entries|
  {
    if |f.entries| == 1 || f.entries[|f.entries| - 1].since <= minor {
      i := |f.entries| - 1;
    } else {
      i := AtIsAnEntry(Field(f.entries[..|f.entries| - 1]), minor);
    }
  }

  lemma {:induction false} LaterEntriesNotBelow(f: Rising, i: nat, j: nat)
    requires i <= j < |f.entries|
    ensures f.entries[i].since <= f.entries[j].since && NotAbove(f.entries[i].version, f.entries[j].version)
  {
    if i < j { LaterEntriesNotBelow(f, i, j - 1); }
  }

  /** From one minor to a later one a default does not fall. */
  lemma AtRises(f: Rising, minor: int, later: int)
    requires FIRST_MINOR <= minor <= later
    ensures NotAbove(f.At(minor).version, f.At(later).version)
  {
    var i := AtIsAnEntry(f, minor);
    var j := AtIsAnEntry(f, later);
    if i > j { LaterEntriesNotBelow(f, j + 1, i); }
    LaterEntriesNotBelow(f, i, if i <= j then j else i);
  }

  // ---- the upgrade -------------------------------------------------------------------------------

  /** The parser reads every version string of the table as the version it is. */
  ghost predicate Parses(parse: Parser, table: seq<Rising>) {
    forall k, i :: 0 <= k < |table| && 0 <= i < |table[k].entries| ==>
      parse(table[k].entries[i].text) == Some(table[k].entries[i].version)
  }

  /** The embedded files say what the table says. */
  ghost predicate Carries(files: VarsFiles, table: seq<Rising>) {
    forall k, m :: 0 <= k < |PATHS| && k < |table| && FIRST_MINOR <= m <= LAST_MINOR ==>
      m in files && NestedString(files[m], PATHS[k]) == StringField.Text(table[k].At(m).text)
  }

  lemma DefaultParses(parse: Parser, table: seq<Rising>, k: nat, minor: int)
    requires Parses(parse, table) && k < |table| && FIRST_MINOR <= minor
    ensures parse(table[k].At(minor).text) == Some(table[k].At(minor).version)
  {
    var i := AtIsAnEntry(table[k], minor);
  }

  lemma NotAboveCompares(parse: Parser, a: string, b: string)
    requires parse(a).Some? && parse(b).Some? && NotAbove(parse(a).value, parse(b).value)
    ensures CompareVersionNumbers(parse, a, b) <= 0
  {
    VersionsArePreordered();
    var x, y := parse(a).value, parse(b).value;
    assert CompareVersions(x, x) == -CompareVersions(x, x);
  }

  /** The steps before the last go through consecutive minors that have defaults. */
  ghost predicate Consecutive(steps: seq<string>, first: int) {
    && |steps| > 1 && FIRST_MINOR <= first && first + |steps| - 2 <= LAST_MINOR
    && forall j :: 0 <= j < |steps| - 1 ==> MinorOfVersion(steps[j]) == Some(first + j)
  }

  /** The steps the program computes between shipped minors are of this kind. */
  lemma ComputedStepsAreConsecutive(current: int, target: int, requested: string, path: Patches, steps: seq<string>)
    requires IsStepList(current, target, requested, path, steps) && OwnMinor(path) && MinorOfVersion(requested) == Some(target)
    requires FIRST_MINOR <= current + 1 < target && target - 1 <= LAST_MINOR
    ensures Consecutive(steps, current + 1)
  {
    hide MinorOfVersion;
    forall j: nat | j < |steps| - 1
      ensures MinorOfVersion(steps[j]) == Some(current + 1 + j)
    {
      StepsRiseByOne(current, target, requested, path, steps, j);
    }
  }

  lemma CompleteTableRises(parse: Parser, table: seq<Rising>, files: VarsFiles, base: Node, steps: seq<string>, first: int, p: Path)
    requires |table| == |PATHS| && Parses(parse, table) && Carries(files, table) && parse("").None?
    requires base.Map? && Settable(base) && p in PATHS && Pinned(base, p)
    requires Consecutive(steps, first) && Accepts(parse, files, base, steps)
    ensures Rises(parse, files, base, steps, p)
  {
    hide PATHS;
    hide MinorOfVersion;
    hide Rises;
    hide Accepts;
    hide NestedString;
    hide CompareVersionNumbers;
    hide NotAbove;
    var k: nat :| k < |PATHS| && PATHS[k] == p;
    forall j | 0 <= j < |steps| - 1
      ensures VarsValue(files, steps[j], p) == StringField.Text(table[k].At(first + j).text)
      ensures parse(table[k].At(first + j).text) == Some(table[k].At(first + j).version)
    {
      DefaultParses(parse, table, k, first + j);
    }
    hide VarsValue;
    forall j: nat | 0 < j < |steps| - 1
      ensures CompareVersionNumbers(parse, VarsValue(files, steps[j - 1], p).text, VarsValue(files, steps[j], p).text) <= 0
    {
      DefaultParses(parse, table, k, first + j - 1);
      DefaultParses(parse, table, k, first + j);
      AtRises(table[k], first + j - 1, first + j);
      NotAboveCompares(parse, table[k].At(first + j - 1).text, table[k].At(first + j).text);
    }
    PrefixRises(parse, files, base, steps, p, |steps| - 1);
  }

  /** With the shipped defaults the guard is all there is to it: in every accepted upgrade
      through consecutive shipped minors, every pinned component rises from hop to hop and
      never falls back. */
  lemma ShippedUpgradeRises(parse: Parser, files: VarsFiles, base: Node, steps: seq<string>, first: int, p: Path)
    requires Parses(parse, TABLE) && Carries(files, TABLE) && parse("").None?
    requires base.Map? && Settable(base) && p in PATHS && Pinned(base, p)
    requires Consecutive(steps, first) && Accepts(parse, files, base, steps)
    ensures Rises(parse, files, base, steps, p)
  {
    ShippedTableIsComplete();
    hide TABLE;
    CompleteTableRises(parse, TABLE, files, base, steps, first, p);
  }
}
