/** The allow-list of version fields, and why its entries never get in each other's way. */
module VersionPaths {
  import opened ConfigTree
  import opened Overlay

  const KUBERNETES_PATHS: seq<Path> := [
    ["kubernetes", "helm_version"],
    ["kubernetes", "sandbox_image", "tag"],
    ["kubernetes", "control_plane_endpoint", "kube_vip", "image", "tag"],
    ["kubernetes", "control_plane_endpoint", "haproxy", "image", "tag"]
  ]

  const REGISTRY_PATHS: seq<Path> := [
    ["etcd", "etcd_version"],
    ["image_registry", "keepalived_version"],
    ["image_registry", "harbor_version"],
    ["image_registry", "dockercompose_version"],
    ["image_registry", "docker_registry_version"]
  ]

  const CRI_PATHS: seq<Path> := [
    ["cri", "crictl_version"],
    ["cri", "docker_version"],
    ["cri", "cridockerd_version"],
    ["cri", "containerd_version"],
    ["cri", "runc_version"]
  ]

  const CNI_PATHS: seq<Path> := [
    ["cni", "cni_plugins_version"],
    ["cni", "calico_version"],
    ["cni", "cilium_version"],
    ["cni", "flannel_version"],
    ["cni", "kubeovn_version"],
    ["cni", "hybridnet_version"],
    ["cni", "multus", "image", "tag"],
    ["cni", "spiderpool_version"]
  ]

  const OTHER_PATHS: seq<Path> := [
    ["storage_class", "localpv_provisioner_version"],
    ["storage_class", "nfs_provisioner_version"],
    ["dns", "coredns", "image", "tag"],
    ["dns", "nodelocaldns", "image", "tag"]
  ]

  const PATHS: seq<Path> := KUBERNETES_PATHS + REGISTRY_PATHS + CRI_PATHS + CNI_PATHS + OTHER_PATHS

  /** How long an allow-listed path is, told from the last letter of its second part. */
  function LengthFor(c: char): nat {
    match c
    case 'n' => 2
    case 'e' => 3
    case 's' => 4
    case _ => 5
  }

  /** The second part of a path fixes the path's length, and is not kube_version. */
  predicate Shaped(p: Path) {
    && 2 <= |p| && p[1] != "" && |p| == LengthFor(p[1][|p[1]| - 1])
    && (|p[1]| != 12 || p[1][0] != 'k')
  }

  lemma KubernetesShaped()
    ensures forall i :: 0 <= i < |KUBERNETES_PATHS| ==> Shaped(KUBERNETES_PATHS[i])
  {
  }

  lemma RegistryShaped()
    ensures forall i :: 0 <= i < |REGISTRY_PATHS| ==> Shaped(REGISTRY_PATHS[i])
  {
  }

  lemma CriShaped()
    ensures forall i :: 0 <= i < |CRI_PATHS| ==> Shaped(CRI_PATHS[i])
  {
  }

  lemma CniShaped()
    ensures forall i :: 0 <= i < |CNI_PATHS| ==> Shaped(CNI_PATHS[i])
  {
  }

  lemma OtherShaped()
    ensures forall i :: 0 <= i < |OTHER_PATHS| ==> Shaped(OTHER_PATHS[i])
  {
  }

  lemma AllShaped(p: Path)
    requires p in PATHS
    ensures Shaped(p)
  {
    KubernetesShaped();
    RegistryShaped();
    CriShaped();
    CniShaped();
    OtherShaped();
    hide Shaped;
    assert p in KUBERNETES_PATHS || p in REGISTRY_PATHS || p in CRI_PATHS || p in CNI_PATHS || p in OTHER_PATHS;
  }

  /** No entry lies on the way to another, and none on the way to or below kube_version. */
  lemma AllowListIndependent()
    ensures Independent(PATHS)
    ensures forall p :: p in PATHS ==> !Comparable(p, KUBE_VERSION)
  {
    forall i, j | 0 <= i < |PATHS| && 0 <= j < |PATHS| && PATHS[i] != PATHS[j]
      ensures !Comparable(PATHS[i], PATHS[j])
    {
      AllShaped(PATHS[i]);
      AllShaped(PATHS[j]);
      hide PATHS;
      ShapedApart(PATHS[i], PATHS[j]);
    }
    forall p | p in PATHS
      ensures p != [] && !Comparable(p, KUBE_VERSION)
    {
      AllShaped(p);
      hide PATHS;
      NotKubeVersion(p);
    }
  }

  lemma SameSecond(p: Path, q: Path)
    requires 2 <= |p| && 2 <= |q|
    ensures Comparable(p, q) ==> p[1] == q[1]
  {
  }

  lemma ShapedApart(p: Path, q: Path)
    requires Shaped(p) && Shaped(q) && p != q
    ensures !Comparable(p, q)
  {
    SameSecond(p, q);
  }

  lemma NotKubeVersion(p: Path)
    requires Shaped(p)
    ensures !Comparable(p, KUBE_VERSION)
  {
    assert KUBE_VERSION[1] == "kube_version";
    SameSecond(p, KUBE_VERSION);
  }
}
