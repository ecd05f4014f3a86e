/** The live cluster an acceptance attempt reads and changes: named objects with
    identities that are never reused, plus everything other actors may do to them
    between any two of the attempt's reads. */
module Cluster {
  import opened Wrappers

  /** Identities and tokens are opaque values that are only compared; 0 stands for
      the empty string that a failed or empty read yields. */
  type Uid = nat
  type Token = nat

  const NO_UID: Uid := 0

  datatype Ref = Ref(ns: string, name: string)

  /** A pod object: its uid, the first owner reference, the volumes it mounts,
      and what its status says right now. */
  datatype Pod = Pod(
    uid: Uid, ownerName: string, ownerIsController: bool, ownerUid: Uid,
    claims: set<string>, hostPaths: set<string>, ready: bool, terminating: bool)

  datatype Claim = Claim(uid: Uid, volumeName: string)

  /** `data` holds the (target, token) pairs that target's business protocol would
      return; attempts mint tokens 1, 2, ... `minted`, no two alike, and nobody else
      writes one. `used` is history: the uids any pod ever had. */
  datatype Cluster = Cluster(
    pods: map<Ref, Pod>,
    controllers: map<(string, Ref), Uid>,
    claims: map<Ref, Claim>,
    volumes: map<string, Uid>,
    nodes: map<string, Uid>,
    data: set<(string, Token)>,
    used: set<Uid>,
    minted: nat)

  /** What controllers, kubelets, operators and other clients may do on their own. */
  datatype Disturbance =
    | PodAppears(ref: Ref, pod: Pod)
    | PodGoes(ref: Ref)
    | PodChanges(ref: Ref, pod: Pod)
    | SetController(kind: string, ref: Ref, ctl: Option<Uid>)
    | SetClaim(ref: Ref, claim: Option<Claim>)
    | SetVolume(name: string, claimUid: Option<Uid>)
    | SetNode(name: string, node: Option<Uid>)
    | LoseData(lost: set<(string, Token)>)

  function Put<K, V>(m: map<K, V>, k: K, v: Option<V>): map<K, V> {
    if v.Some? then m[k := v.value] else m - {k}
  }

  function PlacePod(c: Cluster, ref: Ref, pod: Pod): Cluster {
    c.(pods := c.pods[ref := pod], used := c.used + {pod.uid})
  }

  /** One disturbance. The API server never reuses a uid and never renames an
      object, so a pod can only appear under a uid nobody had, and a changed pod
      keeps its uid. A disturbance that breaks those rules leaves the cluster as it was. */
  function Disturb(c: Cluster, d: Disturbance): Cluster {
    match d
    case PodAppears(ref, pod) =>
      if ref in c.pods || pod.uid in c.used || pod.uid == NO_UID then c else PlacePod(c, ref, pod)
    case PodGoes(ref) => c.(pods := c.pods - {ref})
    case PodChanges(ref, pod) =>
      if ref in c.pods && pod.uid == c.pods[ref].uid then PlacePod(c, ref, pod) else c
    case SetController(kind, ref, ctl) => c.(controllers := Put(c.controllers, (kind, ref), ctl))
    case SetClaim(ref, claim) => c.(claims := Put(c.claims, ref, claim))
    case SetVolume(name, claimUid) => c.(volumes := Put(c.volumes, name, claimUid))
    case SetNode(name, node) => c.(nodes := Put(c.nodes, name, node))
    case LoseData(lost) => c.(data := c.data - lost)
  }

  /** Nothing short of reusing an identity is ruled out: any pod can go, change under its uid, or
      appear under a new one. */
  lemma AnyPodMayCome(c: Cluster, ref: Ref, pod: Pod)
    ensures Disturb(c, PodGoes(ref)) == c.(pods := c.pods - {ref})
    ensures ref in c.pods && c.pods[ref].uid == pod.uid ==> Disturb(c, PodChanges(ref, pod)).pods == c.pods[ref := pod]
    ensures ref !in c.pods && pod.uid !in c.used && pod.uid != NO_UID ==> Disturb(c, PodAppears(ref, pod)).pods == c.pods[ref := pod]
  {
  }

  /** Any other object can take any value or go, and data can be lost. */
  lemma AnyObjectMayChange(c: Cluster, ref: Ref, kind: string, name: string, uid: Option<Uid>, claim: Option<Claim>, lost: set<(string, Token)>)
    ensures exists d :: Disturb(c, d) == c.(controllers := Put(c.controllers, (kind, ref), uid))
    ensures exists d :: Disturb(c, d) == c.(claims := Put(c.claims, ref, claim))
    ensures exists d :: Disturb(c, d) == c.(volumes := Put(c.volumes, name, uid))
    ensures exists d :: Disturb(c, d) == c.(nodes := Put(c.nodes, name, uid))
    ensures exists d :: Disturb(c, d) == c.(data := c.data - lost)
  {
    hide Put;
    hide PlacePod;
    var controller, holder := Disturb(c, SetController(kind, ref, uid)), Disturb(c, SetClaim(ref, claim));
    var volume, node, data := Disturb(c, SetVolume(name, uid)), Disturb(c, SetNode(name, uid)), Disturb(c, LoseData(lost));
  }

  /** Identities are unique among the pods that stand, and history covers them. */
  ghost predicate ClusterOk(c: Cluster) {
    && (forall r :: r in c.pods ==> c.pods[r].uid in c.used && c.pods[r].uid != NO_UID)
    && (forall r, q :: r in c.pods && q in c.pods && c.pods[r].uid == c.pods[q].uid ==> r == q)
    && (forall d :: d in c.data ==> d.1 <= c.minted)
  }

  /** The pod with identity `uid` stands at `ref`. */
  predicate StandsAt(c: Cluster, ref: Ref, uid: Uid) {
    ref in c.pods && c.pods[ref].uid == uid
  }

  /** Everything a disturbance may be relied upon to respect. */
  ghost predicate Later(c: Cluster, c': Cluster) {
    && ClusterOk(c')
    && c.used <= c'.used
    && c.minted <= c'.minted
    && (forall r, u :: u in c.used && StandsAt(c', r, u) ==> StandsAt(c, r, u))
  }

  /** No token enters the data by anyone else's hand. */
  ghost predicate Unforged(c: Cluster, c': Cluster) {
    c'.data <= c.data
  }

  lemma PlacedPodIsLater(c: Cluster, ref: Ref, pod: Pod)
    requires ClusterOk(c) && pod.uid != NO_UID
    requires if ref in c.pods then pod.uid == c.pods[ref].uid else pod.uid !in c.used
    ensures Later(c, PlacePod(c, ref, pod))
  {
  }

  /** Disturbances that leave pods and data alone. */
  lemma ObjectChangeIsLater(c: Cluster, d: Disturbance)
    requires ClusterOk(c) && (d.SetController? || d.SetClaim? || d.SetVolume? || d.SetNode?)
    ensures Later(c, Disturb(c, d))
  {
    var c' := Disturb(c, d);
    assert c'.pods == c.pods && c'.data == c.data && c'.used == c.used && c'.minted == c.minted;
  }

  lemma DataChangeIsLater(c: Cluster, d: Disturbance)
    requires ClusterOk(c) && d.LoseData?
    ensures Later(c, Disturb(c, d))
  {
  }

  lemma PodLossIsLater(c: Cluster, ref: Ref)
    requires ClusterOk(c)
    ensures Later(c, c.(pods := c.pods - {ref}))
  {
  }

  lemma DisturbIsLater(c: Cluster, d: Disturbance)
    requires ClusterOk(c)
    ensures Later(c, Disturb(c, d))
  {
    if d.PodAppears? || d.PodChanges? {
      if Disturb(c, d) != c { PlacedPodIsLater(c, d.ref, d.pod); }
    } else if d.PodGoes? {
      PodLossIsLater(c, d.ref);
    } else if d.LoseData? {
      DataChangeIsLater(c, d);
    } else {
      ObjectChangeIsLater(c, d);
    }
  }

  lemma DisturbForgesNothing(c: Cluster, d: Disturbance)
    ensures Unforged(c, Disturb(c, d))
  {
  }
}
