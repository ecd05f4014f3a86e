/** Claiming a run id: planners that share one output directory, in any interleaving. */
module RunDirs {
  import opened Wrappers
  import opened Minors

  const SERIALS := 100

  /** The id a planner tries: its time stamp, then stamp-2, stamp-3, ... */
  function Candidate(stamp: string, serial: nat): string {
    if serial == 0 then stamp else stamp + "-" + Itoa(serial + 1)
  }

  lemma SuffixOf(stamp: string, serial: nat)
    ensures serial == 0 ==> |Candidate(stamp, serial)| == |stamp|
    ensures serial > 0 ==> |Candidate(stamp, serial)| > |stamp| && Candidate(stamp, serial)[|stamp| + 1..] == Itoa(serial + 1)
  {
    hide Itoa;
  }

  /** The ids of one stamp are all different. */
  lemma CandidatesDiffer(stamp: string, a: nat, b: nat)
    requires a < b < SERIALS
    ensures Candidate(stamp, a) != Candidate(stamp, b)
  {
    hide Atoi;
    hide Itoa;
    AtoiOfItoa(a + 1);
    AtoiOfItoa(b + 1);
    SuffixOf(stamp, a);
    SuffixOf(stamp, b);
    hide Candidate;
  }

  // ---- the planners ---------------------------------------------------------------------------

  /** Where a planner stands. */
  datatype Phase =
    | Trying(serial: nat)
    | Claimed(id: string)
    | Opened(id: string)
    | Written(id: string)
    | Exhausted
    | Failed

  datatype Planner = Planner(stamp: string, phase: Phase)

  /** The run directories and plan files on disk, and every planner at work on them. */
  datatype World = World(dirs: set<string>, files: map<string, string>, planners: map<nat, Planner>)

  /** One atomic move. A planner that never moves again has crashed. */
  datatype Action =
    | MakeDir(k: nat, broken: bool)    // exclusive mkdir; `broken`: it fails for another reason
    | OpenPlan(k: nat)                 // exclusive create of the plan file
    | WritePlan(k: nat, text: string)  // a write of any part of the plan
    | ClosePlan(k: nat)
    | Foreign(id: string)              // somebody else creates a directory
    | Arrive(k: nat, stamp: string)

  function Put(w: World, k: nat, phase: Phase): World
    requires k in w.planners
  {
    w.(planners := w.planners[k := w.planners[k].(phase := phase)])
  }

  function Step(w: World, a: Action): World {
    match a
    case Foreign(id) => w.(dirs := w.dirs + {id})
    case Arrive(k, stamp) =>
      if k in w.planners then w else w.(planners := w.planners[k := Planner(stamp, Trying(0))])
    case MakeDir(k, broken) =>
      if k !in w.planners || !w.planners[k].phase.Trying? then w
      else
        var serial := w.planners[k].phase.serial;
        var id := Candidate(w.planners[k].stamp, serial);
        if broken then Put(w, k, Failed)
        else if id !in w.dirs then Put(w.(dirs := w.dirs + {id}), k, Claimed(id))
        else if serial + 1 < SERIALS then Put(w, k, Trying(serial + 1))
        else Put(w, k, Exhausted)
    case OpenPlan(k) =>
      if k !in w.planners || !w.planners[k].phase.Claimed? then w
      else
        var id := w.planners[k].phase.id;
        if id in w.files then Put(w, k, Failed)
        else Put(w.(files := w.files[id := ""]), k, Opened(id))
    case WritePlan(k, text) =>
      if k !in w.planners || !w.planners[k].phase.Opened? then w
      else w.(files := w.files[w.planners[k].phase.id := text])
    case ClosePlan(k) =>
      if k !in w.planners || !w.planners[k].phase.Opened? then w
      else Put(w, k, Written(w.planners[k].phase.id))
  }

  function Exec(w: World, acts: seq<Action>): World
    decreases |acts|
  {
    if acts == [] then w else Step(Exec(w, acts[..|acts| - 1]), acts[|acts| - 1])
  }

  // ---- what every run keeps ---------------------------------------------------------------------

  /** The id a planner holds, from its claim on. */
  function Held(p: Planner): Option<string> {
    match p.phase
    case Claimed(id) => Some(id)
    case Opened(id) => Some(id)
    case Written(id) => Some(id)
    case _ => None
  }

  predicate SoundPlanner(w: World, p: Planner) {
    && (Held(p).Some? ==> Held(p).value in w.dirs)
    && (p.phase.Opened? || p.phase.Written? ==> p.phase.id in w.files)
    && (p.phase.Trying? ==> p.phase.serial < SERIALS && AllTaken(w.dirs, p.stamp, p.phase.serial))
    && (p.phase.Exhausted? ==> AllTaken(w.dirs, p.stamp, SERIALS))
  }

  predicate AllTaken(dirs: set<string>, stamp: string, upTo: nat) {
    forall s: nat :: s < upTo ==> Candidate(stamp, s) in dirs
  }

  predicate Apart(p: Planner, q: Planner) {
    Held(p).Some? && Held(q).Some? ==> Held(p) != Held(q)
  }

  predicate Inv(w: World) {
    && (forall k :: k in w.planners ==> SoundPlanner(w, w.planners[k]))
    && (forall k, l :: k in w.planners && l in w.planners && k != l ==> Apart(w.planners[k], w.planners[l]))
  }

  /** Nobody has started yet; directories and plan files of earlier runs may be there. */
  predicate Initial(w: World) {
    w.planners == map[]
  }

  lemma StepKeepsSound(w: World, a: Action, k: nat)
    requires Inv(w) && k in Step(w, a).planners
    ensures SoundPlanner(Step(w, a), Step(w, a).planners[k])
  {
    hide Candidate;
    hide Apart;
    if k in w.planners { assert SoundPlanner(w, w.planners[k]); }
  }

  lemma StepKeepsApart(w: World, a: Action, k: nat, l: nat)
    requires Inv(w) && k in Step(w, a).planners && l in Step(w, a).planners && k != l
    ensures Apart(Step(w, a).planners[k], Step(w, a).planners[l])
  {
    hide Candidate;
    hide AllTaken;
    if k in w.planners && l in w.planners {
      assert Apart(w.planners[k], w.planners[l]);
      assert SoundPlanner(w, w.planners[k]) && SoundPlanner(w, w.planners[l]);
    }
  }

  lemma StepKeepsInv(w: World, a: Action)
    requires Inv(w)
    ensures Inv(Step(w, a))
  {
    hide Step;
    hide SoundPlanner;
    hide Apart;
    forall k | k in Step(w, a).planners
      ensures SoundPlanner(Step(w, a), Step(w, a).planners[k])
    {
      StepKeepsSound(w, a, k);
    }
    forall k, l | k in Step(w, a).planners && l in Step(w, a).planners && k != l
      ensures Apart(Step(w, a).planners[k], Step(w, a).planners[l])
    {
      StepKeepsApart(w, a, k, l);
    }
  }

  lemma {:induction false} RunKeepsInv(w: World, acts: seq<Action>)
    requires Inv(w)
    ensures Inv(Exec(w, acts))
    decreases |acts|
  {
    if acts != [] {
      RunKeepsInv(w, acts[..|acts| - 1]);
      StepKeepsInv(Exec(w, acts[..|acts| - 1]), acts[|acts| - 1]);
    }
  }

  /** However planners interleave, no two ever hold the same run id. */
  lemma ClaimsAreDistinct(w: World, acts: seq<Action>, k: nat, l: nat)
    requires Initial(w)
    requires var e := Exec(w, acts).planners; k in e && l in e && k != l && Held(e[k]).Some? && Held(e[l]).Some?
    ensures Held(Exec(w, acts).planners[k]) != Held(Exec(w, acts).planners[l])
  {
    RunKeepsInv(w, acts);
    hide Exec;
    assert Apart(Exec(w, acts).planners[k], Exec(w, acts).planners[l]);
  }

  /** A planner gives up for want of an id only when all hundred of its ids, which are
      different from one another, are directories. */
  lemma ExhaustedMeansFull(w: World, acts: seq<Action>, k: nat)
    requires Initial(w) && k in Exec(w, acts).planners && Exec(w, acts).planners[k].phase.Exhausted?
    ensures var stamp := Exec(w, acts).planners[k].stamp;
      && AllTaken(Exec(w, acts).dirs, stamp, 100)
      && stamp in Exec(w, acts).dirs && (forall s :: 2 <= s <= 100 ==> stamp + "-" + Itoa(s) in Exec(w, acts).dirs)
      && forall a: nat, b: nat :: a < b < 100 ==> Candidate(stamp, a) != Candidate(stamp, b)
  {
    RunKeepsInv(w, acts);
    hide Exec;
    assert SoundPlanner(Exec(w, acts), Exec(w, acts).planners[k]);
    TakenByName(Exec(w, acts).dirs, Exec(w, acts).planners[k].stamp);
    forall a: nat, b: nat | a < b < SERIALS
      ensures Candidate(Exec(w, acts).planners[k].stamp, a) != Candidate(Exec(w, acts).planners[k].stamp, b)
    {
      CandidatesDiffer(Exec(w, acts).planners[k].stamp, a, b);
    }
  }

  /** A plan file that no planner is writing at the moment. */
  predicate AtRest(w: World, id: string) {
    id in w.files && forall k :: k in w.planners ==> w.planners[k].phase != Opened(id)
  }

  lemma TakenByName(dirs: set<string>, stamp: string)
    requires AllTaken(dirs, stamp, 100)
    ensures stamp in dirs && forall s :: 2 <= s <= 100 ==> stamp + "-" + Itoa(s) in dirs
  {
    hide Itoa;
    assert Candidate(stamp, 0) in dirs;
    forall s | 2 <= s <= 100
      ensures stamp + "-" + Itoa(s) in dirs
    {
      assert Candidate(stamp, s - 1) in dirs;
    }
  }

  lemma StepLeavesAtRest(w: World, a: Action, id: string)
    requires AtRest(w, id)
    ensures AtRest(Step(w, a), id) && Step(w, a).files[id] == w.files[id]
  {
    hide Candidate;
  }

  /** Directories are never removed, and a plan file that was there before, or that its
      planner has closed, is never written again. */
  lemma {:induction false} NothingOverwritten(w: World, acts: seq<Action>, more: seq<Action>)
    ensures Exec(w, acts).dirs <= Exec(w, acts + more).dirs
    ensures forall id :: AtRest(Exec(w, acts), id) ==>
      AtRest(Exec(w, acts + more), id) && Exec(w, acts + more).files[id] == Exec(w, acts).files[id]
    decreases |more|
  {
    if more == [] {
      assert acts + more == acts;
    } else {
      var init, a := more[..|more| - 1], more[|more| - 1];
      assert (acts + more)[..|acts + more| - 1] == acts + init;
      NothingOverwritten(w, acts, init);
      var before := Exec(w, acts + init);
      assert Exec(w, acts + more) == Step(before, a);
      forall id | AtRest(before, id)
        ensures AtRest(Step(before, a), id) && Step(before, a).files[id] == before.files[id]
      {
        StepLeavesAtRest(before, a, id);
      }
    }
  }

  // ---- one call --------------------------------------------------------------------------------

  class OutputDirectory {
    var dirs: set<string>

    constructor (dirs: set<string>)
      ensures this.dirs == dirs
    {
      this.dirs := dirs;
    }

    /** Creates a directory unless it exists or cannot be created. */
    method Mkdir(id: string, unwritable: set<string>) returns (made: bool, existed: bool)
      modifies this
      ensures existed == (id in old(dirs)) && made == (id !in old(dirs) && id !in unwritable)
      ensures dirs == if made then old(dirs) + {id} else old(dirs)
    {
      existed := id in dirs;
      made := !existed && id !in unwritable;
      if made { dirs := dirs + {id}; }
    }

    /** With nobody else at work, a call claims the first id that is free, creating exactly
        that directory, unless the id cannot be created or all hundred are taken. */
    method ClaimComponentsRunDir(stamp: string, unwritable: set<string>) returns (claimed: Option<string>)
      modifies this
      ensures claimed.Some? <==> exists s: nat :: s < SERIALS && FirstFree(old(dirs), stamp, s) && Candidate(stamp, s) !in unwritable
      ensures claimed.Some? ==> exists s: nat :: s < SERIALS && FirstFree(old(dirs), stamp, s) && claimed.value == Candidate(stamp, s)
      ensures dirs == if claimed.Some? then old(dirs) + {claimed.value} else old(dirs)
    {
      hide Candidate;
      var serial: nat := 0;
      while serial < SERIALS
        invariant serial <= SERIALS && dirs == old(dirs) && AllTaken(dirs, stamp, serial)
      {
        var id := Candidate(stamp, serial);
        var made, existed := Mkdir(id, unwritable);
        if made {
          assert FirstFree(old(dirs), stamp, serial);
          return Some(id);
        }
        if !existed {
          OnlyOneFirst(old(dirs), stamp, serial);
          return None;
        }
        serial := serial + 1;
      }
      claimed := None;
    }
  }

  predicate FirstFree(dirs: set<string>, stamp: string, serial: nat) {
    Candidate(stamp, serial) !in dirs && AllTaken(dirs, stamp, serial)
  }

  lemma OnlyOneFirst(dirs: set<string>, stamp: string, s: nat)
    requires FirstFree(dirs, stamp, s)
    ensures forall t: nat :: FirstFree(dirs, stamp, t) ==> t == s
  {
    hide Candidate;
    forall t: nat | FirstFree(dirs, stamp, t)
      ensures t == s
    {
      assert t < s ==> Candidate(stamp, t) in dirs;
      assert s < t ==> Candidate(stamp, s) in dirs;
    }
  }

  // ---- the planner and the call ----------------------------------------------------------------

  /** A planner left to itself, making `n` tries; a directory may be one that cannot be created. */
  function Tries(w: World, k: nat, unwritable: set<string>, n: nat): World
    requires k in w.planners
    ensures k in Tries(w, k, unwritable, n).planners && Tries(w, k, unwritable, n).planners[k].stamp == w.planners[k].stamp
  {
    if n == 0 then w
    else
      Try(Tries(w, k, unwritable, n - 1), k, unwritable)
  }

  /** One try; making a directory that is there fails for being there. */
  function Try(w: World, k: nat, unwritable: set<string>): (w': World)
    requires k in w.planners
    ensures k in w'.planners && w'.planners[k].stamp == w.planners[k].stamp
  {
    var p := w.planners[k];
    Step(w, MakeDir(k, p.phase.Trying? && Candidate(p.stamp, p.phase.serial) in unwritable && Candidate(p.stamp, p.phase.serial) !in w.dirs))
  }

  /** What one try comes to. */
  lemma TryMeans(w: World, k: nat, unwritable: set<string>)
    requires k in w.planners
    ensures !w.planners[k].phase.Trying? ==> Try(w, k, unwritable) == w
    ensures w.planners[k].phase.Trying? ==>
      var n, w' := w.planners[k].phase.serial, Try(w, k, unwritable);
      var id, phase := Candidate(w.planners[k].stamp, n), w'.planners[k].phase;
      if id in w.dirs then w'.dirs == w.dirs && phase == (if n + 1 < 100 then Trying(n + 1) else Exhausted)
      else if id in unwritable then w'.dirs == w.dirs && phase == Failed
      else w'.dirs == w.dirs + {id} && phase == Claimed(id)
  {
    hide Candidate;
  }

  /** Where a planner left to itself stands after `n` tries. */
  ghost predicate StandsAfter(w: World, k: nat, unwritable: set<string>, n: nat, u: World)
    requires k in w.planners && k in u.planners
  {
    var stamp, phase := w.planners[k].stamp, u.planners[k].phase;
    && (forall s: nat :: s < n && FirstFree(w.dirs, stamp, s) ==>
          if Candidate(stamp, s) in unwritable then phase == Failed && u.dirs == w.dirs
          else phase == Claimed(Candidate(stamp, s)) && u.dirs == w.dirs + {Candidate(stamp, s)})
    && ((forall s: nat :: s < n ==> !FirstFree(w.dirs, stamp, s)) ==>
          u.dirs == w.dirs && phase == (if n < 100 then Trying(n) else Exhausted) && AllTaken(w.dirs, stamp, n))
  }

  lemma {:induction false} AloneStands(w: World, k: nat, unwritable: set<string>, n: nat)
    requires k in w.planners && w.planners[k].phase == Trying(0) && n <= 100
    ensures StandsAfter(w, k, unwritable, n, Tries(w, k, unwritable, n))
  {
    if n > 0 {
      AloneStands(w, k, unwritable, n - 1);
      hide Candidate;
      hide Try;
      hide StandsAfter;
      if s: nat :| s < n - 1 && FirstFree(w.dirs, w.planners[k].stamp, s) {
        OverStands(w, k, unwritable, n, s, Tries(w, k, unwritable, n - 1));
      } else {
        TryingStands(w, k, unwritable, n, Tries(w, k, unwritable, n - 1));
      }
    }
  }

  lemma OverStands(w: World, k: nat, unwritable: set<string>, n: nat, s: nat, u: World)
    requires k in w.planners && k in u.planners && n <= 100 && s < n - 1 && FirstFree(w.dirs, w.planners[k].stamp, s)
    requires StandsAfter(w, k, unwritable, n - 1, u)
    ensures StandsAfter(w, k, unwritable, n, Try(u, k, unwritable))
  {
    hide Candidate;
    TryMeans(u, k, unwritable);
    OnlyOneFirst(w.dirs, w.planners[k].stamp, s);
    hide Try;
    hide FirstFree;
  }

  lemma TryingStands(w: World, k: nat, unwritable: set<string>, n: nat, u: World)
    requires k in w.planners && k in u.planners && u.planners[k].stamp == w.planners[k].stamp && 0 < n <= 100
    requires forall s: nat :: s < n - 1 ==> !FirstFree(w.dirs, w.planners[k].stamp, s)
    requires StandsAfter(w, k, unwritable, n - 1, u)
    ensures StandsAfter(w, k, unwritable, n, Try(u, k, unwritable))
  {
    hide Candidate;
    TryMeans(u, k, unwritable);
    NextTry(w.dirs, w.planners[k].stamp, n - 1);
    hide Try;
    hide FirstFree;
    hide AllTaken;
  }

  /** With all earlier ids taken, the next one is the first free one or taken as well. */
  lemma NextTry(dirs: set<string>, stamp: string, n: nat)
    requires AllTaken(dirs, stamp, n)
    ensures if Candidate(stamp, n) in dirs then AllTaken(dirs, stamp, n + 1) else FirstFree(dirs, stamp, n)
    ensures forall s: nat :: s <= n && FirstFree(dirs, stamp, s) ==> s == n && Candidate(stamp, n) !in dirs
  {
    hide Candidate;
  }
}
