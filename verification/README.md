# Verified model of the ANI installer's change protocols

The installer behind `kubekey/` changes running clusters in three places where a mistake
cannot be taken back: it rebuilds a business pod once to prove that its data persists, it adds
components to a finished installation, and it walks a cluster over several Kubernetes minors.
This project models those three cores in Dafny and proves what they promise.

`dafny verify dfyconfig.toml` checks everything. No file is compiled or executed.

## How the model is laid out

**A. The "recreate once" acceptance protocol** (`acceptance_plan.go`, `pod_delete.go`, the ledger
functions of `verify.go`).

- `Cluster` is the live cluster: pods by name with uids that are never reused, controllers,
  claims, volumes, nodes, and the business data. `Disturb` is anything other actors do to it.
- `Protocol` is a transition system. `Step` is total and an impossible action changes nothing, so
  every sequence of actions is a run: any number of attempts, each advancing one live read, file
  operation or request at a time, in any interleaving; attempts that are cancelled or crash at
  any line; a server that answers late, refuses, breaks or deletes gracefully; a power loss that
  keeps what was flushed and, of the rest, whatever it likes.
- `Invariant`, `Preservation`, `StepPreservation` hold the inductive invariant; `Safety` states
  what follows for every run.
- `Timeline` treats runs as sequences of moments. On it `Authorisation` finds the read behind every
  identity an attempt relies on, `Replacement` the moments a `done` record rests on, and
  `Persistence` the way of the token through the rebuild. `Gates` finds the gates of a passing run
  in their order, `Verdicts` the one call that decided how an attempt ended.
- `Completeness` shows that a matching site with an unspent budget can pass, `Budget` when exactly
  a budget is spent, `Attainability` which declared targets can be accepted at all.
- `Driver` drives one attempt from start to end, whatever its calls meet: a specification without
  program text. `RecreateOnce` is the program text, as methods of a class whose state is the shared
  site; each live read is its own call and arbitrary actions of others may happen before each. The
  methods are proved to end exactly where the driver does, so the theorems apply to them.
- `AcceptancePlan` is the layer above: preflight, ordered steps, overall verdict. `Targets` is the
  registry the program ships.

**B. Component addition** (`components_install.go`, `components_record.go`).

- `Closure` is the depth-first dependency walk as a function, `ClosureTheory` what it computes,
  `Resolver` the imperative walk over shared `seen` and `scope`, the plan validator and the
  product's own component table.
- `Record` is the reader of execution records, `RecordWriter` the writer, and their agreement;
  `RecordBase` is the comparison with the base record at the time of consumption.
- `Execute` is the execute automaton: all gates, then one fixed sequence of effects.
- `RunDirs` is the claim of a run id by planners that share an output directory.

**C. Multi-minor upgrade planning** (`upgrade_path.go`).

- `ConfigTree` has configurations as finite trees with path reads and writes and the deep merge;
  `Overlay` picks listed paths out of a tree; `VersionPaths` is the concrete allow-list.
- `ConfigHeap` builds a hop's configuration in memory: mappings are cells that can be shared, the
  deep copy, the write in place and the merge are methods, and the trees are what they stand for.
- `Minors` prints and parses minors, `UpgradePath` computes the steps and the configured path,
  `Versions` orders version strings, `UpgradeConfig` builds hop configurations and guards
  against rollback, `UpgradeGap` is a concrete upgrade in which a component falls back, and
  `ShippedDefaults` holds the defaults the program ships, over which none does.

## What turned out not to hold as documented

Each of these is the code's behaviour, kept as it is, with an exact condition or a witness.

- The pod read as Ready need not be the pod whose uid goes into the `done` record: uid and
  readiness are separate reads, and a third pod may stand there by then
  (`Persistence.ReadyMayBeAThirdPod`). It is the same pod exactly when that pod stood at the name
  from the one read to the other, and it is never the old pod (`Replacement.DoneWasReplaced`).
- `acceptance_plan.go:380-381` says that once the intent is recorded a second call can only be
  refused. A claim whose flushed write fails takes its own file away again (`verify.go:996-1013`):
  from every site with an unspent budget there is a run on which the first call's intent is on disk
  and a second call on the same file passes (`Budget.SecondCallCanPass`). A budget is spent for good
  exactly when its file is visible, flushed and no creation of it is under way
  (`Budget.SpentIffLocked`). At most one delete holds all the same.
- `acceptance_plan.go:541-570` is to refuse, before any change, targets that the run could not
  authorise. It lets through a pod given by name with a host path, and a pod given by a blank name;
  no site and no run ever passes these, and every other target it lets through can pass
  (`Attainability.DeclaredCanPassIff`, a witness in `Attainability.DeclaredButUnattainable`).
- A ledger file is named by the ledger key, not by the target key of a plan. Two declared targets
  may share a file: preflight accepts such a plan (`Targets.AcceptedPlanMayShareAFile`) and only one
  of the two can ever pass (`AcceptancePlan.SharedFilePassesOnce`). Files differ exactly when keys do
  (`Targets.DistinctFilesIffKeys`), which the shipped registry meets in every base run
  (`Targets.ShippedPlanHasItsBudgets`).
- Nor does a file name alone tell base run and key apart: run `a` with key `b-c` and run `a-b` with
  key `c` share a file (`Targets.RunsMayShareAFile`, exact condition in `Targets.SameFileAcrossRuns`).
  Keys without a dash rule it out, and the shipped ones have none (`Targets.ShippedFilesAreApart`).
- The budget state a recreation reports is that of its closed record, except after a failed write,
  which is reported as `attempted` while the record says `unknown` (`acceptance_plan.go:441-448`),
  and after a pass that could not be recorded (`RecreateOnce.Site.RecreateOnce`).
- A succeeded run whose record was written is not always consumable: it is exactly when every
  target's uid could be read back (`RecordWriter.SucceededRunIsConsumableIff`).
- Resolving a resolved scope again is the identity for acyclic tables; for a cycle it need not be
  (`ClosureTheory.CycleIsNotIdempotent`, exact condition in `ClosureTheory.ScopeReproducesIff`).
- An intermediate hop does not read the defaults' value where both it and the terminal value are
  mappings: they are merged (`UpgradeConfig.HopReads`, exact condition in
  `UpgradeConfig.HopReadsExactlyIff`).
- Reading the upgrade path is order dependent when two keys name one minor
  (`UpgradePath.EffectiveDeterminedIff`).
- The version comparison is not transitive on sets that mix parseable and other strings
  (`Versions.MixedDoesNotChain`, exact condition in `Versions.ChainsIff`).
- The rollback guard does not keep components from falling between two intermediate hops
  (`UpgradeGap.GapFalls`, exact condition in `UpgradeConfig.RisesIff`). The gap needs a minor whose
  defaults leave a field out or ask for less than an earlier minor; the shipped defaults of minors
  23 to 37 give every listed field a value that never falls, so with them no accepted upgrade falls
  back (`ShippedDefaults.ShippedUpgradeRises`).
- Seeding the upgrade path fails when `cluster_require` is an explicit null although reading it
  succeeds (`UpgradePath.Config.MergeKubeUpgradePathDefaults`).

## Model

| member | source | states |
|---|---|---|
| `StepPreservation.StepKeeps` | kubekey/pkg/ani/acceptance_plan.go:247-539 | every action of any attempt, the server, the cluster or a power loss keeps the protocol invariant: who owns a ledger file, what each record claims, which reads an attempt may rely on, whose token is whose |
| `StepPreservation.Reachable` | kubekey/pkg/ani/acceptance_plan.go:391-539 | the invariant holds after every sequence of actions from any cluster and any ledger directory |
| `Safety.AtMostOneDelete` | kubekey/pkg/ani/acceptance_plan.go:391-487 | over every interleaving of any number of attempts, crashes and power losses, two delete requests for the same ledger file are the same request |
| `Safety.IntentIsDurableFirst` | kubekey/pkg/ani/acceptance_plan.go:421-469 | the step that sends a request finds on disk a flushed, still open record that names exactly the uid the request carries |
| `Safety.IntentStaysDurable` | kubekey/pkg/ani/verify.go:966-1050 | at every later point of the run both the visible and the flushed record still name that uid |
| `Authorisation.FindRead` | kubekey/pkg/ani/acceptance_plan.go:247-356 | whatever read of the authorisation an attempt is past, its run contains the step at which this attempt made it, and the fact read then is the one it still holds: owner name, controlling flag and owner uid of the pod, live controller uid, claim uid, the claim's volume, the volume's claimant, mounts, node uid |
| `Authorisation.ReadsInOrder` | kubekey/pkg/ani/acceptance_plan.go:277-348 | an attempt makes these reads in the order the program lists them |
| `Authorisation.OnlyTheAuthorisedPod` | kubekey/pkg/ani/acceptance_plan.go:247-356 | whenever anything but the cluster's own actors changes or removes a pod, it is the server answering a request of an attempt that made every read its declaration asks for, and each read that looked at a pod found that very pod at the name |
| `Safety.ReplacementSurvives` | kubekey/pkg/ani/pod_delete.go:147-182 | a pod whose uid no pending request names is left as it is by every action of the program and the server |
| `Safety.AnswersMean` | kubekey/pkg/ani/pod_delete.go:147-182 | the conditional delete is accepted exactly when the server admits it and the named pod still has the named uid, which is then gone or marked; conflict, not found, forbidden and server error each mean exactly one thing, and change no pod |
| `Safety.RefusedRemovedNothing` | kubekey/pkg/ani/acceptance_plan.go:457-487 | a record that says refused belongs to an attempt that sent nothing or whose request the server rejected, now and in every continuation of the run |
| `Replacement.FindReplacement` | kubekey/pkg/ani/acceptance_plan.go:584-620 | every attempt whose polling loop returned has in its run a uid read and a later Ready read: the delete was accepted before the first, the old pod stands at no moment from it on, and the Ready status is of the pod whose uid was read exactly when that pod stood at the name at every moment between the two |
| `Replacement.DoneWasReplaced` | kubekey/pkg/ani/acceptance_plan.go:489-538 | a record that says done has these two reads behind it, its request named the recorded old uid and was accepted, and its new uid is the one read |
| `Safety.NoDeleteOnceRecorded` | kubekey/pkg/ani/acceptance_plan.go:410-441 | from any state with a recorded file and no living owner, no run whatsoever sends another delete for it, and the file stays recorded |
| `Safety.RunExtends` | kubekey/pkg/ani/acceptance_plan.go:391-539 | over every continuation of a run no attempt or request disappears, ended attempts stay as they ended, answered requests stay answered |
| `Persistence.EndedIsSettled` | kubekey/pkg/ani/acceptance_plan.go:380-441 | an attempt that claimed its file and then ended in any way, a crash included, leaves exactly the state from which no further delete is reachable |
| `Persistence.PassMeans` | kubekey/pkg/ani/acceptance_plan.go:421-539 | a passing recreation has a flushed done record with its own uids and token, an accepted delete of the authorised uid, after that a read of the recorded new uid, after that a Ready read that is not the old pod's, and for a claim target after that a read of the claim with its uid unchanged |
| `Gates.PassWentThroughAllGates` | kubekey/pkg/ani/acceptance_plan.go:443-538 | every passing run contains, in this order, the write through the protocol, the recheck that found the authorised pod at the name, the one conditional request, its acceptance, a Ready read, for a claim target the second read of the claim with its first uid, the target's own check answered yes, and the read-back of the attempt's token |
| `Gates.SentAfterRecheck` | kubekey/pkg/ani/acceptance_plan.go:443-469 | every request ever sent was preceded by a write of its attempt and, after that, by a recheck that found the requested uid at the requested name; it names a pod and a uid |
| `Verdicts.EndedBecauseIff` | kubekey/pkg/ani/acceptance_plan.go:391-539 | in every run an attempt that ended did so for a given reason exactly when one of its calls decided for it, by a table that says for each reason where the attempt stood, what it asked and what it found |
| `Verdicts.FailedCheckNeverPasses` | kubekey/pkg/ani/acceptance_plan.go:516-522 | an attempt whose check after the recreation failed never passes, whatever the data say |
| `Verdicts.RecordSays` | kubekey/pkg/ani/acceptance_plan.go:443-538 | at every later point the visible and the flushed record of an ended attempt are still the open intent or say, in state, outcome and uids, what the deciding call calls for: conflict, forbidden, not found, timeout, server error, cancelled, not ready and the rest each in its own way |
| `Persistence.PresentTokenNeverLeft` | kubekey/pkg/ani/acceptance_plan.go:443-455 | a token that is in the data at the end of a run was there at every point since it was written, because nobody else can write it |
| `Persistence.FindReadBack` | kubekey/pkg/ani/acceptance_plan.go:524-538 | every passing run contains the step at which the attempt's own token was found in the data, after the delete was accepted |
| `Persistence.TokenSurvivedTheRebuild` | kubekey/pkg/ani/acceptance_plan.go:443-538 | in a passing recreation the token written before the delete is the one read back after the Ready read and was in the data at every moment in between |
| `Persistence.ReadyMayBeAThirdPod` | kubekey/pkg/ani/acceptance_plan.go:584-620 | from every state about to read readiness there is a run whose Ready reading is of a pod that is neither the old one nor the one whose uid is recorded |
| `Completeness.UnspentBudgetCanPass` | kubekey/pkg/ani/acceptance_plan.go:391-539 | on every site whose cluster matches the declaration, be it a named pod or the daemon pod of a node, with a claim or with a host path, and whose ledger file is absent, a new attempt has a run on which it passes |
| `Budget.LockedBudgetNeverPasses` | kubekey/pkg/ani/acceptance_plan.go:410-441 | from a state in which the file is visible, flushed and not being created, no attempt started later on that file passes in any run, whoever else is alive |
| `Budget.UnlockedBudgetCanPass` | kubekey/pkg/ani/verify.go:966-1015 | from every other state of a matching site a new attempt has a run on which it passes |
| `Budget.SpentIffLocked` | kubekey/pkg/ani/acceptance_plan.go:380-381 | hence no run lets a new attempt pass exactly when the file is visible, flushed and not being created |
| `Budget.SecondCallCanPass` | kubekey/pkg/ani/verify.go:996-1013 | from every matching site with an unspent budget a run on which one attempt has its intent on disk and gives up, and another attempt then passes on the same file |
| `Attainability.DeclaredCanPassIff` | kubekey/pkg/ani/acceptance_plan.go:300-354 | a completely declared target has some site and run on which it passes exactly when it is a daemon pod, or a pod by a non-blank name with a claim |
| `Attainability.UnattainableNeverPasses` | kubekey/pkg/ani/acceptance_plan.go:541-570 | a completely declared target of the other kind passes on no site and in no run |
| `Driver.MoveGetsOn` | kubekey/pkg/ani/acceptance_plan.go:391-539 | every move of a live attempt brings it nearer to its end, however its call turns out |
| `Driver.DriveIsARun` | kubekey/pkg/ani/acceptance_plan.go:391-539 | driving an attempt is a run of the protocol, for every fate of its calls, and the attempt ends |
| `Driver.DriveTurns` | kubekey/pkg/ani/acceptance_plan.go:391-539 | driving is: others act, the attempt makes the one move it has where it stands, and on from there |
| `Driver.AroundTakesAll` | kubekey/pkg/ani/acceptance_plan.go:391-539 | nothing that others may do before a call is kept from happening, short of a power loss or a move of the attempt itself |
| `RecreateOnce.Site.AuthorizeTarget` | kubekey/pkg/ani/acceptance_plan.go:247-356 | the authorisation as the program makes it, read by read with others acting in between, ends authorised or refused exactly as the protocol's attempt does |
| `RecreateOnce.Site.PeekLedger` | kubekey/pkg/ani/acceptance_plan.go:220-236 | a look at the ledger changes nothing and sends the attempt on only when no record is there |
| `RecreateOnce.Site.ClaimLedger` | kubekey/pkg/ani/verify.go:966-1015 | exclusive create, then flushed write, others acting in between: owned and durable, refused with the record that is there, or failed |
| `RecreateOnce.Site.FinalizeLedger` | kubekey/pkg/ani/verify.go:1020-1050 | closing the record ends the attempt with its verdict, and turns a pass into a failure when the record could not be closed |
| `RecreateOnce.Site.DeletePodWithUIDPrecondition` | kubekey/pkg/ani/pod_delete.go:147-182 | one conditional request and the outcome its answer lets the program conclude: accepted, refused, or unknown |
| `RecreateOnce.Site.WaitForReplacedPod` | kubekey/pkg/ani/acceptance_plan.go:584-620 | the polling loop ends with a different uid seen and a Ready reading, or leaves unknown in the ledger, on the way to the same end as the driven attempt |
| `RecreateOnce.Site.CheckAfterRecreation` | kubekey/pkg/ani/acceptance_plan.go:516-522 | the attempt goes on to the read-back exactly when the check succeeded, and otherwise closes as done with a changed identity |
| `RecreateOnce.Site.RecreateOnce` | kubekey/pkg/ani/acceptance_plan.go:391-539 | whatever others do, the site ends exactly where the driven attempt does for the same fate; the run only grows, so earlier attempts and requests are still there; a pass is reported exactly when the attempt passed; the reported budget is the state of the closed record, with two named exceptions, or, when refused for quota and alone, of the record that was met; when alone it changes no file but its own, nothing before its claim, and is refused for quota only if the file was already there |
| `AcceptancePlan.Preflight` | kubekey/pkg/ani/acceptance_plan.go:679-720 | accepts exactly when every step has work, mutating targets are distinct, declared, complete, readable and unspent, and dependencies are declared; it changes nothing either way |
| `AcceptancePlan.DeclaredKinds` | kubekey/pkg/ani/acceptance_plan.go:541-570 | the completely declared targets are exactly: a pod by name or the pod of a node, with a claim or, for a daemon, a directory, a protocol, and a workload with a name in a namespace |
| `AcceptancePlan.RunStep` | kubekey/pkg/ani/acceptance_plan.go:117-158 | the work starts exactly when the run is not cancelled and the target is declared; the step passes exactly when it started, the work succeeded (a recreation as its attempt ended) and no deadline of its own was missed; it is not_run exactly when cancelled; its attempt is one whole recreation and stays on record |
| `AcceptancePlan.RunPlan` | kubekey/pkg/ani/acceptance_plan.go:625-648 | one result per step in order; step j starts exactly when every earlier step passed, nothing was cancelled and its target is declared, and passes or is not_run exactly as RunStep says; the run at the site only grows, every attempt stays on record as it ended, each ledger file sees at most one delete over all steps; when alone the files added are those of steps that reached their claim |
| `AcceptancePlan.FirstStopStopsAll` | kubekey/pkg/ani/acceptance_plan.go:625-648 | the results are passes, at most one other result, then only not_run, and nothing starts after the first stop |
| `AcceptancePlan.PlanPassesIff` | kubekey/pkg/ani/acceptance_plan.go:117-158 | all steps pass exactly when each one's work was done in time and nothing was cancelled before the last |
| `AcceptancePlan.NoQuotaRefusal` | kubekey/pkg/ani/acceptance_plan.go:410-441 | after an accepted preflight, with distinct files and no other attempt, no step is refused for quota |
| `AcceptancePlan.SharedFilePassesOnce` | kubekey/pkg/ani/verify.go:354-363 | of two steps whose targets share a ledger file the later one never passes once the earlier reached its claim |
| `Targets.AcceptedPlanMayShareAFile` | kubekey/pkg/ani/acceptance_plan.go:679-720 | for every base run, a plan and a registry that preflight accepts and whose two targets share a ledger file |
| `Targets.DistinctFilesIffKeys` | kubekey/pkg/ani/verify.go:354-363 | the targets of a plan have a ledger file each exactly when their ledger keys differ, whatever the base run |
| `Targets.FileName` | kubekey/pkg/ani/verify.go:350-363 | a ledger file is named by the base run and the trimmed token, or the controller when the token is blank |
| `Targets.SameFileAcrossRuns` | kubekey/pkg/ani/verify.go:354-363 | targets of two base runs share a file exactly when run id, dash and key read the same |
| `Targets.RunsMayShareAFile` | kubekey/pkg/ani/verify.go:354-363 | two base runs and two different keys that share a file |
| `Targets.ShippedFilesAreApart` | kubekey/pkg/ani/verify.go:200-240 | shipped targets share a file exactly when base run and target are the same |
| `Targets.ShippedTargetsAreSound` | kubekey/pkg/ani/verify.go:200-240 | every target the program ships is declared completely and has its registry key as its ledger key |
| `Targets.ShippedPlanHasItsBudgets` | kubekey/pkg/ani/verify.go:200-240 | an accepted plan over the shipped targets has a file per target in every base run, and none of its steps is refused for quota |
| `AcceptancePlan.PlanOverall` | kubekey/pkg/ani/acceptance_plan.go:165-206 | the component passes exactly when there is a step and all pass; otherwise the first failure is the one reported |
| `AcceptancePlan.PassedPlanDidEverything` | kubekey/pkg/ani/acceptance_plan.go:165-206 | a passing component started every step and every recreation in it passed |
| `ClosureTheory.ScopeTheorem` | kubekey/pkg/ani/components_install.go:401-475 | for every finite dependency graph the walk succeeds exactly when something is requested and every reachable id is known, enabled, storage-feasible and has only declared dependencies; it then lists exactly the reachable ids, each once |
| `ClosureTheory.RefusalsMean` | kubekey/pkg/ani/components_install.go:401-467 | every refusal names its reason: nothing was asked for, or something reached is unknown, deferred, not enabled, without storage, or leans on something undeclared |
| `ClosureTheory.AcyclicOrder` | kubekey/pkg/ani/components_install.go:401-475 | in an acyclic table every dependency stands before its dependent |
| `ClosureTheory.ScopeReproducesIff` | kubekey/pkg/ani/components_install.go:401-475 | resolving a list of admissible ids gives the same list back exactly when its dependencies come first |
| `ClosureTheory.ScopeIdempotent` | kubekey/pkg/ani/components_install.go:401-475 | resolving a resolved scope is the identity in an acyclic table |
| `ClosureTheory.CycleIsNotIdempotent` | kubekey/pkg/ani/components_install.go:401-475 | a two-component ring whose scope comes back in the other order |
| `Resolver.Visit.AddName` | kubekey/pkg/ani/components_install.go:408-452 | the recursive closure that mutates seen and scope computes the specification's walk, errors included |
| `Resolver.ComponentsScope` | kubekey/pkg/ani/components_install.go:401-475 | the imperative resolution returns exactly what the walk specification gives; over the product's table milvus on a rustfs site comes with cert-manager and rustfs before it, all enabled, and elsewhere alone |
| `Resolver.ProductScope` | kubekey/pkg/ani/components_install.go:79-104 | over the product's table, with no word of a graph: resolution succeeds exactly when something is asked for and every requested component and fixed prerequisite is known, enabled and has storage if it needs any; it lists exactly these, prerequisites first |
| `Resolver.ValidatePlanClosure` | kubekey/pkg/ani/components_install.go:359-397 | accepts exactly when statuses are legal, planned names are rows, and the rows are distinct, resolvable and closed under dependencies; it then returns a permutation of the rows |
| `Resolver.FreshPlanIsClosed` | kubekey/pkg/ani/components_install.go:359-397 | a plan built from an unchanged acyclic config is always accepted, rows in the same order |
| `Resolver.GrowthIsRefused` | kubekey/pkg/ani/components_install.go:359-397 | if the requested components reach anything new under the present config, the old plan is refused |
| `Resolver.ProductTableIsSound` | kubekey/pkg/ani/components_install.go:469-475 | the product's own table with the milvus to rustfs edge is acyclic and well formed, whatever is enabled |
| `Record.ValidateShape` | kubekey/pkg/ani/components_record.go:354-541 | the reader's loops and counters accept exactly the records whose identity, digests, targets, lists, statuses and evidence are mutually consistent |
| `Record.HeaderFieldByField` | kubekey/pkg/ani/components_record.go:354-416 | for every accepted record, exactly which value may replace each field of its header |
| `Record.LinkFieldByField` | kubekey/pkg/ani/components_record.go:380-416 | and each field of its link to the base |
| `Record.AcceptedTargetsAreIdentified` | kubekey/pkg/ani/components_record.go:417-520 | every target of an accepted record is identified, is listed exactly under its status, has a uid if done, and is done if the record says succeeded |
| `Record.CheckTargets` | kubekey/pkg/ani/components_record.go:417-452 | accepts exactly well-formed, distinct targets, and counts tell whether any was executed or observed |
| `Record.CheckEvidence` | kubekey/pkg/ani/components_record.go:521-539 | accepts exactly well-formed evidence that, for a success, holds a plan and a report |
| `RecordWriter.NewManifest` | kubekey/pkg/ani/components_record.go:126-253 | every field of the record comes from its own input: plan, live observation, base record or targets; an add with nothing executed is relabelled as a no-op and nothing else is; it refuses in exactly the specified cases |
| `RecordBase.ValidateExecutionBase` | kubekey/pkg/ani/components_record.go:546-612 | the comparison at consumption accepts exactly when the base record's digest, run id, cluster, config digest and cluster uid, every evidence file and the live cluster are those the record names |
| `RecordBase.BuiltExtendsItsBaseOnly` | kubekey/pkg/ani/components_record.go:232-247 | a built record stands this comparison against exactly the base it was built on |
| `RecordWriter.WriterReaderAgree` | kubekey/pkg/ani/components_record.go:126-253 | every record the builder returns is accepted by the reader exactly when its inputs were well formed and, for a success, every target is confirmed and plan and report evidence are there |
| `RecordWriter.AcceptedSuccessGrants` | kubekey/pkg/ani/components_record.go:620-640 | an accepted success yields a non-empty scope equal to the targets that carry the matching status, each with a uid; a no-op never allows mutation |
| `RecordWriter.RecordTargets` | kubekey/pkg/ani/components_record.go:646-687 | one target per row in order, with the kind, name and namespace of its component and its trimmed uid, degraded to unknown exactly when it claims to be done without one |
| `RecordWriter.SucceededRunIsConsumableIff` | kubekey/pkg/ani/components_record.go:141-175 | for a sound run with at least one readable uid, the record is built, and consumable exactly when every uid could be read |
| `RecordWriter.ConfirmedRunGrantsItsRows` | kubekey/pkg/ani/components_record.go:620-687 | when every uid is readable the granted scope is exactly the planned rows and allows mutation, or for a no-op exactly the observed rows and does not |
| `RecordWriter.FailedRunGrantsNothing` | kubekey/pkg/ani/components_install.go:1783-1805 | whatever record a failed run writes, it grants no scope |
| `Execute.PreflightOwnership` | kubekey/pkg/ani/components_install.go:887-951 | one row per component in order: planned exactly when its object is definitely absent, already installed exactly when it is this cluster's own deployed release of the expected chart and version or its own workload; anything else, unreadable above all, refuses the call |
| `Execute.PassGates` | kubekey/pkg/ani/components_install.go:1209-1501 | passes exactly when every external gate does, the plan's header is well formed, site, base, live cluster, materials and binary are those the plan is bound to, the plan is closed under the present config, and every row's status is freshly re-observed |
| `Execute.RunComponentsExecute` | kubekey/pkg/ani/components_install.go:1316-1762 | with a failed gate nothing is written or run; otherwise the effects are exactly the full sequence as far as the run's own directories, files, project and report could be made, told effect by effect: a report says pass exactly for a good run, a record attempt follows every report, and success is returned exactly when the record of a good run landed |
| `Execute.PlaybookScopeIsSafe` | kubekey/pkg/ani/components_install.go:1503-1656 | the playbook gets exactly the planned rows, each definitely absent when re-observed under the lock, and every dependency of one is among them or this cluster's own |
| `Execute.PlaybookAtMostOnce` | kubekey/pkg/ani/components_install.go:1503-1656 | the playbook runs at most once and never when nothing is planned |
| `Execute.FailedRecordGrantsNothing` | kubekey/pkg/ani/components_install.go:1783-1805 | when playbook or connection aggregation failed, the record is marked failed, names every planned row as failed, and grants nothing |
| `Execute.RecordNamesWhatRan` | kubekey/pkg/ani/components_install.go:1316-1805 | whatever became of the run, its record names the runner, config, materials and cluster that were checked, the base it extends, and evidence with the digests of the files themselves |
| `Execute.GatesMakeItSound` | kubekey/pkg/ani/components_install.go:1209-1501 | what passing the gates establishes is all that the record's reader asks for, but for what no gate looks at: the base run id, the build's identity and readable evidence |
| `Execute.SuccessfulAdditionIsGranted` | kubekey/pkg/ani/components_install.go:1656-1762 | a successful addition with readable uids leaves a record the reader accepts and whose granted scope is what the playbook was given |
| `Execute.SuccessfulNoopIsGranted` | kubekey/pkg/ani/components_install.go:1528-1568 | a no-op with readable uids leaves a record the reader accepts, which grants exactly the observed rows, all rows of the plan, and no leave to change |
| `RunDirs.ClaimsAreDistinct` | kubekey/pkg/ani/components_install.go:1137-1157 | in every interleaving of any number of planners no two hold the same run id |
| `RunDirs.ExhaustedMeansFull` | kubekey/pkg/ani/components_install.go:1142-1157 | a planner runs out of ids only when all hundred of its ids, which are different, are directories |
| `RunDirs.NothingOverwritten` | kubekey/pkg/ani/components_install.go:1107-1129 | directories are never removed and a plan file nobody is writing is never written again, over every continuation |
| `RunDirs.OutputDirectory.ClaimComponentsRunDir` | kubekey/pkg/ani/components_install.go:1137-1157 | undisturbed, a call claims the first free id and creates only that directory, unless it cannot be created or all are taken |
| `RunDirs.AloneStands` | kubekey/pkg/ani/components_install.go:1137-1157 | a planner of the interleaved model that is left to itself ends as the call does: with the first free id, failed where that id cannot be created, or exhausted after a hundred tries |
| `ConfigHeap.Store.DeepCopy` | kubekey/builtin/core/upgrade_path.go:225 | the copy stands for the same tree, shares no cell with anything and none with itself, and changes nothing that was there |
| `ConfigHeap.Store.SetNestedField` | kubekey/builtin/core/upgrade_path.go:226-228 | the write in place sets the path, writes only to the value's own cells, and fails exactly when a plain value is in the way, changing nothing |
| `ConfigHeap.Store.CombineConfigMaps` | kubekey/builtin/core/upgrade_path.go:336-353 | in whatever order keys come, the result stands for the deep merge and neither input, nor anything else in memory, is written to |
| `ConfigHeap.Store.BuildUpgradeStepConfig` | kubekey/builtin/core/upgrade_path.go:224-242 | a hop's configuration is built exactly when the specification has one and stands for it; everything that was in memory before, the terminal configuration first of all, is unchanged |
| `ConfigTree.MergeReadsSource` | kubekey/builtin/core/upgrade_path.go:336-353 | at every path the source defines, the merge reads the source's value, merged into the base's where both are mappings |
| `ConfigTree.NotAMapIff` | kubekey/builtin/core/upgrade_path.go:189-197 | a nested read fails exactly on a way through something that is neither a mapping nor null |
| `ConfigTree.MergeKeepsBase` | kubekey/builtin/core/upgrade_path.go:336-353 | at every path the source neither defines nor blocks, the merge reads the base |
| `ConfigTree.MergeIsSourceIff` | kubekey/builtin/core/upgrade_path.go:336-353 | the merge is the source alone exactly when the base defines nothing the source leaves open |
| `ConfigTree.RegroupsIff` | kubekey/builtin/core/upgrade_path.go:336-353 | three merges regroup exactly when no plain value in the middle hides part of a mapping |
| `Overlay.UpgradeVersionOverlay` | kubekey/builtin/core/upgrade_path.go:178-202 | the loop over paths builds exactly the specified overlay or fails with it |
| `Overlay.PickTheorem` | kubekey/builtin/core/upgrade_path.go:188-201 | for independent paths the overlay exists exactly when no listed path runs through a non-mapping; it reads what the defaults define at every listed path and holds nothing else |
| `VersionPaths.AllowListIndependent` | kubekey/builtin/core/upgrade_path.go:136-169 | no entry of the allow-list lies on the way to another or to kube_version |
| `UpgradeConfig.HopBuildsIff` | kubekey/builtin/core/upgrade_path.go:224-242 | a hop can be built exactly when kubernetes is a mapping or absent and, before the final hop, minor, defaults and listed fields are readable |
| `UpgradeConfig.HopReads` | kubekey/builtin/core/upgrade_path.go:224-242 | for every config and defaults, every hop reads its own kube_version; the final one reads the terminal value everywhere else; an intermediate one reads its defaults' value at every allow-listed path they define, merged into the terminal value where both are mappings, and the terminal value at every path not comparable with these |
| `UpgradeConfig.HopReadsExactlyIff` | kubekey/builtin/core/upgrade_path.go:136-242 | the hop reads the defaults' very value exactly when the terminal config defines nothing below it that the value leaves open, hence for every plain value |
| `UpgradeConfig.ValidateTerminalVersions` | kubekey/builtin/core/upgrade_path.go:286-331 | the nested loops accept exactly when every listed field is readable and no intermediate overlay asks for more than a pinned field |
| `UpgradeConfig.GuardMeans` | kubekey/builtin/core/upgrade_path.go:224-331 | the guard accepts exactly when every listed field is readable and, in the configurations actually built, no pinned component stands higher at an intermediate hop than at the final one |
| `UpgradeConfig.RisesIff` | kubekey/builtin/core/upgrade_path.go:224-331 | in an accepted upgrade a pinned component never falls from hop to hop exactly when no later default asks for less than an earlier hop did, hops without a default counting as the pin |
| `UpgradeConfig.PrefixRises` | kubekey/builtin/core/upgrade_path.go:224-331 | if the hops that give a default come first and their versions parse and do not fall, the component does not fall over the whole upgrade |
| `UpgradeGap.GapFalls` | kubekey/builtin/core/upgrade_path.go:286-331 | an accepted upgrade in which etcd goes 3.6, 3.5, 3.6 |
| `ShippedDefaults.AtRises` | kubekey/builtin/core/roles/defaults/vars/v1.37.yaml:1-83 | every field of the shipped table, by its type, asks for no less from any minor to a later one |
| `ShippedDefaults.ComputedStepsAreConsecutive` | kubekey/builtin/core/upgrade_path.go:99-117 | the steps computed between shipped minors go through consecutive ones |
| `ShippedDefaults.ShippedUpgradeRises` | kubekey/builtin/core/upgrade_path.go:224-331 | with the shipped defaults, in every accepted upgrade through consecutive shipped minors every pinned component rises from hop to hop |
| `Versions.VersionsArePreordered` | kubekey/builtin/core/upgrade_path.go:258-263 | version precedence is a total preorder |
| `Versions.Precedence` | kubekey/builtin/core/upgrade_path.go:258-263 | section 11 of Semantic Versioning 2.0.0: numbers in order, a pre-release before its release, then the first differing identifier, numbers before text, and the longer list last |
| `Versions.ComparisonSwaps` | kubekey/builtin/core/upgrade_path.go:258-267 | swapping the sides always reverses the verdict, whichever comparison was used |
| `Versions.ComparisonChains` | kubekey/builtin/core/upgrade_path.go:258-267 | verdicts chain when all three strings parse, and when none does |
| `Versions.ChainsIff` | kubekey/builtin/core/upgrade_path.go:258-267 | on a set of strings the comparison is transitive exactly when no unparseable string lies, as text, between two versions in the wrong order |
| `Versions.MixedDoesNotChain` | kubekey/builtin/core/upgrade_path.go:264-266 | "10", "5x" and "9" form a cycle |
| `Minors.KeyRoundTrip` | kubekey/builtin/core/upgrade_path.go:357-364 | parsing a printed minor key gives the minor back, for every 64-bit minor |
| `Minors.VersionMinor` | kubekey/builtin/core/upgrade_path.go:357-384 | both readers find minor N in "v1.N" followed by nothing or a dotted rest |
| `Minors.SuffixIgnored` | kubekey/builtin/core/upgrade_path.go:376-392 | a vendor's suffix on the minor is overlooked |
| `Minors.AtoiReads` | kubekey/builtin/core/upgrade_path.go:357-364 | decimal digits with an optional sign are read as the number they spell, and nothing outside 64 bits |
| `UpgradePath.ComputeUpgradeSteps` | kubekey/builtin/core/upgrade_path.go:99-117 | fails exactly on a downgrade or a gap; otherwise the recommended patch of each minor in between, in order, then the requested version |
| `UpgradePath.StepsRiseByOne` | kubekey/builtin/core/upgrade_path.go:99-117 | with each entry of its own minor, the i-th of target minus current steps is of minor current + 1 + i |
| `UpgradePath.MergeDefaults` | kubekey/builtin/core/upgrade_path.go:57-66 | in whatever order defaults are visited: user entries stay, absent default minors are filled in, nothing else is added |
| `UpgradePath.Config.MergeKubeUpgradePathDefaults` | kubekey/builtin/core/upgrade_path.go:52-68 | seeds the config in place, or fails and changes nothing, exactly when the path is unreadable or a non-mapping stands in the way |
| `UpgradePath.SeededReads` | kubekey/builtin/core/upgrade_path.go:52-68 | seeding changes the upgrade path and no path that is not comparable with it |
| `UpgradePath.ReadPathMeans` | kubekey/builtin/core/upgrade_path.go:52-88 | the path reads as the mapping of strings that is there, as empty where nothing is, and cannot be read exactly when something else stands there or a parent is neither null nor a mapping |
| `UpgradePath.SeedIdempotent` | kubekey/builtin/core/upgrade_path.go:52-68 | seeding a seeded config changes nothing |
| `UpgradePath.SeedThenRead` | kubekey/builtin/core/upgrade_path.go:52-88 | with canonical user keys, seed then read gives the user's patch for a minor where there is one, else the default, else nothing |
| `UpgradePath.Config.EffectiveKubeUpgradePath` | kubekey/builtin/core/upgrade_path.go:74-88 | fails exactly when the path is unreadable or some key names no minor; otherwise each named minor carries the patch of a key that names it |
| `UpgradePath.EffectiveDeterminedIff` | kubekey/builtin/core/upgrade_path.go:74-88 | the result is independent of the order of keys exactly when no two keys give one minor different patches |

## Left out

- kubectl, SSH, HTTP, the registry, Helm payloads, JSON and YAML: their results are arbitrary inputs of the model (pod reads, probes, parsed trees, gate verdicts).
- Error texts, printing, timestamps, evidence strings, digests of files: verdicts are modelled, their wording is not; digests are opaque strings.
- Uids and persistence tokens are numbers. A token is fresh by construction, where the code draws eight random bytes.
- The component-specific write, post-recreation check and read-back of a plan step: each may fail at any time, and the data they touch is a set of (ledger key, token) pairs.
- The `wroteToken` flag of the attempt: it is set on a per-step copy, so nothing is stated about it.
- The listing behind a daemon pod's name: any name it may return is allowed, none is checked against the selector or the node.
- `Execute.RunComponentsExecute`: gates that look at files, hosts or the live cluster (reading and parsing, the product lock, node readiness, CNI health, image content) are opaque verdicts; that all of them precede every effect is modelled.
- `findPriorExecutionRecord`: which earlier record it finds for a component is an input; that the record of a no-op lists it is modelled.
- `WriteComponentsExecutionRecord`: writing may fail as a whole. Reading the base record and its run state from disk: whether it is that of a first install is an input of `RecordBase.ValidateExecutionBase`.
- `compareBaseInvariants` and `object_storage.go`: comparisons of one field with another, with no state and no order of their own.
- YAML number types: the deep copy behind nested writes panics on machine integers; allow-listed fields are strings in every shipped defaults file.
- Semantic-version string syntax: the parser is a parameter of the comparison. Guard theorems only ask that the empty string does not parse, and `ShippedDefaults.ShippedUpgradeRises` that the shipped strings parse as the versions they spell.
- `Minors.VersionMinor`: states the readers on well-formed versions; on other strings `Minors.ParseMinor` and `Minors.MinorOfVersion` are defined as in the source, with bytes taken as characters.
- `RunDirs.ClaimsAreDistinct`: the run records written into a claimed directory are not part of this model.
