# Verification of the GreptimeDB operator's control logic

This project models the part of the GreptimeDB operator that decides: the reconcile
protocol of a cluster, the two mechanisms that switch the metasrv's maintenance mode, the
apply loop, the merge of configuration documents, node ids, defaulting, clean-up of storage,
readiness and status conditions. `dafny verify dfyconfig.toml` checks all of it.

## How it is organised

- `Text`, `Names`, `Resources`: decimal text and splitting, derived names, Kubernetes objects.
- `Apply`: the apply loop over an abstract API server whose calls may fail, also after taking effect.
- `Machine`: the protocol as a state machine. One step is one observable action: a read, a status
  write, a create or patch, a maintenance call, one action of a user or of the cluster around it.
  Any number of clusters, interleaved in any way. What is persisted is kept apart from the copy in
  memory, because some failed status writes are only logged.
- `Histories`, `Invariants`, `Maintenance`, `Calm`, `Judgement`, `Errors`, `Theorems`: what a history
  allows, the inductive invariants, what single steps can lead to, and the guarantees over all runs.
- `Failures`, `Records`, `Successes`, `Applied`, `Deletion`: which answers are failures and what they end, what
  each recorded event comes from, what a recorded success stands for, and deletion to its end.
- `Reconciler`: the reconcile loop as a program, in the form the controller and the deployers have,
  proved to do what the machine does; `Progress`: what a healthy pass achieves, and two runs that
  show what it does not; `ApplyLoop`: the apply loop within a pass is that of `Apply`; `Abstraction`: how a
  full spec is seen by the protocol.
- `Improvement`, `HealthyPasses`, `Schedules`, `Convergence`, `PassesEnd`: what passes without failures make
  of the stored objects, step by step and over all schedules of them; that they end, and that such schedules
  exist.
- `Toml`, `Config`, `MergeErrors`, `ConfigTables`: documents, the merge and its path-wise specification, when it
  fails, the tag tables.
- `Merging`, `Defaults`, `Filling`: defaulting, and what it makes of each part of a spec.
- `NodeIds`, `Readiness`, `Conditions`, `Storage`: one module per concern.

Every lookup, write and call takes its outcome from a parameter; clocks, hostnames and secrets are
parameters too. Where the program loops or changes state, so does the model, and each such method is
proved against a function whose properties are proved separately.

## Where the code differs from what one would expect

The model follows the code in each case.

- An error from the deployers never sets phase Error: the deferred handler sees only the errors of
  the steps before them (`Errors.ErrorExactly`, `Theorems.PhaseSafety`).
- A fully ready pass does not leave phase Error (`Progress.RunningExactlyUnlessError`). If Error is
  written during creation, the metasrv stays in maintenance however many healthy passes follow
  (`Progress.ErrorIsForGood`); only a pass that is not ready leads back to Starting
  (`Theorems.ErrorHoldsMaintenance`).
- The comment above `mergeConfig` says that the struct has priority; that holds only for the
  operator-first strategy. `SetDefaults` always selects the other one, whatever the user chose.
- Agreement of flag and metasrv needs the user to keep region failover on while the flag is armed
  (`Progress.AgreementFailsWithoutTheHook`).
- A frontend group's surge given as a number becomes `25%`, and a datanode group's replicas of zero
  become one, because groups are merged without the rules that protect the ungrouped components.
- WAL and cache claims of datanode groups are never deleted. An ungrouped datanode with an empty
  directory makes clean-up return before it looks at them.
- Deleting a cluster can delete the retained data of another one whose name extends its own, or of
  its own if user labels pass a claim off as another (`Storage.RetentionExactly`, `Storage.RelabelledClaimIsLost`).
- An input key named `,inline` makes the merge skip every embedded struct (`Config.MergeIsWholeExactly`).
- `SetCondition` edits the update time of a copy, so a repeated condition leaves the list as it was.

## Model

| member | source | states |
|---|---|---|
| Theorems.MaintenanceAgreement | controllers/greptimedbcluster/deployers/datanode.go:278-315 | In every reachable state of any number of clusters, Running or Updating means: metasrv in maintenance if and only if the datanode flag of that cluster is armed, whatever reads, writes and calls fail, as long as an armed cluster's stored spec keeps region failover and datanodes |
| Progress.AgreementFailsWithoutTheHook | controllers/greptimedbcluster/deployers/datanode.go:298-315 | That condition is needed: a concrete run that contains the edit switching failover off, and violates the condition, ends Running, armed, and not in maintenance |
| Theorems.AgreementLostExactlyAtClose | controllers/greptimedbcluster/controller.go:234-249 | Step by step: armed-implies-maintained is lost if and only if creation-time maintenance is closed successfully while the flag is armed |
| Theorems.ServingMaintenanceIsOwned | controllers/greptimedbcluster/controller.go:203-249 | Without any condition: a Running or Updating cluster in maintenance has its datanode flag armed, and its persisted creation-time flag is off |
| Theorems.RestartCoverage | controllers/greptimedbcluster/deployers/datanode.go:174-192 | Every StatefulSet patch that restarts pods, by the two templates that it records, happens in maintenance; the metasrv stays there until an OFF; each later OFF, of either path, is made by a later pass that patched no datanode object and saw every datanode StatefulSet fully ready before the call |
| Theorems.PatchesAreJudged | controllers/greptimedbcluster/deployers/datanode.go:174-182 | Every patch in a history records the pod templates that were compared before it, exactly if it is of a datanode StatefulSet with region failover on; unless the flag was armed, they agree but for the fields that restart no pod |
| Judgement.PatchesAreCompared | controllers/greptimedbcluster/deployers/datanode.go:278-296 | On the way to such a patch the generated template is compared with the one stored at that step, and the patch that is logged records these two |
| Theorems.ObservationsAreTrue | controllers/greptimedbcluster/deployers/datanode.go:257-276 | An observation recorded by a step is what the store held at that step |
| Theorems.SummaryIsExact | controllers/greptimedbcluster/controller.go:203-231 | The summary that the guards are stated with says exactly which deployers and clean-ups succeeded, whether a datanode object was patched and which StatefulSets were seen ready since the present pass began |
| Theorems.Alternation | controllers/greptimedbcluster/deployers/datanode.go:285-311 | The datanode deployer's calls for one cluster are ON, OFF, ON, ... strictly, and the flag is armed if and only if the last one is ON |
| Theorems.Isolation | controllers/greptimedbcluster/deployers/datanode.go:285-311 | No step of one cluster changes another cluster's resource, pass, flag, metasrv bit or history |
| Theorems.RolloutOrder | controllers/greptimedbcluster/controller.go:78-84 | An object is written only if every deployer before its own, in the order monitoring, metasrv, datanodes, frontends, flownodes, returned success in the same pass; what such a success stands for is said by SuccessIsEarned, SuccessMeansApplied and SuccessMeansReady |
| Theorems.PhaseSafety | controllers/greptimedbcluster/controller.go:127-249 | Every persisted phase change is an edge of the phase graph from the phase that was persisted; it is to Running if and only if all five deployers succeeded in that pass, so a fully ready pass makes no move out of Error; and it is to Error only in a pass in which no deployer has written, called, observed or succeeded |
| Errors.ErrorExactly | controllers/greptimedbcluster/controller.go:127-200 | A step leads to phase Error if and only if it is one of the four before the deployers that can fail (finalizer, validation, defaults, first phase) and it fails; a failure in a deployer, a status write or the deletion branch never does |
| Failures.FailureExactly | pkg/deployer/deployer.go:74-106 | At every point of a deployer, at the closing of creation and at the clean-ups: a step fails, by what is asked there and how it is answered, if and only if it ends the pass without the success of the last deployer; then resource, flag and metasrv bit stay as they were and nothing is recorded but a write that was not acknowledged |
| Failures.SetbackExactly | pkg/deployer/deployer.go:84-106 | A deployer that can still succeed in its pass loses that by exactly one step: one that fails, that finds an object stored differently, or that finds something unready |
| Successes.FailureEndsPass | controllers/greptimedbcluster/controller.go:203-231 | In every run, after a failure in a deployer, in the closing of creation or in a clean-up, nothing but edits is recorded until the next pass begins |
| Successes.FailureIsLast | controllers/greptimedbcluster/controller.go:203-249 | So whatever a pass records besides writes and edits (a success, a clean-up, a phase, a call, the release), no step of that pass before it had failed |
| Successes.SuccessIsEarned | controllers/greptimedbcluster/controller.go:203-249 | Before a success of a deployer, an OFF or phase Running is recorded, no step of any deployer in that pass failed, found an object that differs from what is desired, or found something unready |
| Successes.EveryEventArises | controllers/greptimedbcluster/controller.go:203-307 | Every event of a pass in every run was recorded by one step of it, at the point and with the answers that such an event needs |
| Applied.SuccessMeansApplied | pkg/deployer/deployer.go:112-146 | In every run, when a deployer has succeeded, each object that it generates for the spec of its pass was looked up earlier in that pass and was stored with the desired annotation and labels right after that step |
| Applied.SuccessMeansReady | controllers/greptimedbcluster/deployers/datanode.go:203-237 | And, if it has objects, its readiness check was answered with ready in that pass; for the datanodes every watched StatefulSet was observed in that pass with its latest generation rolled out and all replicas current and ready |
| Records.CallsExactly | controllers/greptimedbcluster/deployers/datanode.go:278-315 | A step switches maintenance on or off if and only if that is due and the call succeeds: on before a StatefulSet patch that restarts pods while the flag is clear, and when the metasrv of a cluster under creation is ready; off with the flag armed and failover on, and when creation ends |
| Records.StatusIsWritten | controllers/greptimedbcluster/controller.go:309-322 | At every point that writes the status: if the write takes effect the whole in-memory status is persisted with the phase due there, otherwise nothing changes |
| Records.FailedStatusIsIgnored | controllers/greptimedbcluster/deployers/meta.go:156-160 | How the status write of a deployer turns out has no bearing on where the pass goes from there, and never ends it |
| Records.EditsAreKept | controllers/greptimedbcluster/controller.go:159-171 | No step of a pass changes the stored spec, except by giving the stored one its defaults: an edit made meanwhile is never overwritten |
| Theorems.WatchedExactly | controllers/greptimedbcluster/deployers/datanode.go:203-237 | What the datanode check looks at is every StatefulSet among the desired datanode objects and nothing else |
| Theorems.UpdatedAtMostOnce | controllers/greptimedbcluster/controller.go:159-171 | Between two updates of the resource with its defaults somebody edited it, so an unedited cluster is updated at most once in any run |
| Abstraction.DefaultingIsSeen | controllers/greptimedbcluster/controller.go:159-171 | The defaulting step of the protocol is what SetDefaults does to the full spec, seen through the flags that the protocol keeps |
| Theorems.PersistedPhase | controllers/greptimedbcluster/controller.go:309-322 | The phase that a client reads is the one that the recorded changes lead to |
| Theorems.TerminatingAbsorbs | controllers/greptimedbcluster/controller.go:276-290 | After Terminating no phase change happens any more |
| Theorems.DeletionSafety | controllers/greptimedbcluster/controller.go:276-307 | The finalizer is removed only in a pass that began with the deletion timestamp set and Terminating persisted and in which all five clean-ups succeeded |
| Successes.ReleaseIsEarned | controllers/greptimedbcluster/controller.go:291-304 | The finalizer is removed only if the clean-up of the datanodes was answered with success in that pass; and no step of that pass failed |
| Deletion.CleanUpDatanodes | controllers/greptimedbcluster/controller.go:291-295 | The clean-up step of a deletion answered by the claim server: it is recorded and the pass goes on only if no claim is left that must go; otherwise a call failed, and the pass is over with everything as it was |
| Deletion.RefusedCleanUpKeepsFinalizer | controllers/greptimedbcluster/controller.go:291-295 | A refused clean-up of the datanodes ends the pass, keeps the finalizer and the rest of the resource, and is not recorded |
| Deletion.DeletionCompletes | controllers/greptimedbcluster/controller.go:276-307 | From every reachable state between two passes of a cluster that is being deleted and has the finalizer: two passes in which nothing is refused (one in phase Terminating) make it Terminating, clean up after the five deployers in order and release the finalizer, and the resource can vanish |
| Theorems.FinalizerGoesOnlyByRelease | controllers/greptimedbcluster/controller.go:263-307 | No other step takes the finalizer away, or the resource while the finalizer is there |
| Theorems.Always | controllers/greptimedbcluster/controller.go:115-307 | The inductive invariant of every cluster (persisted against in-memory status, flag, metasrv bit, progress of the pass, summary of the history) holds after every run |
| Theorems.AlwaysInMaintenance | controllers/greptimedbcluster/deployers/datanode.go:278-315 | With the hook kept, an armed flag means maintenance after every run and at every moment of its past |
| Invariants.InvKept | controllers/greptimedbcluster/controller.go:115-307 | Every action, of the pass or of the environment, keeps the invariant of its cluster and only adds to its history |
| Maintenance.GuardKept | controllers/greptimedbcluster/deployers/datanode.go:278-315 | Every action keeps armed-implies-maintained under the condition on the stored spec |
| Theorems.EventJustified | controllers/greptimedbcluster/controller.go:203-249 | Every event of every history was allowed by what preceded it |
| Progress.HealthyPass | controllers/greptimedbcluster/controller.go:115-249 | In every reachable state in which a pass has just read a cluster that is not being deleted and whose objects are in place, whatever finalizer, defaults or phase it still lacks: a pass without failures ends with exactly this resource, flag and metasrv bit; creation-time maintenance is over unless the phase read was Error or Running, and the hook clears an armed flag |
| Convergence.ConvergesInSixPasses | controllers/greptimedbcluster/controller.go:115-260 | From every reachable state between two passes of a cluster that is not being deleted, whatever is stored as long as no desired object is foreign and no two disagree, and after every schedule in which its own reads, writes and calls succeed, its StatefulSets that exist when a pass begins are ready, and others, among them the passes of other clusters, change only the live parts of its objects: once more passes have ended than deployers had something to do, which is after six of them at the latest, all objects of all deployers are in place; the phase then is Error if and only if it was Error, nothing had to be patched and the first of these passes saw nothing unready of what it had created; otherwise it is Running |
| Convergence.PassRuns | controllers/greptimedbcluster/controller.go:203-249 | What one such pass achieves, whatever is ready or not after its writes: if something had to be patched, or something that it created was seen unready, the phase says so and the objects of at least one more deployer are in place; otherwise those of all deployers are, and the phase is Running, or still Error |
| HealthyPasses.StepIsSteady | pkg/deployer/deployer.go:74-146 | Every step of such a pass keeps what must hold where it stands: each desired object is as the pass found it or as desired, those of earlier deployers are in place, until the first patch nothing but missing objects was written, what was seen unready was created in this pass, and the resource is what the steps so far make of it |
| HealthyPasses.OthersAreSteady | controllers/greptimedbcluster/controller.go:203-231 | What others do to the live parts of the objects within such a pass, without making a StatefulSet unready, keeps all of that |
| PassesEnd.EveryPassEnds | controllers/greptimedbcluster/controller.go:115-260 | In every such schedule a pass that is in progress ends after at most as many steps of its own as are computed from the lists of objects and the point it is at |
| PassesEnd.PassesFollow | controllers/greptimedbcluster/controller.go:115-260 | Such schedules exist: any number of passes can follow one another, each from its beginning to its end |
| ApplyLoop.ApplyStepIsApplyAll | pkg/deployer/deployer.go:112-146 | The apply step of a deployer within a pass, left alone, is one apply pass over its objects: for every list of replies, one for each object, the run goes on with exactly the steps that they make, object i being looked up, judged and written under reply i until one of them ends the pass, and it ends with the store and the result of the apply pass |
| Progress.RunningExactlyUnlessError | controllers/greptimedbcluster/controller.go:228-249 | Such a pass ends with Running persisted if and only if the phase it read was not Error; in Error the phase and the creation-time flag stay |
| Progress.ErrorIsForGood | controllers/greptimedbcluster/controller.go:234-249 | From any state in phase Error with everything in place, in maintenance and with the datanode flag clear, after every sequence of actions in which passes begin and their steps succeed, whole passes or not, the run so extended is still in such a state with the same creation-time flag |
| Theorems.ErrorHoldsMaintenance | controllers/greptimedbcluster/controller.go:206-249 | In every run and under every failure: once Error is written, the controller calls OFF again only after a pass that was not ready has led from Error back to Starting |
| Progress.ErrorKeepsMaintenance | controllers/greptimedbcluster/controller.go:127-158 | A run to such a state (a deployer fails during creation and the phase stays Starting, then validation fails and Error is written), and for every number of passes its extension by exactly that many whole healthy passes, after which the cluster is in Error with its metasrv in maintenance |
| Progress.Succeeding | pkg/deployer/deployer.go:74-106 | In every live phase one deployer whose objects are in place succeeds and changes only the maintenance state, in the stated way |
| Reconciler.Operator.Reconcile | controllers/greptimedbcluster/controller.go:115-201 | The reconcile program, with the environment acting and answering between any two of its steps: where it leaves the resource, the metasrv, the stored objects, the flag and the history is exactly where the state machine, fed the same answers, ends its pass |
| Reconciler.Operator.Sync | controllers/greptimedbcluster/controller.go:203-260 | The loop over the deployers with its early returns ends the pass as the machine does |
| Reconciler.Operator.SyncDeployer | pkg/deployer/deployer.go:74-106 | Generate, pre-sync, apply, check, post-sync: leads to the next deployer, to the not-ready branch or to the end of the pass |
| Reconciler.Operator.ApplyObjects | controllers/greptimedbcluster/deployers/datanode.go:151-195 | The apply loop with the maintenance decision before a StatefulSet patch: synced if nothing was patched, not ready if something was, over if a read, a call or a write failed |
| Reconciler.Operator.TryArm | controllers/greptimedbcluster/deployers/datanode.go:278-296 | ON is called only if the flag is clear and running pods would restart; the flag is armed only after the call; equals the machine's step |
| Reconciler.Operator.TurnOffMaintenanceMode | controllers/greptimedbcluster/deployers/datanode.go:298-315 | The flag is cleared only after the OFF call, and only with failover on; otherwise the hook does nothing |
| Reconciler.Operator.TryMeta | controllers/greptimedbcluster/deployers/meta.go:135-161 | ON at creation: only while Starting, ready and not yet in maintenance; a failed call ends the pass; equals the machine's step |
| Reconciler.Operator.TryStatus | controllers/greptimedbcluster/deployers/meta.go:156-160 | A failed status write of a deployer does not end the pass; equals the machine's step |
| Reconciler.Operator.CheckStatefulSets | controllers/greptimedbcluster/deployers/datanode.go:203-237 | The readiness loop over the datanode StatefulSets, one observation each, ready only if all are |
| Reconciler.Operator.TryFinalizer | controllers/greptimedbcluster/controller.go:263-274 | The finalizer is added only for a cluster with a meta spec; a refused update leads to phase Error |
| Reconciler.Operator.TryWait | controllers/greptimedbcluster/controller.go:206-226 | Not ready: Running becomes Updating, Error becomes Starting, other phases stay and nothing is written |
| Reconciler.Operator.CloseCreation | controllers/greptimedbcluster/controller.go:234-249 | All ready: creation-time OFF, then Running; a failed call ends the pass before the phase is written |
| Reconciler.Operator.Delete | controllers/greptimedbcluster/controller.go:276-307 | First the phase, in a later pass the clean-ups in order and the finalizer |
| Reconciler.PassIsRun | controllers/greptimedbcluster/controller.go:115-201 | Whatever the machine, and so the program, makes of a pass from a reachable state is part of a run of the whole system, so all theorems about runs apply |
| Apply.ApiServer.ApplyObjects | pkg/deployer/deployer.go:112-146 | The loop with its flag and early returns computes the specification of a whole apply pass |
| Apply.Converges | pkg/deployer/deployer.go:112-146 | nil or not-ready leaves every desired object stored with the desired annotation and labels |
| Apply.TouchesOnlyDesired | pkg/deployer/deployer.go:112-146 | Whatever the outcome, no other key is created, changed or removed |
| Apply.SecondPassWritesNothing | pkg/deployer/deployer.go:112-146 | The next apply writes nothing and is not not-ready, even if others changed live specs but kept annotations and labels in between |
| Apply.SyncedOnlyCreates | pkg/deployer/deployer.go:112-146 | A pass that returns nil changed no object that was there and left all desired objects as desired |
| Apply.SettlesExactlyWhenCoherent | pkg/deployer/deployer.go:112-146 | A pass that does not fail settles the store if and only if entries with one key ask for the same; otherwise it returns not-ready every time, so two groups with one name never come to rest |
| Apply.FailsExactlyOnForeignObjects | pkg/util/k8s/k8s.go:53-81 | With a healthy server a pass fails if and only if a desired key is stored without a readable last-applied annotation, missing or malformed |
| Apply.ForeignIsLeftAlone | pkg/deployer/deployer.go:112-146 | Whatever is answered, an object stored without a readable annotation is the same after the pass |
| ApplyLoop.LoopLeavesForeign | pkg/deployer/deployer.go:112-146 | The same for the apply step of a deployer within a pass |
| Failures.LookLeavesStored | pkg/util/k8s/k8s.go:31-51 | A step of the apply loop that looks an object up, or creates it, leaves everything that is stored as it is |
| Resources.FindingsExactly | pkg/util/k8s/k8s.go:31-86 | What a look-up finds, in terms of what is stored: nothing, no readable annotation, the desired annotation and labels, or other ones; and what a write leaves |
| Apply.SettledIsQuiet | pkg/deployer/deployer.go:112-146 | On a settled store a pass writes nothing and returns nil, or fails if a read does |
| Apply.NotReadyExactly | pkg/deployer/deployer.go:112-146 | With a healthy API server and no foreign objects a pass over a coherent list returns not-ready if and only if some desired object was stored differently before it |
| Config.Document.MergeConfig | pkg/dbconfig/dbconfig.go:115-228 | The loop over tagged fields, recursive on embedded structs and changing the document in place, computes the specification, including the error on an unsupported field |
| Config.MergePathwise | pkg/dbconfig/dbconfig.go:115-228 | Path by path, for every document in which no tag runs through a plain value: a written tag that the merge reaches decides its paths, under InjectedDataFirst exactly those tags that the original input did not have; every other path keeps its input value |
| Config.MergeIsWholeExactly | pkg/dbconfig/dbconfig.go:137-149 | For the same documents: all tags of the struct are reached, embedded ones included, except under InjectedDataFirst with an input key named ,inline; then the path-wise specification of the whole struct still holds if and only if everything that the embedded structs would write is in the input already or holds no value |
| Config.InjectedValuesSurvive | pkg/dbconfig/dbconfig.go:137-140 | For the same documents: under InjectedDataFirst every value of the input is in the result |
| Config.EvolvingHasIsOriginal | pkg/dbconfig/dbconfig.go:137-140 | Although each tag is looked up in the tree as changed so far, the answers are those of the original input |
| Config.MergeIsFold | pkg/dbconfig/dbconfig.go:131-149 | The recursive merge is the fold over the flattened tags of the fields that it reaches |
| Config.MergeIgnoresLayout | pkg/dbconfig/dbconfig.go:131-149 | Structs in which the same tags are reached give the same document however their fields are ordered and nested |
| Config.MergeIdempotent | pkg/dbconfig/dbconfig.go:115-228 | Merging the same struct again changes nothing |
| MergeErrors.OperatorFirstFailsExactly | pkg/dbconfig/dbconfig.go:124-227 | Under OperatorFirst the merge fails if and only if some tag, however nested, has a value of an unsupported kind |
| MergeErrors.InjectedDataFirstFailsExactly | pkg/dbconfig/dbconfig.go:124-227 | Under InjectedDataFirst it fails if and only if there is such a tag among the fields that the merge reaches and the input does not hold it, as long as no tag is a prefix of it or it of a tag that is written |
| Config.HidingKeyDropsEmbedded | pkg/dbconfig/dbconfig.go:137-149 | With a top-level input key named ,inline the merge under InjectedDataFirst is that of the struct without its embedded structs, for every struct and including the error cases |
| ConfigTables.TablesApart | pkg/dbconfig/common.go:31-49 | No tag of the datanode or flownode tables is a prefix of another, the tag wal.tls apart |
| ConfigTables.WalConfig.ConfigureKafka | pkg/dbconfig/common.go:204-242 | The map behind wal.tls is nil or empty whenever the method returns, so that tag is never written; every other field, with the secret overriding the plain user name and password, and the error case |
| ConfigTables.DatanodeWrites | pkg/dbconfig/datanode_config.go:28-47 | What the nested datanode struct writes is the selection of its flat table |
| ConfigTables.KindWrites | pkg/dbconfig/datanode_config.go:28-47 | For any values, what the datanode or flownode struct writes is prefix-free and avoids the key ,inline, so the theorems on merging apply |
| ConfigTables.FlownodeWrites | pkg/dbconfig/flownode_config.go:26-39 | The same for the flownode struct |
| ConfigTables.InitializerMerge | cmd/initializer/internal/config_generator.go:94-175 | The initializer's merge sets exactly node_id, grpc.bind_addr and grpc.server_addr and keeps every other path, for datanodes and flownodes and every document in which grpc is absent or a table |
| ConfigTables.TwoStages | cmd/initializer/internal/config_generator.go:94-175 | Operator merge, then initializer merge, for datanodes and flownodes: relative to the first stage exactly those three paths change, for every strategy and every injected config in which grpc is absent or a table, also if the user set the three |
| NodeIds.AllocateNodeId | cmd/initializer/internal/config_generator.go:178-209 | Fails exactly if the hostname is unreadable, empty or does not end in a 64-bit number; otherwise computes the id of group, ordinal and start id, which GroupIdIsSum and UngroupedIdIsSum give as sums |
| NodeIds.OrdinalRoundTrip | cmd/initializer/internal/config_generator.go:190-202 | For every base name, hyphens included, and every ordinal below 2^64 the parsed index is the ordinal |
| NodeIds.GroupIdIsSum | cmd/initializer/internal/config_generator.go:204-208 | Shifted group, or, index and sign-extended start id are a sum modulo 2^64 |
| NodeIds.UngroupedIdIsSum | cmd/initializer/internal/config_generator.go:198-208 | Without a group, which is any negative one, the id is the sum of ordinal and start id modulo 2^64, and the plain sum if that is not negative |
| NodeIds.UngroupedFitsExactly | cmd/initializer/internal/config_generator.go:198-208 | Such an id fits TOML if and only if the sum is not negative |
| NodeIds.UngroupedIdsDistinct | cmd/initializer/internal/config_generator.go:198-208 | The pods of an ungrouped datanode or of a flownode have distinct ids, for every start id |
| NodeIds.ScalingKeepsIds | cmd/initializer/internal/config_generator.go:198-208 | Scaling them up gives no new pod an id that an old one has, and the ids of the old ones depend on ordinal and start id alone |
| NodeIds.UngroupedPodAllocates | cmd/initializer/internal/config_generator.go:178-209 | The id that such a pod allocates from its own hostname is the sum of its ordinal and the start id modulo 2^64 |
| NodeIds.OrdinalExactly | cmd/initializer/internal/config_generator.go:183-202 | A hostname is accepted, with this ordinal, if and only if it ends in the digits of a 64-bit number that are all of it or follow a hyphen |
| NodeIds.IdBound | cmd/initializer/internal/config_generator.go:204-208 | For start ids that are not negative every id is the plain sum and at most 2^63 - 3, so it fits the signed 64-bit integers of TOML v1.0.0, section Integer |
| NodeIds.IdBoundIsTight | cmd/initializer/internal/config_generator.go:204-208 | The bound is attained |
| NodeIds.FitsTomlExactly | cmd/initializer/internal/config_generator.go:204-208 | For any start id, the id fits if and only if the exact sum is not negative |
| NodeIds.AllIdsDistinct | controllers/greptimedbcluster/deployers/datanode.go:476-484 | No two pods of all groups share an id, for any number of groups up to 2^31 and any replica counts |
| NodeIds.IdsDistinct | cmd/initializer/internal/config_generator.go:204-208 | An id determines the group and the ordinal |
| NodeIds.GrowthKeepsIds | controllers/greptimedbcluster/deployers/datanode.go:476-484 | Appending groups and scaling up keeps every id, and no new pod takes an old one |
| NodeIds.PositionDecides | controllers/greptimedbcluster/deployers/datanode.go:476-484 | A group moved to another position keeps its ids if and only if the position is the same |
| NodeIds.PodAllocates | controllers/greptimedbcluster/deployers/datanode.go:696-702 | A pod of a group computes its id from its own hostname and two arguments |
| Text.LastTokenOfSuffix | cmd/initializer/internal/config_generator.go:190-199 | What follows the last separator is the last token of the split |
| Names.BuildResourceName | controllers/common/common.go:56-67 | The loop joins the non-empty parts |
| Names.MetaUrlInjective | controllers/common/common.go:323-325 | Clusters with the same metasrv URL are the same cluster, for any ports, when namespaces hold no dot |
| Names.MetaHostInjective | controllers/common/common.go:323-325 | The same for the host alone |
| Names.DottedNamespaceCollides | controllers/common/common.go:323-325 | With a dot in a namespace two clusters would share a metasrv |
| Names.GroupNameInjective | controllers/common/common.go:56-67 | Within a cluster the resource name determines the group |
| Names.ResourceNamesCollideAcrossClusters | controllers/common/common.go:56-67 | Across clusters it does not determine the cluster |
| Storage.FileStorageToPvc | controllers/common/common.go:205-249 | The labels of a generated claim: the operator's, overridden by the user's |
| Storage.SelectorsPartition | controllers/common/common.go:252-287 | Every claim of a component is matched by exactly one of the three selectors, every other claim by none |
| Storage.GeneratedMatchesOwn | controllers/common/common.go:205-304 | A generated claim whose user labels avoid the two operator keys is matched under exactly its own name and type |
| Storage.GeneratedIsFoundAs | controllers/common/common.go:205-304 | For any user labels a generated claim is matched as exactly one name and type, those that the labels say where they use an operator key |
| Storage.ClaimServer.DeleteStorage | controllers/greptimedbcluster/deployers/datanode.go:317-335 | Deletes only selected claims, and all of them unless a call fails |
| Storage.ClaimServer.CleanUp | controllers/greptimedbcluster/deployers/datanode.go:86-131 | Over any content of the namespace: deletes only claims that the rule dooms, all of them if it returns nil, none elsewhere, none changed |
| Storage.OwnCleanUp | controllers/greptimedbcluster/deployers/datanode.go:86-131 | Exactly which of its own claims a cluster deletes, repeated group names included, as long as user labels do not pass a claim off as another: policy Delete, except with an empty directory (an ungrouped one skips everything) and except WAL and cache of a group |
| Storage.GroupWalOutlivesDeletion | controllers/greptimedbcluster/deployers/datanode.go:118-128 | WAL and cache claims of groups are never deleted, whatever their policy, because they are looked for under the ungrouped name |
| Storage.RetainedClaimsSurvive | controllers/greptimedbcluster/deployers/datanode.go:86-131 | A claim whose policy is not Delete survives every clean-up in its namespace, as long as no cluster name extends the other's datanode name, user labels do not pass it off as another claim, and groups of one name agree on their storage |
| Storage.RetentionExactly | controllers/greptimedbcluster/deployers/datanode.go:86-131 | Between two clusters of a namespace: there are valid specs with which deleting the one takes retained claims of the other if and only if one name extends the other's datanode name |
| Storage.RelabelledClaimIsLost | controllers/common/common.go:231-233 | An ungrouped datanode's data claim with policy Retain, whose own user labels pass it off as a WAL, is deleted with the cluster's WAL |
| Storage.RetentionFailsAcrossClusters | controllers/greptimedbcluster/deployers/datanode.go:86-131 | For instance, deleting a with a group datanode deletes the retained data of a-datanode |
| Storage.CollisionExactly | controllers/common/common.go:56-67 | Two clusters can have datanode objects of one name if and only if they are equal or one name extends the other so |
| Storage.DoomedExactly | controllers/common/common.go:205-304 | For any user labels: a generated claim is deleted by a clean-up if and only if what it is found as is a target of it |
| Readiness.IsDeploymentReady | pkg/util/k8s/k8s.go:85-104 | The searching loop returns true if and only if the generation is observed, all replicas are ready and the new replica set is available |
| Readiness.TallyDatanodeGroups | controllers/greptimedbcluster/deployers/datanode.go:203-220 | The loop counts the ready groups and adds up their ready replicas in 32-bit arithmetic, and fails if and only if a read does |
| Readiness.Status.CheckDatanodeGroups | controllers/greptimedbcluster/deployers/datanode.go:203-237 | Verdict and reported counts of the group check; an error leaves the status untouched |
| Readiness.Status.CheckDatanode | controllers/greptimedbcluster/deployers/datanode.go:133-148 | True if and only if every datanode StatefulSet exists, has observed its generation and is fully ready (for fewer than 2^32 groups) |
| Readiness.DatanodesExactly | controllers/greptimedbcluster/deployers/datanode.go:133-149 | What has to be ready: the ungrouped datanode alone if there is one, otherwise every group |
| Readiness.AgreementIsAll | controllers/greptimedbcluster/deployers/datanode.go:232-234 | Equal 32-bit counters mean that all are ready |
| Readiness.AgreementModulo | controllers/greptimedbcluster/deployers/datanode.go:232-234 | In general they mean that the number of groups that are not ready is a multiple of 2^32 |
| Readiness.TallyFrontends | controllers/greptimedbcluster/deployers/frontend.go:84-128 | Ready if and only if all Deployments are; an error if and only if the first one that is not ready could not be read; the sum of the stored replicas |
| Readiness.Status.CheckFrontend | controllers/greptimedbcluster/deployers/frontend.go:74-138 | The status changes if and only if everything is ready, and then both counts are the stored total |
| Readiness.FrontendsExactly | controllers/greptimedbcluster/deployers/frontend.go:74-110 | What has to be ready: the ungrouped frontend if there is one, and every group |
| Readiness.GetDatanodeReplicas | apis/v1alpha1/greptimedbcluster_types.go:1092-1106 | The loop computes the declared replicas, wrapping at 32 bits |
| Readiness.ReportedIsStored | controllers/greptimedbcluster/deployers/datanode.go:222-226 | When all StatefulSets are ready the reported ready replicas are the stored replicas |
| Readiness.ReportedGroupReplicas | apis/v1alpha1/greptimedbcluster_types.go:1092-1106 | If the stored replicas are the declared ones both reported numbers agree, overflow or not, and are the true total below 2^31 |
| Readiness.ReportedSingleReplicas | controllers/greptimedbcluster/deployers/datanode.go:239-255 | The same for an ungrouped datanode |
| Conditions.GetCondition | apis/v1alpha1/common.go:1169-1177 | The first entry of the type |
| Conditions.FilterOutCondition | apis/v1alpha1/common.go:1195-1204 | The entries of all other types, in order |
| Conditions.SetCondition | apis/v1alpha1/common.go:1179-1193 | The new list, unchanged if status and reason are repeated |
| Conditions.Status.Update | apis/v1alpha1/greptimedbcluster_types.go:1064-1066 | The field after a call is the replay of one call more |
| Conditions.ReplayIsExact | apis/v1alpha1/common.go:1169-1204 | For every sequence of calls from the empty list and every type: at most one entry, which is the call that first gave the present status and reason, with the transition time of the call that began the present run of its status |
| Conditions.LastSetIsFound | apis/v1alpha1/common.go:1169-1204 | The last status and reason set for a type are the ones found |
| Conditions.PutOtherTypes | apis/v1alpha1/common.go:1179-1204 | A call keeps the entries of other types and their relative order |
| Conditions.TransitionOnlyOnStatusChange | apis/v1alpha1/common.go:1188-1190 | The transition time changes only when the status does |
| Conditions.RepeatedVerdictIsIgnored | apis/v1alpha1/common.go:1181-1186 | The list stays as it is if and only if status and reason are repeated: the update time is then edited on a copy only |
| Defaults.Resource.SetDefaults | apis/v1alpha1/defaulting.go:30-52 | The in-place defaulting computes the specification |
| Filling.ComponentsStayOut | apis/v1alpha1/defaulting.go:126-160 | A frontend, flownode or datanode is there after defaulting if and only if it was there before; the metasrv always is; no group is added or dropped |
| Filling.EveryPartIsFilled | apis/v1alpha1/defaulting.go:126-203 | In every ungrouped part of the spec each scalar, list and map entry is what the user set, or else the default; frontend, flownode and datanode have defaults only if they are there, tracing and monitoring only if monitoring is enabled |
| Filling.EveryGroupIsFilled | apis/v1alpha1/defaulting.go:55-69 | The same for every group, with the defaults of the object after the first merge |
| Filling.MergeFills | apis/v1alpha1/defaulting.go:36-44 | What a merge leaves at any path of a value: what the user set there, or else the default |
| Filling.OneReplicaByDefault | apis/v1alpha1/defaulting.go:205-292 | Each ungrouped component that is there and says nothing about replicas gets one, given ones stay, and a component that is left out has none; a metasrv that is left out gets one |
| Filling.UngroupedTypeStays | apis/v1alpha1/defaulting.go:567-605 | Behind a pointer the custom rule keeps a number a number and a percentage a percentage, and replaces only the zero of its kind |
| Filling.MonitoringIsOptional | apis/v1alpha1/defaulting.go:160-200 | Without monitoring, monitoring and tracing are exactly what the user made them |
| Filling.TracingExactly | apis/v1alpha1/defaulting.go:160-200 | Tracing that the user left out is there afterwards if and only if monitoring is enabled |
| Filling.LogFormatExactly | apis/v1alpha1/defaulting.go:158-184 | Logs are JSON by default if monitoring is enabled and text otherwise; a chosen format stays |
| Filling.TraceHintExactly | apis/v1alpha1/defaulting.go:186-198 | With monitoring the traces carry its time to live, 30d by default, as a hint, unless the user set the hint |
| Filling.MonitoringRunsTheImage | apis/v1alpha1/defaulting.go:294-308 | The monitoring instance runs the image of the cluster, or the default one, unless another was chosen for it |
| Filling.AuditLogIsOptional | apis/v1alpha1/defaulting.go:225-232 | An audit log that is not enabled is left as it is |
| Defaults.Resource.MergeDefaultGroups | apis/v1alpha1/defaulting.go:55-69 | The two loops merge into each group the defaults computed from the object after the first merge |
| Defaults.Fixpoint | apis/v1alpha1/defaulting.go:30-69 | One application reaches a fixpoint for every spec and any number of groups |
| Defaults.DefaultsShrink | apis/v1alpha1/defaulting.go:126-292 | The defaults of the filled object are those of the object, except that given replicas are not defaulted again |
| Defaults.ExplicitReplicasSurvive | apis/v1alpha1/defaulting.go:205-292 | Replicas given for meta, frontend, flownode or an ungrouped datanode stay, zero included |
| Defaults.GroupReplicas | apis/v1alpha1/defaulting.go:55-61 | In a datanode group zero or no replicas become one, unless there is an ungrouped datanode |
| Defaults.FrontendGroupReplicas | apis/v1alpha1/defaulting.go:63-67 | The same for a frontend group and an ungrouped frontend |
| Defaults.SettingsSurvive | apis/v1alpha1/defaulting.go:30-52 | Nothing that is set in base, meta, frontend, flownode or datanode is lost |
| Defaults.GroupSettingsSurviveExactly | apis/v1alpha1/defaulting.go:55-69 | A datanode group loses nothing; a frontend group loses a setting if and only if a number in it meets a default of type String |
| Defaults.GroupCountIsReplaced | apis/v1alpha1/defaulting.go:63-67 | Such a loss: a surge, or an unavailability, given as a number of pods becomes 25%, whatever the other of the two is |
| Defaults.StrategyAndVersionAreOverwritten | apis/v1alpha1/defaulting.go:35-49 | The merge strategy is always InjectedDataFirst afterwards and the version always comes from the image, whatever they were |
| Defaults.VersionOfTaggedImage | apis/v1alpha1/defaulting.go:494-504 | A tagged image gives its tag, with or without a registry, also when that has a port |
| Defaults.VersionOfUntaggedImage | apis/v1alpha1/defaulting.go:494-504 | Without a tag the version is the default |
| Defaults.VersionOfPinnedImage | apis/v1alpha1/defaulting.go:494-504 | With a tag and a digest, too |
| Merging.MergeIdempotent | apis/v1alpha1/defaulting.go:36-44 | Merging the same defaults again changes nothing, with and without the rule for IntOrString |
| Merging.FewerChangeNothing | apis/v1alpha1/defaulting.go:221-230 | Defaults with some left out change nothing that the full defaults leave alone |
| Merging.MergeKeepsExactly | apis/v1alpha1/defaulting.go:567-605 | A merge loses an explicit setting if and only if somewhere a number meets a default of type String outside the custom rule |

## Left out

- Machine.Create: a key is used for one cluster only; reuse of a key after deletion is not modelled, because the in-memory flag outlives the resource.
- Operator restart: the maintenance map is in memory and lost by design, so runs with a restart are not covered.
- Informer caches, resource versions and conflict retries: reads and writes of the store are atomic, and may fail.
- SetMaintenanceMode: a call that reports failure is taken to have had no effect; HTTP and retries are not modelled.
- Events, metrics and conditions written during a pass: only the phase and the creation-time flag of the status take part in the protocol.
- Pod templates, services, config maps, probes and pipelines: what a deployer generates is an arbitrary list of desired objects.
- Monitoring, frontend and flownode readiness inside the protocol: the environment answers ready or not; the frontend check itself is in Readiness.
- The standalone controller and deployer: a smaller copy of the cluster machine.
- The tag tables of meta, frontend and standalone: the merge theorems hold for any tables, the prefix-freeness is shown for datanode and flownode.
- Convergence.ConvergesInSixPasses: the user leaves the resource alone, nothing fails, StatefulSets that exist when a pass begins are ready and no StatefulSet becomes unready within a pass, and the other deployers find something unready only in a pass in which they have created something; how often disturbances of these kinds delay the end is not counted.
- Config.MergePathwise: assumes that no tag runs through a plain value of the input, where what is written is up to the TOML library; MergeIsWholeExactly and InjectedValuesSurvive do so, too.
- ConfigTables.InitializerMerge: assumes for the same reason that grpc is absent or a table in the input; TwoStages does so, too. Loading a printed document is taken to be the identity.
- MergeErrors.InjectedDataFirstFailsExactly: assumes that an unsupported tag and a written one are not prefixes of each other, as in the tables, and that no tag begins like that of an embedded struct.
- Filling.EveryPartIsFilled: the parts of a spec have the Go types of their defaults, which the original's types guarantee; so do the other results of Filling and the replica counts of groups.
- Deletion.CleanUpDatanodes: the claims are not part of the state of a run, so that a released finalizer means deleted claims is shown for the step that cleans up, not for the time until the release.
- Which values the Configure methods select: values of tags are arbitrary, except for the Kafka section.
- NodeIds.AllIdsDistinct: assumes start ids that are not negative and at most 2^31 groups; for other start ids FitsTomlExactly says when an id fits.
- Storage.RetainedClaimsSurvive: assumes that groups of one name agree on their storage, and an empty name on the ungrouped datanode, neither of which the operator validates; and that user labels do not pass the claim off as another one, without which DoomedExactly says what happens.
- Readiness.Status.CheckDatanode: the exact statement for 2^32 groups and more is AgreementModulo.
- The half of an IntOrString that its type does not select is not modelled, since it is never written out.
- Nil and empty label maps are not told apart; resource quantities and the merge of base templates into components are not part of the model.
- Merging.Merge: the library's merge is modelled as fill-if-empty on trees, with slices kept whole.
