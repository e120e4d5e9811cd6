# ob-operator: a verified model of the hard parts

ob-operator runs OceanBase clusters on Kubernetes. This project models the parts of it whose
correctness depends on interleavings, loops or integer arithmetic, and proves what they guarantee on
all inputs, in all runs and in all reachable states. `dafny verify dfyconfig.toml` checks everything.

| module | models |
|---|---|
| `TaskManagement`, `ResultReads` | the task manager: goroutines, token pool, result channels, result map and cache; reads at the grain of single shared accesses |
| `TaskFlow` | task flows, failure handling of the resource managers, the coordinator's reconcile |
| `Protocol` | many resources in the API server, one operator process and its environment, as one step system |
| `OrderlyRuns`, `ReconcileFaults` | what holds without faults, and what exactly a lost write, a finalizer error, a restart or a stale read breaks |
| `FlowStatuses` | the status and context that every reconcile stores, case by case, and when the next one comes |
| `StatusUpdates` | the two managers whose status update drops the context, and what that orphans |
| `RetryBound`, `RetryRuns` | bounds on retries, of one flow and inside the protocol |
| `Rescue` | the rescue controller and how it meets the protocol |
| `UpgradeGraph`, `UpgradeRoute`, `UpgradeOrder` | the upgrade-route search, on values and on the heap, and which routes it can answer |
| `ClusterDefaults`, `ClusterAdmission` | the OBCluster webhook: defaulting and validation |
| `ScalePlan` | the scale command, and the webhook that its operation has to pass |
| `ClientCache` | the generation-keyed client caches |
| `Decimal`, `Versions` | decimal strings; versions: parsing, printing, ordering |
| `AesEnvelope` | PKCS#7 padding and the AES envelope |

Code that updates objects is a class with methods here. Each method is proved equal to a function on
snapshots, and the results about runs are proved of those functions.

## Main results

- **No task is skipped** (`Protocol.NoTaskIsSkipped`, `Protocol.FinishMeansAllDone`), under stale reads, lost
  status writes, finalizer errors, operator restarts and rescues in any order.
- **A flow that is done stores its target status**, and only then are all its tasks done; every other way in which a
  resource lets go of a context, and the status it then has, is told from the version that was read alone
  (`FlowStatuses.TargetStatusMeansAllDone`, `FlowStatuses.LetsGoOnlySo`).
- **Each attempt is submitted once**, in runs without such faults. In them the result map holds exactly the result of the
  running context and one for each context that was dropped while its task ran, and every execution in flight is one of
  these (`OrderlyRuns.OrderlyRunsSubmitOnce`); so at most one is in flight, and nothing leaks, exactly as long as no
  running context is dropped (`OrderlyRuns.NothingLeaksIffNoneDropped`). In every world, a reconcile repeats an attempt exactly when the version
  it reads still offers it (`ReconcileFaults.RepeatsIffOffered`), and fails a successful task exactly when its result is
  gone and it keeps the context (`ReconcileFaults.SuccessFailsIffResultGone`); after an orderly run only a stale read does either
  (`ReconcileFaults.OnlyStaleReadsRepeat`, `ReconcileFaults.OnlyStaleReadsFailSuccess`).
- **Every flow ends** (`RetryBound.EveryFlowEnds`, `RetryBound.RetriesAreBounded`), with bounds on
  submissions and handled failures; both hold of the flows of every orderly run (`RetryRuns.ContextIsLetGo`,
  `RetryRuns.AttemptsAreBounded`).
- **Tokens are conserved and no goroutine blocks after its task**, in every interleaving
  (`ResultReads.EveryRunConservesTokens`); **results are stable** where reads take turns
  (`ResultReads.SerializedReadsAreStable`).
- **The upgrade search is sound, complete and terminates** on the heap graph as built
  (`UpgradeGraph.RouteIsSound`, `UpgradeGraph.RouteIsComplete`, `UpgradeRoute.GetOBUpgradeRoute`). **The routes it
  answers**, over all orders of the list, are exactly the paths without repetition and without shortcut
  (`UpgradeOrder.AnswersAreTheTightPaths`).
- **Storage never shrinks** along any history of accepted updates (`ClusterAdmission.StorageNeverShrinks`), and
  **defaulted sizes stay within memory and data storage** (`ClusterAdmission.DefaultsPassTheirChecks`, which also says
  when they pass the comparison with three times the memory limit).
- **A scale plan and the webhook agree** (`ScalePlan.PlanPassesWebhookIff`), **the client cache is never stale**
  (`ClientCache.NeverStale`), **versions and envelopes round-trip** (`Versions.ParseOfPrint`, `AesEnvelope.DecryptOfEncrypt`).

## Properties that the code does not have

Each comes with inputs that show it, and with the condition under which it does hold.

- A submission is repeated exactly by reconciles that read a version from before its commit in which the attempt is
  pending: a stale read of a committed submission, any current read of one whose write was lost or that stopped at the
  finalizers (`ReconcileFaults.SubmissionRepeatsIff`). In the same way a successful task becomes a failed one exactly
  when a reconcile writes that read a version which still awaits the cleaned result (`ReconcileFaults.SuccessFailsIff`).
- Without any fault, canceling a restore or deleting a backup policy while a task of it runs orphans the execution: its
  result is never read nor cleaned, and the next flow of the resource runs beside it
  (`StatusUpdates.CanceledRestoreOrphans`, `StatusUpdates.DeletedPolicyOrphans`,
  `StatusUpdates.NextFlowRunsBesideOrphan`). A reset rescue does the same (`StatusUpdates.ResetOrphans`).
- A rescue whose final mark is lost is applied again; for a skip this skips a second task exactly when a reconcile in
  between is written and keeps the context (`Rescue.LostMarkSkipsTwoTasksIff`). A retry rescue during an execution runs the task twice
  (`Rescue.RetryAddsAnExecution`).
- Reads of one task result that overlap can report a closed channel (`ResultReads.OverlappingReadsFail`), exactly those
  that receive after another one took the result (`ResultReads.ClosedIsAnsweredIff`).
- `FindShortestUpgradePath` is a depth-first search and need not find a shortest route
  (`UpgradeGraph.RouteNeedNotBeShortest`); `validateUpgrade` may refuse an upgrade that another route allows
  (`UpgradeGraph.CleanRouteMayBeMissed`). Every order of the lists gives a shortest route exactly when all shortcut-free
  routes have one length, and an accepted upgrade exactly when all of them are clean
  (`UpgradeOrder.ShortestInEveryOrderIff`, `UpgradeOrder.AcceptedInEveryOrderIff`).
- `datafile_next` may exceed `datafile_maxsize` when the product overflows 64 bits
  (`ClusterDefaults.NextMayExceedMaxOnOverflow`); `ClusterDefaults.NextWithinMaxIff` is exact below 2^64 and
  `ClusterDefaults.NextWithinMaxWrapped` for all sizes.
- The mode of a cluster can be changed by two accepted updates (`ClusterAdmission.ModeCanChangeInTwoUpdates`).
- A shrink may be accepted although one server's assigned memory does not fit
  (`ClusterAdmission.UnequalLimitsMissAServer`, `ClusterAdmission.OverloadedServerIsMissed`); it never is exactly when
  the checked server is the most loaded one in proportion (`ClusterAdmission.CheckIsRightIff`).
- `Default` dereferences missing user secrets (`ClusterDefaults.ClusterSpec.Default`).
- Deleting a zone that the cluster lists twice may leave less than half (`ScalePlan.DuplicateZoneBreaksHalf`);
  `ScalePlan.DeleteLeavesExactly` gives the count.
- A client of a deleted and re-created K8sCluster can be stale (`ClientCache.StaleAfterRecreation`), exactly when the
  cache holds one of an older incarnation with at least the fetched generation (`ClientCache.LoadIsStaleIff`).
- Builds of different length need not order as numbers (`Versions.LongerBuildMayOrderFirst`); exactly when they do is
  `Versions.BuildsCompareAsNumbersIff`.
- `AESDecrypt` panics on exactly the inputs of `AesEnvelope.DecryptPanicsIff`, such as an encoded bare vector
  (`AesEnvelope.BareVectorPanics`).

## Where code and comments disagree

The model follows the code.

- pkg/coordinator/coordinator.go:73-74 speaks of a base of 500 ms and a threshold of 14; the code multiplies the
  execution requeue duration (1 s) and takes the threshold from the configuration.
- The name `FindShortestUpgradePath` promises a shortest route; the work list is popped at its tail.
- `DirectUpgrade` (pkg/helper/upgrade.go:205-220) is written to a copy and reaches nobody.

## Model

| member | source | states |
|---|---|---|
| `TaskManagement.TaskManager.constructor` | pkg/task/task_manager.go:35-41 | a new manager is sound: no task, no result, all tokens free |
| `TaskManagement.TaskManager.Submit` | pkg/task/task_manager.go:85-113 | the new state is the old one with a waiting goroutine, an open empty channel, its result-map entry and no cached result; soundness is kept |
| `TaskManagement.TaskManager.GetTaskResult` | pkg/task/task_manager.go:115-152 | answers cached result, missing task, received result, closed channel or not ready as the state dictates, and moves a received result into the cache |
| `TaskManagement.TaskManager.CleanTaskResult` | pkg/task/task_manager.go:154-170 | forgets map entry and cached result of an existing task, nothing else |
| `TaskManagement.TaskManager.Work` | pkg/task/task_manager.go:43-68 | one goroutine step (acquire, return or panic, send, release, close) changes exactly that goroutine, its channel and the tokens |
| `TaskManagement.ResultTellsOutcome` | pkg/task/task_manager.go:44-67 | a result is successful and free of error exactly when the task function returned nil |
| `TaskManagement.SubmittedKeepsSound` | pkg/task/task_manager.go:85-92 | submitting keeps token conservation, the channel discipline and that no sent result is lost |
| `TaskManagement.WorkedConservesTokens` | pkg/task/task_manager.go:43-68 | tokens held equal the goroutines between acquire and release and never exceed the pool size |
| `TaskManagement.WorkedKeepsSound` | pkg/task/task_manager.go:43-68 | every goroutine step keeps token conservation and that a channel gets one send, before it is closed |
| `TaskManagement.WorkedFrame` | pkg/task/task_manager.go:43-68 | a step of one goroutine leaves every other task, the result map and the cache alone |
| `TaskManagement.PolledKeepsSound` | pkg/task/task_manager.go:130-151 | a read keeps soundness, loses no result and never meets a closed channel |
| `TaskManagement.CleanedKeepsSound` | pkg/task/task_manager.go:154-160 | cleaning keeps soundness and loses no result of another task |
| `TaskManagement.NeverBlocksAfterReturn` | pkg/task/task_manager.go:43-68 | whatever readers did to results, map and cache: from the moment a task function returned or panicked, its goroutine can send, release and close without blocking |
| `TaskManagement.WorkedKeepsDisciplined` | pkg/task/task_manager.go:43-68 | every goroutine step keeps tokens and the one send before the close, without any assumption on readers |
| `ResultReads.EveryRunConservesTokens` | pkg/task/task_manager.go:43-68 | in every interleaving, overlapping reads included: tokens held equal the goroutines between acquire and release and never exceed the pool, each goroutine sends once before its channel closes, and none blocks on sending, releasing or closing |
| `ResultReads.StepKeepsInv` | pkg/task/task_manager.go:115-160 | each shared access of a read, between any other steps, keeps a sent result in the channel, in the cache or in the hand of its one reader |
| `ResultReads.SerializedReadsAreStable` | pkg/task/task_manager.go:115-160 | over every run with reads serialized per task: no closed-channel error, every answered result is the task's own, any two answers of one task agree |
| `ResultReads.AnsweredStaysAnswered` | pkg/task/task_manager.go:130-151 | once a result was answered every later read answers it until the task is cleaned |
| `ResultReads.UndisturbedReadIsAtomic` | pkg/task/task_manager.go:115-152 | the accesses of an undisturbed read amount to the atomic read that the protocol uses |
| `ResultReads.ClosedIsAnsweredIff` | pkg/task/task_manager.go:140-149 | in every run a receive is told that the channel is closed exactly when the goroutine is over and another receive took its result |
| `ResultReads.OverlappingReadsFail` | pkg/task/task_manager.go:140-146 | without serialization a second reader of a finished task can be told that its channel is closed |
| `TaskFlow.OperationContext.Next` | pkg/task/types/flow.go:31-41 | the next task becomes pending, the index moves by one, the task id is cleared; past the end only the task name is cleared |
| `TaskFlow.ResourceManager.ClearTaskInfo` | internal/resource/obcluster/obcluster_manager.go:272-275 | normal status, no context |
| `TaskFlow.ResourceManager.FinishTask` | internal/resource/obcluster/obcluster_manager.go:277-280 | the context's target status, no context |
| `TaskFlow.ResourceManager.ArchiveResource` | internal/resource/obcluster/obcluster_manager.go:310-315 | archived status, no context |
| `TaskFlow.ResourceManager.HandleFailure` | internal/resource/obtenantrestore/obtenantrestore_manager.go:76-107 | resource and context after a failure, by deletion, strategy and status; the caller's reference sees in-place changes also where the resource drops the context |
| `TaskFlow.ResourceManager.StartOverContext` | internal/resource/obcluster/obcluster_manager.go:286-295 | starts over in place when the status is the next-try status, else goes there and drops the context |
| `TaskFlow.ResourceManager.DiscardContext` | internal/resource/obtenantrestore/obtenantrestore_manager.go:98-105 | managers that give up on other strategies drop the context to the next-try or a fixed status |
| `TaskFlow.Coordinator.ExecuteTaskFlow` | pkg/coordinator/coordinator.go:108-187 | resource, context and task manager after one execution step of a flow |
| `TaskFlow.Coordinator.ExecuteFailed` | pkg/coordinator/coordinator.go:167-184 | a failed task is archived past its retry limit, else handled and counted |
| `TaskFlow.Coordinator.CleanTaskResultMap` | pkg/coordinator/coordinator.go:189-200 | results of successful and failed contexts are cleaned, others kept |
| `TaskFlow.Coordinator.Conclude` | pkg/coordinator/coordinator.go:80-105 | a finalizer error stops before cleaning and writing; else result cleaning, the written status, whether the context is dropped, and the requeue delay |
| `TaskFlow.Coordinator.RunFlow` | pkg/coordinator/coordinator.go:68-105 | a reconcile that has a flow: its task-manager state, status write and backoff |
| `TaskFlow.Coordinator.Run` | pkg/coordinator/coordinator.go:47-106 | a whole reconcile: task manager, status write and requeue delay for every status, annotation, flow and fault |
| `TaskFlow.ExecuteMoves` | pkg/coordinator/coordinator.go:108-187 | a retained context makes only its allowed moves; a task is submitted exactly from pending with a function; finishing needs success and no next task |
| `TaskFlow.CoordinateMoves` | pkg/coordinator/coordinator.go:47-106 | a reconcile writes only allowed moves of its flow and touches only the result of its own task |
| `TaskFlow.CoordinateWithoutFlow` | pkg/coordinator/coordinator.go:55-67 | without a flow the task manager is left alone and no context is stored |
| `TaskFlow.BackoffDoublesUpToThreshold` | pkg/coordinator/coordinator.go:73-77 | the backoff doubles with every retry up to the threshold and is constant beyond |
| `Protocol.PollHonest` | pkg/task/task_manager.go:115-152 | a result that a reconcile can read is the outcome of an execution that happened |
| `Protocol.ReconcileKeepsInv` | pkg/coordinator/coordinator.go:47-106 | a reconcile of any stored version, written or lost, keeps that every stored context is justified by the history |
| `Protocol.RescueKeepsInv` | internal/controller/obresourcerescue_controller.go:101-173 | reset, retry and skip keep it at any moment, a skip by being recorded |
| `Protocol.StepKeepsInv` | pkg/coordinator/coordinator.go:47-187 | every step of the system keeps the invariant and only adds to the history |
| `Protocol.NoTaskIsSkipped` | pkg/coordinator/coordinator.go:96-187 | in every run every context ever stored counts a task as done only if an execution of it, in that pass of that resource, returned nil or a rescue skipped it |
| `Protocol.FinishMeansAllDone` | pkg/coordinator/coordinator.go:160-166 | whenever a reconcile reports the target status, every task of the flow is done or skipped |
| `FlowStatuses.StoresOrNothing` | pkg/coordinator/coordinator.go:47-99 | a reconcile stores one version of its resource unless it is paused, fails to get a flow, stops at the finalizers or loses its write; no other resource is touched |
| `FlowStatuses.InitialIsStored` | pkg/coordinator/coordinator.go:55-56 | a resource without status gets its initial one, paused or not |
| `FlowStatuses.IdleIsStored` | pkg/coordinator/coordinator.go:65-67 | without context and flow the status stays |
| `FlowStatuses.FinishedIsStored` | pkg/coordinator/coordinator.go:160-163 | a successful context with no next task stores its target status and no context |
| `FlowStatuses.ClearedIsStored` | pkg/coordinator/coordinator.go:110-113 | a flow without tasks stores the normal status and no context |
| `FlowStatuses.ArchivedIsStored` | pkg/coordinator/coordinator.go:168-177 | a failed context past its own retry limit, or the general one when it has none, stores the archived status and no context |
| `FlowStatuses.StartOverIsStored` | internal/resource/obcluster/obcluster_manager.go:286-295 | after a failure that starts over the status is the next-try status; the context begins anew exactly if that was the status before, else it is given up |
| `FlowStatuses.RetryIsStored` | internal/resource/obcluster/obcluster_manager.go:296-297 | after a failure that retries the same task is pending, one retry later, in the same status |
| `FlowStatuses.PauseIsStored` | internal/resource/obtenantrestore/obtenantrestore_manager.go:97-105 | a paused failure stays; one of unknown strategy stays or goes to the next-try or the manager's own status |
| `FlowStatuses.FailureUnderDeletionIsStored` | internal/resource/obtenantrestore/obtenantrestore_manager.go:76-79 | under deletion a failed context is given up, in the status of deletion or the one it has |
| `FlowStatuses.AdvanceIsStored` | pkg/task/types/flow.go:31-41 | a flow that begins or whose task succeeded stores the next task as pending, in the same status |
| `FlowStatuses.SubmissionIsStored` | pkg/coordinator/coordinator.go:117-129 | a pending task is submitted and stored running under its new id exactly if its function is found |
| `FlowStatuses.ResultIsStored` | pkg/coordinator/coordinator.go:130-159 | a running task waits, takes the status of its result, or fails when that is lost |
| `FlowStatuses.LetsGoOnlySo` | pkg/coordinator/coordinator.go:108-187 | a context is let go of only when its flow is done, has no tasks, or a task failed; a successful one then stores its target status |
| `FlowStatuses.TargetStatusMeansAllDone` | pkg/coordinator/coordinator.go:160-166 | in every run, storing the target status of a done flow means that all its tasks were executed with success or skipped |
| `FlowStatuses.RequeueDelays` | pkg/coordinator/coordinator.go:47-105 | 5 seconds when paused; 1 when deletion is under way or the status changes; else 30 when idle, 2 to the bounded number of retries while a retried task stays failed, 1 otherwise |
| `OrderlyRuns.OrderlyRunsSubmitOnce` | pkg/coordinator/coordinator.go:92-159 | without lost writes, stale reads, restarts or rescues other than resets: the result map holds exactly the running context's result and one for each context dropped while its task ran, all executions in flight are among these, no attempt is submitted twice, and a context fails only if its execution did |
| `OrderlyRuns.NothingLeaksIffNoneDropped` | pkg/coordinator/coordinator.go:92-99 | the result map holds only the running context's result exactly when no running context was dropped; at most that execution is in flight exactly when all dropped ones have returned |
| `StatusUpdates.UpdateTenantStatus` | internal/resource/obtenant/obtenant_manager.go:158-196 | status and context after the update, by deletion, cancellation and what the database calls for; nothing is written once the finalizer finished |
| `StatusUpdates.UpdatePolicyStatus` | internal/resource/obtenantbackuppolicy/obtenantbackuppolicy_manager.go:156-270 | status and context after the update, by suspension, deletion and status |
| `StatusUpdates.DropsIff` | internal/resource/obtenantbackuppolicy/obtenantbackuppolicy_manager.go:156-178 | exactly when either manager drops the context |
| `StatusUpdates.TenantStatuses` | internal/resource/obtenant/obtenant_manager.go:158-188 | deletion, cancellation and the database decide the status in this order; every other status stays |
| `StatusUpdates.DeletedPolicyEnds` | internal/resource/obtenantbackuppolicy/obtenantbackuppolicy_manager.go:156-177 | two updates take a deleted policy from any status to the deleting or the stopped one, and the deleting one stays |
| `StatusUpdates.KeptPolicyStatuses` | internal/resource/obtenantbackuppolicy/obtenantbackuppolicy_manager.go:156-180 | a policy that is not deleted pauses and resumes as its spec says and moves on only when running |
| `StatusUpdates.CanceledRestoreOrphans` | internal/resource/obtenant/obtenant_manager.go:166-171 | canceling a restore while a task runs leaves no context, an execution in flight and its result kept, in a fault-free reconcile |
| `StatusUpdates.DeletedPolicyOrphans` | internal/resource/obtenantbackuppolicy/obtenantbackuppolicy_manager.go:162-177 | deleting a policy while a task runs does the same, in every status but the deleting one and an unsuspended pause |
| `StatusUpdates.ResetOrphans` | internal/controller/obresourcerescue_controller.go:101-114 | so does a reset rescue, for every resource |
| `StatusUpdates.NextFlowRunsBesideOrphan` | pkg/coordinator/coordinator.go:61-72 | two further fault-free reconciles put a second execution of the resource in flight |
| `ReconcileFaults.SubmittedAgainIffNotCommitted` | pkg/coordinator/coordinator.go:80-99 | the current version of a submitted task stays pending exactly when the write is lost or the reconcile stops at the finalizers, is running when it is written, and has no context when that is dropped |
| `ReconcileFaults.RepeatsIffOffered` | pkg/coordinator/coordinator.go:117-129 | in every world a reconcile submits a known attempt again exactly when the version it reads, current or older, still offers it |
| `ReconcileFaults.SubmissionRepeatsIff` | internal/resource/obcluster/utils.go:65-73 | a submission, committed or not, is repeated exactly by a reconcile that reads a version from before the commit with the attempt pending; then two executions of it are in flight |
| `ReconcileFaults.OnlyStaleReadsRepeat` | pkg/coordinator/coordinator.go:117-129 | after any orderly run, the next reconcile repeats an attempt exactly when it reads an older version that offers it |
| `ReconcileFaults.UncommittedSubmissionRepeats` | pkg/coordinator/coordinator.go:117-129 | then the next reconcile puts a second execution of the same attempt in flight |
| `ReconcileFaults.ResultSurvivesIffStopped` | pkg/coordinator/coordinator.go:85-95 | a result that was read is there for the next reconcile exactly when this one stopped at the finalizers |
| `ReconcileFaults.SuccessFailsIffResultGone` | pkg/coordinator/coordinator.go:130-149 | in every run, a reconcile that reads a version awaiting an execution that returned nil stores a failure exactly when it writes, keeps the context and the result is gone |
| `ReconcileFaults.SuccessFailsIff` | internal/resource/obcluster/utils.go:65-73 | after a result was read and cleaned, a reconcile fails the successful task exactly when it writes and reads a version from before that awaits the result: the current one after a lost write, an older one after a committed write |
| `ReconcileFaults.OnlyStaleReadsFailSuccess` | pkg/coordinator/coordinator.go:92-149 | after any orderly run, a successful task is failed exactly by a writing reconcile of a version that awaits it while the current one does not and it is not an orphan |
| `ReconcileFaults.LostWriteFailsSuccess` | pkg/coordinator/coordinator.go:92-99 | a lost write after cleaning makes the next written reconcile fail a task whose execution returned nil, or drop its context |
| `ReconcileFaults.MissingResultFails` | pkg/coordinator/coordinator.go:146-149 | a running context whose result is gone fails, or is dropped |
| `RetryBound.RetriesAreBounded` | pkg/coordinator/coordinator.go:160-185 | for n tasks and limit m: at most m+1 handled failures, n+m+1 submissions when retrying, n(m+2) when starting over in place, and a bound on all changes |
| `RetryBound.EveryFlowEnds` | pkg/coordinator/coordinator.go:108-187 | after a bounded number of prompt reconciles the context is gone: finished after its last task, in its target status, or archived after exactly m+1 handled failures, in the archived status |
| `RetryRuns.AttemptsAreBounded` | pkg/coordinator/coordinator.go:108-187 | in every orderly run, from the creation of a flow for as long as its resource keeps it, the history gains at most n+m+1 executions of the resource when retrying and n(m+2) over all passes when starting over |
| `RetryRuns.ContextIsLetGo` | pkg/coordinator/coordinator.go:108-187 | in every orderly run, after a bounded number of reconciles of the resource that find functions and results, it has let go of the flow |
| `Rescue.RescueController.Act` | internal/controller/obresourcerescue_controller.go:86-186 | each rescue type reaches its goal in the stored target or, when a call fails or the context is missing, leaves it (a half-done delete only drops the finalizers) |
| `Rescue.RescueController.Reconcile` | internal/controller/obresourcerescue_controller.go:51-205 | target and rescue status after one reconcile, for every kind, type and failing call |
| `Rescue.RescueAchieves` | internal/controller/obresourcerescue_controller.go:66-201 | unhindered, each type of rescue of the nine kinds reaches exactly its goal and changes nothing else, and is marked |
| `Rescue.RescueOfNothing` | internal/controller/obresourcerescue_controller.go:66-84 | other kinds, missing targets and missing contexts are left alone and the rescue is not marked |
| `Rescue.HinderedRescue` | internal/controller/obresourcerescue_controller.go:86-186 | when a call fails the rescue is not marked and the target is as before, but for a delete that already took the finalizers |
| `Rescue.RescueIsProtocolStep` | internal/controller/obresourcerescue_controller.go:101-173 | a reconcile of a reset, retry or skip is no protocol step or exactly its rescue step |
| `Rescue.SuccessfulRescueIsInert` | internal/controller/obresourcerescue_controller.go:62-64 | a rescue marked successful never writes again |
| `Rescue.WritesAreLostMarksAndOne` | internal/controller/obresourcerescue_controller.go:188-201 | over all its reconciles a rescue writes its target once if it ends successful, plus once per lost mark |
| `Rescue.LostMarkSkipsTwoTasksIff` | internal/controller/obresourcerescue_controller.go:152-201 | with one reconcile between a skip whose mark is lost and its repetition, the following task is skipped too exactly when that reconcile was written and kept the context; else nothing new is skipped |
| `Rescue.PendingStartsOneExecution` | pkg/coordinator/coordinator.go:117-129 | a reconcile of a pending context puts exactly its new execution in progress |
| `Rescue.RetryAddsAnExecution` | internal/controller/obresourcerescue_controller.go:115-151 | a retry adds one execution: two run at once exactly when one had not returned |
| `UpgradeGraph.PushIgnoresRepetition` | pkg/helper/upgrade.go:94-119 | edges that `Build` lists twice do not change the search |
| `UpgradeGraph.SearchIsSound` | pkg/helper/upgrade.go:153-187 | a found path connects start and target by edges of the list and repeats no version |
| `UpgradeGraph.SearchIsComplete` | pkg/helper/upgrade.go:153-187 | when the search gives up the target is unreachable |
| `UpgradeGraph.RouteIsSound` | pkg/helper/upgrade.go:88-233 | a route consists of entries of the list, runs from resolved start to resolved target over edges without repetition, or is the doubled version when both agree |
| `UpgradeGraph.RouteIsComplete` | pkg/helper/upgrade.go:103-187 | once both versions resolve, "no route" is answered exactly when the target is unreachable |
| `UpgradeGraph.NotFoundIff` | pkg/helper/upgrade.go:123-143 | a version is not found exactly when the list has neither it nor what comes before its first dash, the start being looked for first |
| `UpgradeGraph.BuildIsIgnored` | pkg/helper/upgrade.go:124-140 | a version that the list has only without its build is routed, from and to, as the one without it |
| `UpgradeGraph.FullVersionIsPreferred` | pkg/helper/upgrade.go:126-139 | a version that the list has is taken as it is |
| `UpgradeGraph.GraphAppend` | pkg/helper/upgrade.go:88-93 | of two entries for one version the later one counts |
| `UpgradeGraph.RouteNeedNotBeShortest` | pkg/helper/upgrade.go:157-158 | a family of graphs on which a longer route through a binary-requiring version is answered |
| `UpgradeGraph.AcceptedUpgradeHasCleanRoute` | internal/cmds/helper/upgrade_validate.go:57-70 | an accepted upgrade has a route that needs no intermediate binary |
| `UpgradeGraph.CleanRouteMayBeMissed` | internal/cmds/helper/upgrade_validate.go:65-69 | the converse fails: a clean route may exist and not be chosen |
| `UpgradeOrder.RouteIsTight` | pkg/helper/upgrade.go:153-187 | every found route, over every list, has no shortcut: no version can be upgraded to one two or more places later |
| `UpgradeOrder.DirectUpgradeIsTaken` | pkg/helper/upgrade.go:174-182 | an upgrade that the list allows directly is answered directly |
| `UpgradeOrder.ShortRoutesAreShortest` | pkg/helper/upgrade.go:121-233 | routes of at most three versions are shortest |
| `UpgradeOrder.TightPathIsAnswered` | pkg/helper/upgrade.go:153-187 | listing each version's successor on a shortcut-free path last makes the search answer that path |
| `UpgradeOrder.AnswersAreTheTightPaths` | pkg/helper/upgrade.go:121-233 | over all orders of the lists the answered paths are exactly those without repetition and shortcut |
| `UpgradeOrder.ShortestInEveryOrderIff` | pkg/helper/upgrade.go:157-158 | every order gives a shortest route exactly when there is one and all shortcut-free paths have one length |
| `UpgradeOrder.AcceptedInEveryOrderIff` | internal/cmds/helper/upgrade_validate.go:57-70 | every order gives an accepted upgrade exactly when the target is reachable and every shortcut-free path is clean |
| `UpgradeRoute.BuildNeighbours` | pkg/helper/upgrade.go:103-119 | appends one node per listed version, shared with the map or a fresh childless placeholder |
| `UpgradeRoute.Build` | pkg/helper/upgrade.go:88-101 | the heap graph represents the list: nodes of one version are one object or childless placeholders, and every node has its listed neighbours |
| `UpgradeRoute.HasOtherTarget` | pkg/helper/upgrade.go:159-172 | at the target there is never another unvisited node of the same version |
| `UpgradeRoute.VisitAll` | pkg/helper/upgrade.go:174-182 | pushing neighbours on the heap refines pushing versions, and precursors follow the recorded paths |
| `UpgradeRoute.SearchGraph` | pkg/helper/upgrade.go:146-187 | the work-list loop ends with the final node of the abstract search, or none exactly when that search finds none |
| `UpgradeRoute.Rebuild` | pkg/helper/upgrade.go:189-204 | following precursors terminates, the inner loop never spins, and the entries of the found path come out |
| `UpgradeRoute.FindShortestUpgradePath` | pkg/helper/upgrade.go:121-233 | the answer is the route, or the error, of the input list |
| `UpgradeRoute.GetOBUpgradeRoute` | pkg/helper/upgrade.go:53-74 | building and searching the heap graph computes the route of the parsed list |
| `UpgradeRoute.ScanRoute` | internal/cmds/helper/upgrade_validate.go:65-70 | accepts exactly routes without inner binary requirement, else names the first one |
| `UpgradeRoute.ValidateUpgrade` | internal/cmds/helper/upgrade_validate.go:49-71 | fails exactly without a route, and accepts exactly when its route needs no intermediate binary |
| `ClusterDefaults.SizesArePercentages` | api/v1alpha1/obcluster_webhook.go:65-99 | while the product fits 64 bits the limits are the percentages rounded down to whole units of 2^20 and 2^30, and there is one log file for every two gigabytes |
| `ClusterDefaults.TenGibibytes` | api/v1alpha1/obcluster_webhook.go:67-98 | 10 GiB with 90 percent give 9216M, 100 GiB with 95 percent 95G, a log of 50 GiB with 80 percent 20 files |
| `ClusterDefaults.DefaultEntries` | api/v1alpha1/obcluster_webhook.go:64-103 | the default entries by name, printed with their suffixes, and no others |
| `ClusterDefaults.MemoryLimitWithinMemory` | api/v1alpha1/obcluster_webhook.go:65-71 | the printed `memory_limit`, read back in decimal units, is within the memory exactly when the memory is not negative, also on 64-bit overflow |
| `ClusterDefaults.DatafileWithinStorage` | api/v1alpha1/obcluster_webhook.go:75-81 | likewise `datafile_maxsize` within the data storage |
| `ClusterDefaults.NextWithinMax` | api/v1alpha1/obcluster_webhook.go:75-86 | `datafile_next` is at most `datafile_maxsize` for a smaller percentage while the product fits 64 bits |
| `ClusterDefaults.NextWithinMaxIff` | api/v1alpha1/obcluster_webhook.go:75-86 | below 2^64 the order holds exactly when the larger product fits 64 bits, the smaller one overflows too, or both sizes come out as zero |
| `ClusterDefaults.NextWithinMaxWrapped` | api/v1alpha1/obcluster_webhook.go:75-86 | for all sizes and percentages the order holds exactly when the wrapped products are in order or within the same 100 GiB |
| `ClusterDefaults.NextMayExceedMaxOnOverflow` | api/v1alpha1/obcluster_webhook.go:75-86 | a size on which overflow breaks that |
| `ClusterDefaults.LastEntryCounts` | api/v1alpha1/obcluster_webhook.go:105-107 | of several user entries with one name the last one is kept |
| `ClusterDefaults.UserEntriesWin` | api/v1alpha1/obcluster_webhook.go:64-112 | user entries override defaults and every other default is present |
| `ClusterDefaults.UniqueIsPermutation` | api/v1alpha1/obcluster_webhook.go:108-112 | unique names make the parameter list determined by its map up to order |
| `ClusterDefaults.DefaultingIsIdempotent` | api/v1alpha1/obcluster_webhook.go:64-112 | a second defaulting only reorders, for every iteration order |
| `ClusterDefaults.EssentialParameters` | api/v1alpha1/obcluster_webhook.go:64-103 | the default parameters of a spec, with each size that is no int64 left out |
| `ClusterDefaults.Overlay` | api/v1alpha1/obcluster_webhook.go:105-107 | defaults overridden by the last user entry per name |
| `ClusterDefaults.Listing` | api/v1alpha1/obcluster_webhook.go:108-112 | unique names and exactly the map, in any order |
| `ClusterDefaults.FirstDefault` | api/v1alpha1/obcluster_webhook.go:127-161 | the default storage class that is first by name, none exactly when there is none or they cannot be listed |
| `ClusterDefaults.FirstDefaultIsUnique` | api/v1alpha1/obcluster_webhook.go:136-143 | the chosen class does not depend on the order in which classes are listed |
| `ClusterDefaults.NamesAreFilled` | api/v1alpha1/obcluster_webhook.go:114-126 | given names are kept; the others get their prefix and what was drawn, or the default account |
| `ClusterDefaults.ClassesAreFilled` | api/v1alpha1/obcluster_webhook.go:127-161 | given storage classes are kept, empty ones get the chosen default if there is one |
| `ClusterDefaults.FillingIsIdempotent` | api/v1alpha1/obcluster_webhook.go:114-161 | once a default class was found no name is left empty and a second defaulting changes none |
| `ClusterDefaults.ClusterSpec.Default` | api/v1alpha1/obcluster_webhook.go:60-162 | the new parameters have unique names and are the defaults overridden by the old ones; empty secret names, service account and storage classes are filled in and others kept; it panics exactly without user secrets |
| `ClusterAdmission.FirstProblems` | api/v1alpha1/obcluster_webhook.go:282-340 | the first group of checks finds a problem exactly when standalone, secrets, topology or storage classes are not in order |
| `ClusterAdmission.StorageProblems` | api/v1alpha1/obcluster_webhook.go:342-378 | problems exactly when a class is unknown, several are used with one volume, or a disk is too small |
| `ClusterAdmission.ParameterProblems` | api/v1alpha1/obcluster_webhook.go:384-418 | problems exactly when a stated limit does not parse or exceeds memory, a third of the disks, or the data storage |
| `ClusterAdmission.ValidateMutation` | api/v1alpha1/obcluster_webhook.go:276-439 | no error exactly for objects under deletion or in order in every respect |
| `ClusterAdmission.ObjectAcceptedIff` | api/v1alpha1/obcluster_webhook.go:276-439 | an object not under deletion is accepted exactly when modes, secrets, zones, classes, sizes, the last limits given and the account are in order, in elementary terms |
| `ClusterAdmission.LastValuesDecide` | api/v1alpha1/obcluster_webhook.go:384-418 | of several values for a limit the last one is checked |
| `ClusterAdmission.ShareOfWholeQuota` | api/v1alpha1/obcluster_webhook.go:206-211 | nine tenths are usable where the server's limit exceeds the quota, else the limit's share of it |
| `ClusterAdmission.CpuIsCheckedAbove16` | api/v1alpha1/obcluster_webhook.go:221-223 | assigned cpu is looked at only above 16 cpus |
| `ClusterAdmission.CheckAssigned` | api/v1alpha1/obcluster_webhook.go:202-223 | the running maxima accept exactly when the first server with most memory assigned fits, and every server's cpu on clusters above 16 cpus |
| `ClusterAdmission.CheckIsRightIff` | api/v1alpha1/obcluster_webhook.go:205-220 | what passes fits every server, for every new size, exactly when no server has more memory assigned in proportion to its usable share than the first one with most memory assigned |
| `ClusterAdmission.EqualLimitsAreMostLoaded` | api/v1alpha1/obcluster_webhook.go:205-220 | with one memory limit everywhere that condition holds |
| `ClusterAdmission.EqualLimitsFitEveryServer` | api/v1alpha1/obcluster_webhook.go:205-220 | with one memory limit everywhere what passes fits every server, whatever the shares |
| `ClusterAdmission.OverloadedServerIsMissed` | api/v1alpha1/obcluster_webhook.go:175-266 | whenever the condition fails, shrinking to the least passing size is an accepted update that does not fit some server |
| `ClusterAdmission.UnequalLimitsMissAServer` | api/v1alpha1/obcluster_webhook.go:175-266 | such an accepted update from 100 to 60 GiB |
| `ClusterAdmission.CheckResources` | api/v1alpha1/obcluster_webhook.go:180-224 | mode, cpu and memory pass exactly when the mode is kept and the resources may change |
| `ClusterAdmission.ValidateUpdate` | api/v1alpha1/obcluster_webhook.go:175-266 | an update is accepted exactly when every rule holds |
| `ClusterAdmission.StorageNeverShrinks` | api/v1alpha1/obcluster_webhook.go:237-263 | along any history of accepted updates data, log and redo-log sizes never decrease, objects under deletion included |
| `ClusterAdmission.GrowthNeedsExpansion` | api/v1alpha1/obcluster_webhook.go:237-250 | a volume that grew along a history did so in an update to a class that allows expansion |
| `ClusterAdmission.ShrinkNeedsRunning` | api/v1alpha1/obcluster_webhook.go:189-224 | memory or cpu that shrank along a history did so in a running cluster with room for what its servers use |
| `ClusterAdmission.UnchangedAcceptedIff` | api/v1alpha1/obcluster_webhook.go:175-266 | an update that changes nothing is accepted exactly when the object is in order |
| `ClusterAdmission.ChangeNeedsStaticIP` | api/v1alpha1/obcluster_types.go:93-97 | without static IPs no update of cpu, memory, backup volume or monitor goes through |
| `ClusterAdmission.StaticIPAllowsChange` | api/v1alpha1/obcluster_types.go:93-97 | with the annotation, the service or the standalone mode every such update that takes nothing away does, if the object is in order |
| `ClusterAdmission.StatedModeNeverChanges` | api/v1alpha1/obcluster_webhook.go:180-185 | the mode is constant while every version states one |
| `ClusterAdmission.ModeCanChangeInTwoUpdates` | api/v1alpha1/obcluster_webhook.go:180-185 | else dropping and adding the annotation changes it, though not in one update |
| `ClusterAdmission.ResourcesFixedWithoutStaticIP` | api/v1alpha1/obcluster_webhook.go:186-235 | without static IPs cpu, memory, backup volume and monitor stay identical along a history |
| `ClusterAdmission.DefaultsPassTheirChecks` | api/v1alpha1/obcluster_webhook.go:390-418 | defaulted `memory_limit` and `datafile_maxsize` pass the comparisons with memory and data storage; all checks of `memory_limit` pass exactly when both disks are at least three times the default limit |
| `ScalePlan.MapZonesToTopology` | internal/cli/utils/parser.go:32-50 | fails exactly on a missing map or a number that does not parse, else one zone per name with its number |
| `ScalePlan.ScaleOptions.Find` | internal/cli/cluster/scale.go:126-138 | the first old zone of a name, if there is one |
| `ScalePlan.ScaleOptions.Validate` | internal/cli/cluster/scale.go:119-166 | accepts exactly non-empty requests of one class that delete at most the allowed number, and records the class |
| `ScalePlan.ScaleOptions.Complete` | internal/cli/cluster/scale.go:86-117 | every requested zone yields exactly one entry, in order, in the list of its class |
| `ScalePlan.ScaleOptions.GetScaleOperation` | internal/cli/cluster/scale.go:51-74 | the operation carries exactly the list of its type |
| `ScalePlan.Scale` | internal/cli/cluster/scale.go:76-166 | the whole command: bad requests, refusals exactly of unplannable requests, and the plan |
| `ScalePlan.ZoneReplicaMap` | api/v1alpha1/obclusteroperation_webhook.go:124-127 | knows exactly the cluster's zones |
| `ScalePlan.ValidateCreate` | api/v1alpha1/obclusteroperation_webhook.go:76-154 | accepts exactly operations with the list of their type, positive replicas, new zones to add and existing zones to delete |
| `ScalePlan.WebhookRefusesIff` | api/v1alpha1/obclusteroperation_webhook.go:77-154 | the refusals of zone operations, one by one |
| `ScalePlan.AcceptedReplicasArePositive` | api/v1alpha1/obclusteroperation_webhook.go:129-154 | an accepted operation leaves no zone without a replica |
| `ScalePlan.PlannableIff` | internal/cli/cluster/scale.go:119-166 | the requests that can be planned, in terms of zones, numbers and n - n/2 alone |
| `ScalePlan.PlanIsTheRequest` | internal/cli/cluster/scale.go:51-117 | one entry for each requested zone, in order, in the one list of the kind |
| `ScalePlan.PlanPassesWebhookIff` | internal/cli/cluster/scale.go:86-166 | a plan passes the webhook exactly when it deletes zones or all replicas are positive |
| `ScalePlan.DeleteLeavesExactly` | internal/cli/cluster/scale.go:119-145 | a delete leaves the cluster's distinct zones less the requested ones, so at least half exactly when the request is small enough by that count |
| `ScalePlan.DeleteLeavesHalf` | internal/cli/cluster/scale.go:119-145 | a delete from n distinct zones leaves at least n/2 rounded down; only a single zone can vanish entirely |
| `ScalePlan.DeleteAcceptedIffHalfIsLeft` | internal/cli/cluster/scale.go:119-145 | a delete of distinct zones from n distinct ones is accepted exactly when it leaves n/2 rounded down |
| `ScalePlan.DuplicateZoneBreaksHalf` | internal/cli/cluster/scale.go:119-145 | with a zone listed twice in the cluster that fails |
| `ClientCache.StepKeepsInv` | internal/clientcache/ctrl_runtime.go:34-60 | fetch, load, build and store of any callers keep every entry and every caller's client good |
| `ClientCache.NeverStale` | internal/clientcache/ctrl_runtime.go:34-60 | in every interleaving without re-creation of its own object a caller gets a client of a generation at least the one it fetched and at most the current one |
| `ClientCache.EntriesCanGoBack` | internal/clientcache/ctrl_runtime.go:58-58 | a slow caller may replace a newer entry by an older one, and the invariant survives |
| `ClientCache.LoadIsStaleIff` | internal/clientcache/ctrl_runtime.go:40-45 | in every run, re-creations included, a load answers a client of another incarnation exactly when the cache holds one with at least the fetched generation |
| `ClientCache.BuiltIsNotStale` | internal/clientcache/ctrl_runtime.go:46-59 | a client that a caller built itself is never one of another incarnation |
| `ClientCache.StaleAfterRecreation` | internal/clientcache/client_set.go:33-54 | after re-creation of an object a cached name gives the deleted object's client |
| `ClientCache.Cache.GetClient` | internal/clientcache/ctrl_runtime.go:34-60 | an uninterrupted call: the cached client if new enough, else a new one that is stored, and nothing stored on errors |
| `Versions.ParseOceanBaseVersion` | pkg/helper/version.go:48-86 | the field-by-field parser computes the parse function, errors included |
| `Versions.PatternIsFormat` | pkg/helper/version.go:51-55 | splitting decides exactly the pattern |
| `Versions.ParseAccepts` | pkg/helper/version.go:48-86 | parsing succeeds exactly on the pattern with numbers that fit an int |
| `Versions.ParseReadsFields` | pkg/helper/version.go:57-85 | the four numbers are read in their order, a missing sub-patch is zero, the build is kept |
| `Versions.ParseOfPrint` | pkg/helper/version.go:88-94 | parsing a printed version gives it back |
| `Versions.PrintIsNormalForm` | pkg/helper/version.go:48-94 | printing a parsed string is a normal form, stable under parsing and printing |
| `Versions.CmpIsAntisymmetric` | pkg/helper/version.go:96-114 | the order is antisymmetric in sign and zero exactly on equal versions |
| `Versions.CmpOrdersByFirstDifference` | pkg/helper/version.go:96-109 | the first of major, minor, patch and sub-patch in which two versions differ decides the order |
| `Versions.CmpOrdersByBuild` | pkg/helper/version.go:110-113 | when the four numbers agree the text order of the builds decides |
| `Versions.CmpIsTransitive` | pkg/helper/version.go:96-114 | the order is transitive |
| `Versions.EqualLengthBuildsCompareAsNumbers` | pkg/helper/version.go:110-112 | builds of equal length order as numbers |
| `Versions.ShorterBuildOrdersFirstIff` | pkg/helper/version.go:110-112 | a shorter build orders first exactly when its number is at most that of the other's leading digits |
| `Versions.BuildsCompareAsNumbersIff` | pkg/helper/version.go:110-112 | for different lengths the order is that of the numbers unless the shorter number lies strictly between the other's leading digits and the other, or both are zero |
| `Versions.LongerBuildMayOrderFirst` | pkg/helper/version.go:110-112 | build 10 orders before build 9 |
| `AesEnvelope.PadFillsBlocks` | pkg/crypto/aes.go:101-105 | padding gives a non-empty multiple of the block size that extends the data by at most one block, every added byte being the number added |
| `AesEnvelope.UnpadOfPadIff` | pkg/crypto/aes.go:101-111 | unpadding restores the data exactly when the padding length fits a byte, so for all block sizes up to 255 (section 6.3 of RFC 5652) |
| `AesEnvelope.AESEncrypt` | pkg/crypto/aes.go:26-57 | the buffer-filling encryption computes the envelope function, errors included |
| `AesEnvelope.AESDecrypt` | pkg/crypto/aes.go:60-98 | the in-place decryption computes the opening function, errors included |
| `AesEnvelope.DecryptOfEncrypt` | pkg/crypto/aes.go:26-98 | for every 32-byte key, vector and content, decryption returns what was encrypted |
| `AesEnvelope.KeysAre32Bytes` | pkg/crypto/aes.go:26-70 | every other key size is refused, in decryption after the encoding was looked at |
| `AesEnvelope.EnvelopeBeginsWithVector` | pkg/crypto/aes.go:39-57 | the encoded bytes are the vector followed by whole blocks that decrypt to the padded content |
| `AesEnvelope.BareVectorPanics` | pkg/crypto/aes.go:60-111 | the encoding of a bare vector makes decryption panic under every 32-byte key |
| `AesEnvelope.DecryptPanicsIff` | pkg/crypto/aes.go:60-111 | decryption panics exactly on a bare vector or a last byte larger than the plain text |

## Left out

- Task flow choice: which flow a manager picks (`GetTaskFlow`), whether a task's function is found and what the tasks do are inputs of a reconcile.
- The differences between the resource managers are a configuration: status names, treatment of deletion, of unset and of unknown strategies.
- Task ids are drawn fresh: that UUIDs never repeat is an assumption of every step that submits.
- Channels are kept per task id instead of by reference; the goroutine of a cleaned task goes on with its channel as in the source.
- Logging, events, debug memory statistics, the worker count and the stack trace in panic messages.
- What `UpdateStatus` reads from the database, and the fields it writes besides status and context; whether it fails is part of whether the write is lost.
- Conflicts between concurrent status writes: a write is stored whole or lost. A stale read followed by a stored write is allowed, since the managers re-read the object and overwrite its whole status (internal/resource/obcluster/utils.go:65-73).
- The retry bounds count one context: a manager that drops the context and starts another one begins a new count.
- `Rescue` folds the failures of the lookups before the action into one input; deciding which resource a kind and group version name is not modelled.
- YAML and file reading of the upgrade list (a parsed list is the input; `next` and `precursor` start empty), the shell call for the current version, `WhenComeFrom`, `Deprecated`, `DirectComeFrom` and `DirectUpgrade`.
- UpgradeRoute.Rebuild: the inner loop of pkg/helper/upgrade.go:196-202 is a proof that its condition never holds, since as written it would never end.
- Lookups of secrets, classes, clusters and accounts are inputs of defaulting and validation, and so are the random suffixes that defaulting draws.
- ClusterAdmission.ValidateUpdate: works on values of both objects, and floating-point comparisons are comparisons of reals; a share of a zero memory quota, a division by zero in the source, counts as zero.
- `ParseQuantity`, CBC and base64 are parameters with the laws of their formats (section 6.2 of NIST SP 800-38A, section 4 of RFC 4648).
- ScalePlan.ValidateCreate: only the checks that concern zone operations; upgrade, restart, modify and parameter operations would add only further field checks.
- `client_set.go` runs the protocol of `ctrl_runtime.go` with another client type and is covered by the same module.
- The other controllers and webhooks, the dashboard, telemetry, database pools and RSA.
