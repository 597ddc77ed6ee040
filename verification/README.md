# A verified model of the Polars operator's reconcile engine

The Polars operator drives a `PolarsCluster` resource to its spec: one scheduler pod, a pool of worker pods, three
services, up to two Gateway API routes and two service accounts. This project models its controller in Dafny and proves
what a single reconcile does, what every run of reconciles keeps, and where a cluster settles.

`dafny verify dfyconfig.toml` checks everything.

## How the model is built

- **The API server** (`ApiServer.dfy`) is a class holding all stored versions of the resource, the pods, accounts,
  services, routes, the events recorded, and a ghost trace of the writes to pods.
- **Reads** come from caches that may lag: the resource is read at any stored version, the other reads return whatever
  the cache holds. That stands for interleaving with other writers; between its reads and its writes a reconcile is
  otherwise one step. **Failures** are an oracle that may make any call of a reconcile fail with any error.
- **Each stage** is a pure specification function and an imperative method proved equal to it. The fan-outs run their
  tasks in any order, four (or three) at a time, and may be cancelled at any point, so any subset of tasks may have run.
  What the code promises is proved about the specification functions.
- **The reconciler** (`Reconcile.dfy`) is a class whose method `Reconcile` is proved equal to `ReconcileOnce`, a function
  from one world to the next. **Runs** (`Runs.dfy`) are sequences of such steps and of the environment's: edits of the
  spec or metadata, and changes to pods, services and routes.
- **Templates** are built from the version read (`TemplatesOf`) and handed to `ReconcileOnce` as a value. They depend on
  the resource's identity and spec only (`TemplateFrame.dfy`), so a result about reconciles of one spec is about one
  pair of templates.
- **Library code** (the strategic merge, the template hash, the version comparison) is a record of arbitrary functions.
  In particular nothing is assumed about hash collisions.

| file | what it holds |
|---|---|
| `Kube`, `PolarsCluster`, `ApiServer` | the objects, the resource, the server, its caches and faults |
| `Errors`, `SpecReasons` | error trees, their classification and reduction |
| `EnvBuilder`, `PodEnv`, `EnvNames` | the environment builder, the computed environments, and when their names are unique |
| `EnvTables` | the environments as tables over the spec |
| `PodTemplates`, `TemplateFrame`, `TemplateContents` | the pod templates, what they depend on, and the accounts pods run as |
| `Readiness`, `Scheduler`, `SchedulerLaws` | pod readiness; the scheduler stage and its laws |
| `WorkerPool`, `WorkerPoolLaws`, `WorkerPoolTheorems`, `WorkerPoolExact`, `WorkerPoolReports`, `PoolOutcomes` | the worker stage; writes, fan-out, closed forms, reports and scaling; when it succeeds, and that its report is true |
| `Services`, `ServiceLaws`, `ServiceContents` | services and service accounts; what each service is, field by field |
| `Routes`, `RouteLaws`, `RouteOwnership`, `RouteContents` | routes: the report, who may be written or deleted, where it settles; what each route is and when it is accepted |
| `Conditions`, `Reconcile`, `StatusLaws` | status conditions, the reconcile, what it persists |
| `Diagnoses`, `Rejections`, `Honesty` | whole reconciles: what each stage's outcome leads to, what becomes of a refused call, and that a published status is true |
| `PassEvents`, `Runs`, `Requeue` | whole runs: statuses and events; what a reconcile asks of its queue |
| `FleetRuns`, `WriteTrace`, `Warrants` | whole runs: the worker count, every write to a pod and what warrants it |
| `FreshPass`, `Convergence`, `ConvergenceRuns`, `GoingOn` | reconciles without failures: the measure, one reconcile, whole runs, and that they can go on |
| `ListingOrder`, `Quiescence` | what depends on the order of a listing; when the next reconcile changes nothing |

## Assumptions

- A failed write changes nothing. An update based on an old version of an object is refused; one that changes nothing
  makes no new version. An update of the status is checked against the version read.
- The API server returns no error the operator's own `specError` type occurs in (`Genuine`), where a result needs it.
- Pod names are not reused while a listing still shows them with other labels, and labels do not change (`Listing`).
- `Replicas` is not negative (api/v1alpha1/polarscluster_types.go:571).
- Reconciles of one resource follow one another, as the work queue guarantees, and a reconcile whose status update
  succeeded also records its event.
- The modelled behaviour of controller-runtime and apimachinery (`CreateOrUpdate`, `SetControllerReference`,
  `IsControlledBy`, `ParallelizeUntil`, the condition helpers, `errors.As`) is theirs as documented.

## What the proofs turned up

- The message about the workers is about the first one listed that is not Ready
  (internal/controller/polarscluster_controller.go:377-386), and nothing promises the order of the list call (line 312).
  With two or more such workers a settled cluster therefore does not stand still: a reconcile that happens to list them
  in another order persists another message, and the new version triggers the next reconcile (line 575).
  `TwoUnreadyDisagree` is the input; `StandsStill` and `StandsStillInEveryOrder` say exactly when the next reconcile
  changes nothing.
- A lagging read lets the scheduler stage delete a scheduler that is already the recreated, current one, and lets the
  routes stage delete a route someone else has created under the same name since. Neither delete carries a precondition.
  `WrongDeletes` and `ForeignDeletes` give the exact conditions, `LaggingReadDeletesCurrent` and
  `LaggingReadDeletesForeign` the inputs.
- Applying a route compares owners by kind and name, removing one by uid. A route is safe from the operator if both
  comparisons call it foreign (`Foreign`, `ForeignRoutesAreSafe`).
- Services are updated without looking at their owner (`ForeignServiceOverwritten`), unlike routes.
- An error of reading a route is classified like one of writing it (internal/controller/routes.go:182-185), so a read the
  server forbids is reported as RouteRejected and not retried (`RequestAnswered`); the other stages hand such errors on.
- A cancelled services fan-out reports success though some services were never touched
  (`SuccessCoversTheTasksThatRan`); with no task run it succeeds on a cluster without services
  (`CancelledFanOutSucceeds`).
- The worker template does not depend on the replica count (`WorkerTemplateIgnoresReplicas`), but the scheduler's
  environment carries it (`SchedulerEnvTracksReplicas`), so scaling the pool also changes the scheduler's template.
- `presignDuration` of shuffle data is documented (api/v1alpha1/polarscluster_types.go:678-680) and never emitted
  (internal/controller/worker_pod.go:188-204): the worker template is the same whatever it is
  (`ShuffleLifetimeIsIgnored`), while that of anonymous results is emitted (`ResultsLifetimeIsEmitted`).
- A section with an empty name directly under the root leaves no separator, so the "`__`-joined name" promise of
  internal/controller/env_builder.go:12-16 holds exactly when the outermost section has a name (`NameIsJoinOfPath`).

## Model

| member | source | states |
|---|---|---|
| Errors.AsFindsEveryOccurrence | internal/controller/polarscluster_controller.go:95-98 | the pre-order search of an error tree finds a node of a kind exactly when one occurs anywhere in the tree |
| Errors.ClassifyRouting | internal/controller/errors.go:29-38 | rejections of an object's content become spec errors around the original, with the same text; every other error passes through |
| Errors.ReducePodErrors | internal/controller/errors.go:40-64 | the loop computes the reduction the next three rows speak of |
| Errors.ReduceConserves | internal/controller/errors.go:40-64 | no non-nil error is lost or duplicated, and there is a result exactly when there is one |
| Errors.SideKeepsOrder | internal/controller/errors.go:41-52 | each of the two classes lists its errors in slot order and misses none |
| Errors.ReduceRouting | internal/controller/errors.go:54-63 | the result counts as a spec error exactly when there is a spec error and no transient one, and has the first one's reason; otherwise no spec error occurs in it |
| EnvBuilder.Execute | internal/controller/env_builder.go:12-33 | for any tree of sections and any interleaving of appends, every builder shows the one list of all appends in call order |
| EnvBuilder.Builder.Section | internal/controller/env_builder.go:29-40 | a section shares the list and has the qualified prefix |
| EnvBuilder.Builder.Options | internal/controller/env_builder.go:75-86 | every option is appended in order under the prefix with its own value or source |
| EnvBuilder.NameIsJoinOfPath | internal/controller/env_builder.go:12-40 | a name is the "__"-join of its section path and leaf exactly when the path is empty or its outermost section has a name |
| EnvBuilder.ChainedSections | internal/controller/env_builder.go:29-40 | two chained sections are one with the joined name exactly unless the outer one is empty under the root |
| EnvBuilder.QualifyInjective | internal/controller/env_builder.go:35-40 | under one prefix two names collide exactly when their leaves are equal |
| PodEnv.ComputedWorkerEnv | internal/controller/worker_pod.go:61-139 | the worker environment built through the shared builders is the list WorkerEnv, whose names WorkerEnvNames speaks of |
| PodEnv.ComputedShuffleDataConfig | internal/controller/worker_pod.go:183-219 | the shuffle location's variables, S3 before ABS before GCS before shared before local, with the default path |
| PodEnv.ComputedCheckpointDataEnv | internal/controller/worker_pod.go:230-256 | the checkpoint location's variables |
| PodEnv.ComputedSchedulerEnv | internal/controller/scheduler_pod.go:60-133 | the scheduler environment built through the shared builders is the list SchedulerEnv, whose names SchedulerEnvNames speaks of |
| PodEnv.SchedulerLicenseConfig | internal/controller/scheduler_pod.go:161-197 | the license variables, on-prem before enterprise before cloud |
| PodEnv.ComputedAnonymousResultsEnv | internal/controller/scheduler_pod.go:218-253 | the anonymous-results variables, with the presigned lifetime where set |
| EnvTables.SchedulerEnvIsTable | internal/controller/scheduler_pod.go:60-133 | the scheduler carries exactly the variables of a table over the spec's fields: anonymous users denied unless allowed, its own leader, one license, defaults where the spec is silent |
| EnvTables.WorkerEnvIsTable | internal/controller/worker_pod.go:61-139 | a worker carries exactly the variables of its table: never a leader, shuffle data always somewhere, the extras turned on |
| EnvTables.WorkersReachTheScheduler | internal/controller/worker_pod.go:64-89 | the host and ports the workers dial are those of the internal service the operator stores, which leads to the scheduler |
| EnvNames.WorkerEnvNames | internal/controller/worker_pod.go:70-139 | no worker variable name occurs twice exactly when the options of the stores in use are pairwise distinct and none is "url" |
| EnvNames.SchedulerEnvNames | internal/controller/scheduler_pod.go:63-133 | no scheduler variable name occurs twice exactly when the anonymous-results options are pairwise distinct and avoid "url" and a set "presign_duration" |
| PodTemplates.BuildWorkerPodTemplate | internal/controller/worker_pod.go:24-58 | the worker template or its spec error, for any merge library |
| PodTemplates.BuildSchedulerPodTemplate | internal/controller/scheduler_pod.go:26-57 | the scheduler template or its spec error, for any merge library |
| TemplateContents.WorkerTemplateBuilds | internal/controller/worker_pod.go:24-58 | building fails with InvalidPodTemplate exactly without a container and a runtime, or when the merge does; otherwise the first container, or one named "worker", gets the table's environment and a probe unless it has one |
| TemplateContents.SchedulerTemplateBuilds | internal/controller/scheduler_pod.go:26-57 | the same of the scheduler template |
| PodTemplates.WorkerTemplateIgnoresReplicas | internal/controller/worker_pod.go:24-166 | the worker template, and so its hash, is the same for every replica count |
| PodTemplates.SchedulerEnvTracksReplicas | internal/controller/scheduler_pod.go:108 | the scheduler environments for two replica counts are equal exactly when the counts are |
| TemplateFrame.WorkerTemplateFollowsSpec | internal/controller/worker_pod.go:24-166 | the worker template depends on identity and spec only, not on status or metadata |
| TemplateFrame.SchedulerTemplateFollowsSpec | internal/controller/scheduler_pod.go:26-157 | so does the scheduler template |
| TemplateFrame.ShuffleLifetimeIsIgnored | internal/controller/worker_pod.go:183-219 | the worker template is the same for every presigned lifetime of the shuffle location |
| TemplateFrame.ResultsLifetimeIsEmitted | internal/controller/scheduler_pod.go:218-253 | the anonymous-results variables for two lifetimes are equal exactly when the lifetimes are or the location is no object store |
| Readiness.CheckPodIsReady | internal/controller/polarscluster_controller.go:531-538 | true exactly when some Ready condition of the pod is True |
| Readiness.ExplainPodNotReady | internal/controller/polarscluster_controller.go:543-564 | the explanation, never empty |
| Readiness.NoDetailMissed | internal/controller/polarscluster_controller.go:543-564 | the explanation is that of the first unmet Ready condition that has one, else that of the first container that says why it waits or terminated, else the generic text |
| ApiServer.Server.DeletePod | internal/controller/polarscluster_controller.go:274 | a deleted pod keeps its name while it terminates; a failed delete changes nothing |
| ApiServer.Server.CreatePod | internal/controller/polarscluster_controller.go:263 | a creation is refused while the name is taken |
| ApiServer.Server.UpdateStatus | internal/controller/polarscluster_controller.go:159 | a status update is accepted only for the current version |
| Scheduler.ReconcileScheduler | internal/controller/polarscluster_controller.go:245-286 | the stage does what SchedulerPass says, for any read and failures |
| SchedulerLaws.AtMostOneWrite | internal/controller/polarscluster_controller.go:258-280 | at most one write, only to the scheduler's name; a Create takes effect only when no pod has it, a terminating one included |
| SchedulerLaws.TellsWhatItDid | internal/controller/polarscluster_controller.go:263-285 | report and event follow exactly what was created or recreated, a pod already gone included |
| SchedulerLaws.ReadyTruth | internal/controller/polarscluster_controller.go:273-285 | Ready is reported exactly when the pod read is Ready and current or terminating; a message exactly when not ready |
| SchedulerLaws.WrongDeletes | internal/controller/polarscluster_controller.go:273-276 | a Delete reaches a current or terminating pod exactly when the read showed an outdated one and another has the name by then |
| SchedulerLaws.UpToDateReadDeletesRightly | internal/controller/polarscluster_controller.go:273-276 | never with an up-to-date read |
| SchedulerLaws.LaggingReadDeletesCurrent | internal/controller/polarscluster_controller.go:256-276 | an input where a lagging read deletes the current scheduler |
| SchedulerLaws.PhaseStep | internal/controller/polarscluster_controller.go:245-286 | a fault-free pass moves outdated to terminating and absent to current, and leaves the others |
| Rejections.SchedulerFailures | internal/controller/polarscluster_controller.go:255-276 | the stage fails exactly when the read fails, a needed deletion is refused or the creation fails; a creation refused as Invalid or Forbidden becomes a spec error "SchedulerPodRejected" with its text, every other error is handed on |
| WorkerPool.DeleteStaleWorkers | internal/controller/polarscluster_controller.go:319-332 | the loop computes Sift: the pods, writes and events left, the active workers, the first failure |
| WorkerPool.ParallelizeCreates | internal/controller/polarscluster_controller.go:336-346 | for some order of any subset of the tasks the store is Spawn's and each slot shows its task's outcome or nothing |
| WorkerPool.AnnounceCreated | internal/controller/polarscluster_controller.go:348-354 | created pods are announced and join the active ones in slot order |
| WorkerPool.DeleteSurplusWorkers | internal/controller/polarscluster_controller.go:361-373 | the loop computes Trim on the surplus prefix, never out of range |
| WorkerPool.ReportWorkers | internal/controller/polarscluster_controller.go:377-402 | the counting loop computes ReportOn |
| WorkerPool.ReconcileWorkerPool | internal/controller/polarscluster_controller.go:292-403 | the stage does what WorkerPass says for some admissible order of the creations |
| WorkerPoolLaws.SiftEffect | internal/controller/polarscluster_controller.go:319-332 | replacing stale workers never touches a current one, whatever fails |
| WorkerPoolLaws.TrimEffect | internal/controller/polarscluster_controller.go:361-373 | scaling down makes at most the given workers terminate and leaves every other pod as it was, whatever fails |
| WorkerPoolLaws.SpawnConserves | internal/controller/polarscluster_controller.go:339-346 | the store grows by one current worker per filled slot; a slot is decided exactly if its task ran |
| WorkerPoolLaws.SiftAnnounces | internal/controller/polarscluster_controller.go:324-328 | the events are, in order, one for each stale live worker listed before the first failed deletion, also one already gone; each write deletes one of them |
| WorkerPoolLaws.TrimAnnounces | internal/controller/polarscluster_controller.go:365-372 | the events are, in order, one for each deletion the server accepted, each of one of the given workers |
| PoolOutcomes.TrimFailsWithFirst | internal/controller/polarscluster_controller.go:361-373 | scaling down fails with the first deletion error that is not NotFound, and with no other |
| PoolOutcomes.TrimEndsAll | internal/controller/polarscluster_controller.go:361-373 | when it succeeds every surplus worker is gone or terminating, barring a false NotFound |
| PoolOutcomes.SiftFailsWithFirst | internal/controller/polarscluster_controller.go:319-332 | replacing stale workers fails with the first such error about a stale worker listed |
| PoolOutcomes.SiftEndsStale | internal/controller/polarscluster_controller.go:319-332 | when it succeeds every stale worker listed is gone or terminating |
| PoolOutcomes.StageOutcome | internal/controller/polarscluster_controller.go:319-375 | the stage succeeds exactly when no deletion it needs is refused and every creation that ran succeeded |
| PoolOutcomes.ReportIsTrue | internal/controller/polarscluster_controller.go:311-402 | with an up-to-date listing a successful stage reports exactly the current workers stored and the Ready ones among them, whatever failed, and leaves no stale one live |
| Rejections.WorkerRejections | internal/controller/polarscluster_controller.go:339-346 | a slot fails with the error of its creation, "WorkerPodRejected" around it if its content was refused |
| Rejections.GrowthOutcome | internal/controller/polarscluster_controller.go:336-360 | a growth fails as a spec error exactly when every failure of its slots is one; otherwise no spec error occurs in it |
| WorkerPoolTheorems.NoOvershoot | internal/controller/polarscluster_controller.go:319-375 | with an up-to-date listing every write of a pass moves toward the desired count and never past it, whatever fails or is cancelled |
| WorkerPoolTheorems.FanOutConserves | internal/controller/polarscluster_controller.go:336-360 | store growth and WorkerPodCreated events both equal the number of filled slots, also when an error follows |
| WorkerPoolTheorems.SlotsExclusive | internal/controller/polarscluster_controller.go:336-346 | a slot holds exactly one of pod and error if its task ran, neither otherwise |
| WorkerPoolTheorems.SpawnClosedForm | internal/controller/polarscluster_controller.go:339-346 | the fan-out's result is a function of which tasks ran |
| WorkerPoolTheorems.FanOutConfluence | internal/controller/polarscluster_controller.go:336-360 | two runs of the same tasks leave the same pods, events, report or error, in whatever order the calls arrived |
| WorkerPoolExact.PassIsPoolOnly | internal/controller/polarscluster_controller.go:311-375 | no pod outside the selector is touched, whatever the listing shows and whatever fails |
| WorkerPoolExact.ResizeClosedForm | internal/controller/polarscluster_controller.go:311-402 | a fault-free pass in closed form, for any listing: which pods go, which are new, and what the report is about |
| WorkerPoolExact.StalenessBound | internal/controller/polarscluster_controller.go:310-375 | missing m current workers and showing g gone ones, a fault-free pass ends with desired + m - g + d of them, 0 <= d <= g |
| WorkerPoolExact.PassMeetsSpec | internal/controller/polarscluster_controller.go:311-375 | with an up-to-date listing: exactly the desired workers, none stale, as many kept as fit, a prefix released |
| WorkerPoolReports.NotReadyPodRecorded | internal/controller/polarscluster_controller.go:377-386 | a not-ready pod is recorded exactly when the ready count falls short, and it is the first |
| WorkerPoolReports.ReportTruth | internal/controller/polarscluster_controller.go:388-402 | counts without wrap-around, ready <= existing <= desired, an empty message exactly when all are there and Ready |
| WorkerPoolReports.PassReports | internal/controller/polarscluster_controller.go:334-402 | every report of any pass is about no more pods than desired |
| WorkerPoolReports.SettledPoolScales | internal/controller/polarscluster_controller.go:324-375 | a fault-free pass over a settled pool with another replica count creates or releases exactly the difference and leaves every other pod as it was |
| WorkerPoolReports.ScalingFrame | internal/controller/worker_pod.go:25-166 | so scaling a settled cluster does, since its worker template stays the same |
| Services.ReconcileService | internal/controller/polarscluster_controller.go:456-509 | one task creates or updates its service as ServiceStep says |
| Services.ReconcileServices | internal/controller/polarscluster_controller.go:407-454 | the stage does what ServicesPass says for some order of any subset of the tasks |
| Services.ReconcileServiceAccounts | internal/controller/serviceaccount.go:65-93 | requested accounts are created, existing ones left alone, rejections become spec errors |
| ServiceLaws.FanEffect | internal/controller/polarscluster_controller.go:444-448 | each task's outcome is its own: done without error its service is as desired, else as before; nothing else changes |
| ServiceLaws.SuccessCoversTheTasksThatRan | internal/controller/polarscluster_controller.go:444-453 | success is reported exactly when every task that ran succeeded, and covers only those |
| ServiceLaws.CancelledFanOutSucceeds | internal/controller/polarscluster_controller.go:444-453 | an input: no task ran, no service exists, and the stage succeeds |
| ServiceLaws.FaultFreeStep | internal/controller/polarscluster_controller.go:470-508 | an update keeps labels, cluster IP and controller, whoever that is, and writes exactly when something differs |
| ServiceLaws.FaultFreeFan | internal/controller/polarscluster_controller.go:407-454 | a complete fault-free stage leaves all services as desired and repeats without writing |
| ServiceLaws.ForeignServiceOverwritten | internal/controller/polarscluster_controller.go:500-508 | an input where another owner's service is overwritten |
| ServiceContents.PresentMeans | internal/controller/polarscluster_controller.go:412-480 | a service is as desired exactly when it selects the two labels of the scheduler's pod, has its ports (5051; 5050 and 5049; 3001) and the type, annotations and publishing of unready addresses of its own entry, or the defaults |
| ServiceContents.SelectorLeads | internal/controller/polarscluster_controller.go:439-442 | those labels select the scheduler the operator creates, and no worker |
| ServiceContents.TaskServes | internal/controller/polarscluster_controller.go:456-508 | a task that ends without error leaves its service so, whatever was read |
| ServiceContents.TaskKeepsOrCreates | internal/controller/polarscluster_controller.go:470-508 | a created service carries the standard labels, the owner and the configured cluster IP; an updated one keeps its own |
| ServiceContents.SchedulerObjectLabelled | internal/controller/pod_common.go:107-118 | the standard labels, with a version exactly where a runtime has a tag |
| Rejections.ServicesOutcome | internal/controller/polarscluster_controller.go:444-453 | each task fails as its calls do, a refused content as "ServiceRejected"; the stage's error is a spec error exactly when all its failures are |
| Rejections.AccountRejections | internal/controller/serviceaccount.go:65-82 | an existing account is no error; a refused content becomes "ServiceAccountRejected" |
| TemplateContents.AccountsAsAsked | internal/controller/serviceaccount.go:65-92 | the stage creates accounts the spec asks for and no others; if it succeeds they all exist |
| TemplateContents.PodsRunAsCreated | internal/controller/serviceaccount.go:45-92 | and the pods run as them |
| Routes.RoutesStatus.NotReady | internal/controller/routes.go:113-119 | a failure displaces a NotAccepted, otherwise the first stays |
| Routes.ApplyRouteTo | internal/controller/routes.go:158-186 | applying a route does what ApplyRoute says: CreateOrUpdate under the owner check, errors classified |
| Routes.DeleteOwnedRouteFrom | internal/controller/routes.go:192-200 | removing a route does what DeleteOwnedRoute says |
| Routes.ReconcileRoutes | internal/controller/routes.go:121-156 | the loop over any list of targets does what RoutesPass says |
| RouteLaws.PriorityFold | internal/controller/routes.go:113-156 | over any targets and verdicts: ready exactly without problems; else the first serious problem, or the first of all, is reported; conflict exactly when some verdict is one |
| RouteLaws.PassReport | internal/controller/routes.go:121-156 | a pass reports ready exactly when every requested target is in place and accepted, conflict exactly when some target is refused for it |
| RouteLaws.ReportsExplain | internal/controller/routes.go:121-156 | every report is ready with nothing to say, or has a reason and a message |
| RouteContents.AcceptedMeans | internal/controller/routes.go:202-208 | a route is accepted exactly when for one parent the first Accepted and the first ResolvedRefs condition are True |
| RouteContents.AppliedMeans | internal/controller/routes.go:160-181 | a route is as asked exactly when its labels, annotations, gateways, host names, backend and owner are |
| RouteContents.RouteTargetsMean | internal/controller/routes.go:57-102 | names, kinds, ports and spec entries of the two routes |
| RouteContents.BackendIsServed | internal/controller/routes.go:57-92 | each leads to a service the operator stores, on a port that offers |
| RouteContents.RequestAnswered | internal/controller/routes.go:143-186 | the verdict on a requested route in terms of the route read, the one stored and the calls that fail: created, in place, in conflict, rejected or failed |
| RouteContents.RoutesReadyExactly | internal/controller/routes.go:121-156 | routes are ready exactly when the API is installed and every requested one is, or could be made, as asked and is accepted |
| RouteOwnership.ApplyIsSafe | internal/controller/routes.go:160-186 | with any coherent read, a route changes only if absent or not another owner's, and is then this cluster's |
| RouteOwnership.ForeignDeletes | internal/controller/routes.go:192-200 | a live route not controlled by the cluster is deleted exactly when the read showed one that was, and no call fails |
| RouteOwnership.LaggingReadDeletesForeign | internal/controller/routes.go:192-200 | an input where that happens |
| RouteOwnership.OwnershipSafety | internal/controller/routes.go:121-200 | over any distinct targets and failures, with reads that may lag as long as what they say about control of unrequested targets is still true: written only if requested and not another's, deleted only if not requested and controlled, all else unchanged |
| RouteOwnership.VerdictsAreTrue | internal/controller/routes.go:123-154 | with an up-to-date read, each verdict is true of the store |
| RouteOwnership.SuccessfulPassIsTrue | internal/controller/routes.go:121-156 | after a successful pass no unrequested target is a live route of the cluster, and every one reported in place is as asked |
| RouteOwnership.FaultFreeWalk | internal/controller/routes.go:121-186 | a fault-free pass settles every target, and on settled ones writes nothing |
| Conditions.Copy.SetReadyCondition | internal/controller/polarscluster_controller.go:207-227 | a ready condition drops the explanation it is given |
| Conditions.FindAfterSet | internal/controller/polarscluster_controller.go:220-226 | a condition that was set is found as set, the others as before |
| Conditions.FindAfterRemove | internal/controller/polarscluster_controller.go:141 | a removed condition is not found, the others as before |
| Reconcile.PolarsClusterReconciler.Reconcile | internal/controller/polarscluster_controller.go:78-174 | the method takes the server from one world to ReconcileOnce of it, with an admissible choice of orders |
| Reconcile.PolarsClusterReconciler.RecordSpecError | internal/controller/polarscluster_controller.go:181-205 | the spec-error exit: conditions, warning before the update, status |
| Reconcile.PolarsClusterReconciler.Publish | internal/controller/polarscluster_controller.go:144-173 | the regular exit: verdict, status update, event only after it succeeded |
| Diagnoses.VersionAnswer | internal/controller/polarscluster_controller.go:88-92 | a version that cannot be interpreted: nothing is written but the status, where only Ready says InvalidVersion |
| Diagnoses.AccountsAnswer | internal/controller/polarscluster_controller.go:94-100 | a spec error of the accounts is shown under Ready only, another retried; no pod, service or route is touched |
| Diagnoses.SchedulerAnswer | internal/controller/polarscluster_controller.go:102-108 | one of the scheduler is shown under SchedulerReady and Ready, the other conditions stay; no worker, service or route is touched |
| Diagnoses.ServicesAnswer | internal/controller/polarscluster_controller.go:113-119 | one of the services under Ready; no worker or route is touched |
| Diagnoses.WorkersAnswer | internal/controller/polarscluster_controller.go:121-127 | one of the workers under WorkerPoolReady and Ready; no route is touched |
| Diagnoses.RoutesAnswer | internal/controller/polarscluster_controller.go:134-137 | an error of the routes is retried and nothing persisted |
| Diagnoses.AllAnswer | internal/controller/polarscluster_controller.go:109-173 | when all stages are done the four conditions, the counts and the generation are persisted as the stages report them, and nothing else changes |
| Rejections.SchedulerRejectionAnswer | internal/controller/polarscluster_controller.go:102-108 | a scheduler the server refuses: SchedulerReady and Ready say SchedulerPodRejected, with a warning and no retry; any other error is retried |
| Rejections.SchedulerTemplateAnswer | internal/controller/polarscluster_controller.go:102-108 | a scheduler template that cannot be built: the same with its reason, and no pod touched |
| Rejections.ServicesRejectionAnswer | internal/controller/polarscluster_controller.go:113-119 | a refused service: Ready says ServiceRejected, no retry |
| Rejections.WorkersRejectionAnswer | internal/controller/polarscluster_controller.go:121-127 | a refused worker: WorkerPoolReady and Ready say WorkerPodRejected, no retry |
| SpecReasons.BuiltTemplatesAreNamed | internal/controller/worker_pod.go:38-44 | a template that fails to build fails with a spec error that has a reason |
| SpecReasons.ReductionIsNamed | internal/controller/errors.go:57-60 | a reduction of errors with reasons has a reason |
| SpecReasons.WorkerErrorsAreNamed | internal/controller/polarscluster_controller.go:292-360 | every spec error of the worker stage has a non-empty reason |
| StatusLaws.GatherIsSound | internal/controller/polarscluster_controller.go:86-155 | whatever is read and fails, the findings have counts in order and explanations where due |
| StatusLaws.FullConditions | internal/controller/polarscluster_controller.go:110-157 | the four conditions the regular exit persists |
| StatusLaws.DiagnosisCoherence | internal/controller/polarscluster_controller.go:130-155 | every condition explains itself; Ready is True exactly when all parts are, else it has the message of the first failing part |
| StatusLaws.AskedStatusIsGood | internal/controller/polarscluster_controller.go:102-205 | on both exits the status meets the invariant and speaks of the generation it was computed for |
| StatusLaws.FlagSurvivesSpecError | internal/controller/polarscluster_controller.go:103-110 | a scheduler spec error leaves the scheduler's ready flag, so the invariant has no converse |
| StatusLaws.FullStatusIdempotent | internal/controller/polarscluster_controller.go:110-157 | observing the same again asks for the same status |
| Honesty.StatusIsHonest | internal/controller/polarscluster_controller.go:78-173 | no false Ready: whatever failed, with up-to-date reads of the pods a published SchedulerReady, WorkerPoolReady, RoutesReady and Ready are True exactly when the stored scheduler, current workers and accepted routes are as asked, and the counts are theirs |
| Honesty.ServicesAreServed | internal/controller/polarscluster_controller.go:113-119 | after a reconcile that got through, every service whose task ran leads to the scheduler |
| Honesty.RoutesAreStored | internal/controller/routes.go:121-186 | and every route that counts as ready is stored as asked |
| PassEvents.GatherEvents | internal/controller/polarscluster_controller.go:94-142 | the stages only add Normal events about pods |
| Runs.EveryRunIsGood | internal/controller/polarscluster_controller.go:86-205 | in every run: Ready implies its parts, parts agree with flags and counts, generations are tracked, announcements of readiness alternate with warnings |
| Runs.ObservedGenerationNeverDecreases | internal/controller/polarscluster_controller.go:157-201 | along the history neither generation decreases |
| Runs.ReadinessEvents | internal/controller/polarscluster_controller.go:159-198 | "Reconciled" is recorded exactly when a change of Ready to True is persisted, a warning exactly on a spec error or a persisted change from True |
| Requeue.RoutesErrorIsTransient | internal/controller/routes.go:121-156 | the routes stage fails with no spec error: each is reported in a verdict |
| Requeue.OutcomeIsExact | internal/controller/polarscluster_controller.go:78-205 | a reconcile is retried exactly on an unreadable resource, an unexpected error of a stage or a refused status update, with that error, in which no spec error occurs; repeated in a minute exactly when the regular exit persisted its status and a route is in conflict |
| FleetRuns.TidyPassOnCourse | internal/controller/polarscluster_controller.go:78-174 | one reconcile with an up-to-date listing comes nearer to the desired count by rightful writes, wherever it stops |
| FleetRuns.RunsStayOnCourse | internal/controller/polarscluster_controller.go:78-174 | over whole runs the worker count only comes nearer to the desired one and never passes it |
| WriteTrace.EveryWriteIsSane | internal/controller/polarscluster_controller.go:256-375 | a frame fact of every run: a write changes the one pod it names and nothing else, a creation only under a free name |
| Warrants.UpToDateWrite | internal/controller/polarscluster_controller.go:256-285 | with an up-to-date read the scheduler stage only creates a missing scheduler and only deletes a live, outdated one |
| Warrants.PassIsWarranted | internal/controller/polarscluster_controller.go:78-174 | with up-to-date reads of the pods every write of a reconcile, whatever fails and wherever it stops, creates a missing scheduler or a current worker below the count, or deletes an outdated scheduler, a stale worker or a current one above the count |
| Warrants.EveryWriteIsWarranted | internal/controller/polarscluster_controller.go:78-174 | so does every write ever made in a run of such reconciles, with any edits and changes by others between them |
| WriteTrace.ForeignRoutesAreSafe | internal/controller/routes.go:121-200 | a whole reconcile leaves a foreign route exactly as it is |
| FreshPass.FreshGather | internal/controller/polarscluster_controller.go:86-142 | without failures every stage succeeds, with its outcome in closed form |
| Convergence.MeasureDrops | internal/controller/polarscluster_controller.go:245-375 | a fresh reconcile that changes a pod lowers the measure; one that changes none finds it zero or waits for a terminating scheduler |
| Convergence.BenignStep | internal/controller/polarscluster_controller.go:273-280 | terminating pods going and pods turning Ready or not keep the live workers and never raise the measure; it falls by one exactly when the terminating scheduler goes |
| Convergence.ZeroIsConverged | internal/controller/polarscluster_controller.go:245-375 | the measure is zero exactly with no stale worker, the desired current ones and a live current scheduler |
| Convergence.OneReconcileSuffices | internal/controller/polarscluster_controller.go:245-375 | a fresh reconcile that finds no scheduler on its way out converges |
| Convergence.TwoReconcilesSuffice | internal/controller/polarscluster_controller.go:245-375 | from any pods, two fresh reconciles converge, with any such step in between after which the scheduler is not terminating |
| Convergence.FirstReconcileSuffices | internal/controller/polarscluster_controller.go:245-375 | the first fault-free reconcile of a new resource converges |
| ConvergenceRuns.ChangesAreBounded | internal/controller/polarscluster_controller.go:245-375 | in a run of fresh reconciles and such steps the measure never rises, and no more reconciles change a pod than the measure says |
| ConvergenceRuns.StaysConverged | internal/controller/polarscluster_controller.go:245-375 | once converged the pods stay converged, and no later reconcile of the run writes to a pod |
| ConvergenceRuns.RunsConverge | internal/controller/polarscluster_controller.go:245-375 | after any earlier reconcile, one converges exactly if it finds no terminating scheduler, and then for good |
| GoingOn.FreshIsPossible | internal/controller/polarscluster_controller.go:78-174 | in every healthy world some reconcile is fresh |
| GoingOn.HealthIsKept | internal/controller/polarscluster_controller.go:78-174 | and it leads to a healthy world |
| GoingOn.CalmRunsGoOn | internal/controller/polarscluster_controller.go:78-174 | so every such run that ends in a healthy world can go on |
| ListingOrder.CountsIgnoreOrder | internal/controller/polarscluster_controller.go:312-402 | all up-to-date listings give the same counts and so the same verdict on the pool |
| ListingOrder.OneVoiceAgrees | internal/controller/polarscluster_controller.go:377-399 | and the same message if the workers that are not Ready would all be given the same one |
| ListingOrder.OrderShows | internal/controller/polarscluster_controller.go:377-399 | otherwise two up-to-date listings give different messages |
| ListingOrder.TwoUnreadyDisagree | internal/controller/polarscluster_controller.go:377-399 | an input: two workers that are not Ready, listed one way and the other |
| Quiescence.WorkersAtRest | internal/controller/polarscluster_controller.go:311-402 | on a settled pool the worker stage makes no call and reports on the active workers |
| Quiescence.GatherAtRest | internal/controller/polarscluster_controller.go:86-142 | on converged pods the stages touch no pod and furnish the rest |
| Quiescence.StandsStill | internal/controller/polarscluster_controller.go:78-174 | once converged, the second of two fresh reconciles changes no object but the status and records no event; it changes nothing at all exactly when its listing gives the message the first one gave |
| Quiescence.StandsStillInEveryOrder | internal/controller/polarscluster_controller.go:78-174 | it changes nothing in whatever order it lists the workers exactly when those not Ready would all be given the same message; at most one not Ready suffices |
| Quiescence.ReadyExactly | internal/controller/polarscluster_controller.go:130-157 | once converged, Ready is persisted exactly when the scheduler pod, every current worker and the routes are ready |

## Left out

- mergePodSpec, the template hash, JSON, SemVer parsing and comparison: arbitrary functions of the model (`Library`).
- A failure to marshal or hash a pod spec: it cannot occur for the specs the merge returns.
- Volumes, mounts, ports, probes, images and init containers of the computed pods: finite lists with no unbounded domain.
- PodTemplates.WorkerTemplateIgnoresReplicas: covers the computed container's name, environment and probe; the other computed fields are not modelled, and none of them reads the replica count.
- TemplateFrame.WorkerTemplateFollowsSpec: covers the same fields.
- TemplateFrame.SchedulerTemplateFollowsSpec: covers the same fields.
- TemplateFrame.ShuffleLifetimeIsIgnored: covers the same fields.
- PodTemplates.BuildWorkerPodTemplate: builds the computed container's name, environment and probe and the service account; labels, namespace, generated name and the other patch fields are not modelled.
- PodTemplates.BuildSchedulerPodTemplate: builds the same fields.
- PodEnv.ComputedShuffleDataConfig: gives the variables, not the volumes, mounts and ports returned beside them.
- PodEnv.SchedulerLicenseConfig: gives the variables, not the license volumes and mounts.
- RouteOwnership.OwnershipSafety: needs what a lagging read says about control of an unrequested target to be still true; ForeignDeletes says exactly what happens otherwise.
- Quiescence.ReadyExactly: says when the routes are ready through the report on what is stored, not through what a gateway does.
- Convergence.TwoReconcilesSuffice: speaks of the pods; that services, routes, accounts and status follow is GatherAtRest and StandsStill.
- ConvergenceRuns.RunsConverge: speaks of the pods, and of reconciles without failures and with up-to-date reads; runs with failures are what RunsStayOnCourse and EveryWriteIsWarranted cover.
- WorkerPoolExact.PassMeetsSpec: speaks of passes in which no creation task is dropped; the passes in which some are is what NoOvershoot and FanOutConserves cover.
- Watches, caches' freshness, the queue's backoff, leader election, metrics, TLS and the manager's setup.
- Deletion and re-creation of the resource itself: one object's lifetime is modelled; garbage collection by owner references is not.
- The owner references of pods and accounts, and a pod's deletion grace period: no decision of the operator depends on them.
- The sharing of the pod template's label map between the resource in hand and the pod built from it.
- Server-side defaulting of services and routes: what is stored is what was sent.
- LastTransitionTime of conditions, the length of the timed retry, and log output.
- Honesty.StatusIsHonest: needs up-to-date reads of the pods and no deletion that reports a listed worker gone which is there; for the routes it speaks of what was read.
- TemplateContents.WorkerTemplateBuilds: covers the modelled patch fields.
- TemplateContents.SchedulerTemplateBuilds: covers the same fields.
- EnvTables.SchedulerEnvIsTable: says which variables there are, not in which order; that no name occurs twice is SchedulerEnvNames.
- EnvTables.WorkerEnvIsTable: the same of the workers, with WorkerEnvNames.
- Schema validation of the resource, apart from the bound on Replicas.
