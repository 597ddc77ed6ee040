/** The status a reconcile persists is true of what is stored: whatever failed or was cancelled on the way, a True
    condition is never about pods or routes that are not so. */
module Honesty {
  import opened Kube
  import opened Errors
  import opened PolarsCluster
  import opened ApiServer
  import opened Conditions
  import opened Readiness
  import opened Reconcile
  import opened Runs
  import opened WorkerPoolLaws
  import opened WorkerPoolTheorems
  import opened FleetRuns
  import opened Warrants
  import opened PoolOutcomes
  import opened RouteContents
  import opened ServiceContents
  import opened Diagnoses
  import Scheduler
  import SchedulerLaws
  import WorkerPool
  import Services
  import ServiceLaws
  import Routes
  import RouteOwnership

  /** A reconcile that got through and whose status update was accepted, with up-to-date reads of the pods. The resource
      and the other reads may lag, and calls may fail as long as no deletion of a listed worker reports a false
      NotFound. */
  ghost predicate Published(w: World, i: Inputs, choice: Choice) {
    && AllDone(w, i, choice) && Informed(w, i, choice)
    && StatusError(w.history, i.cache.cluster.value, i.faults).None?
    && NoFalseNotFound(i.cache.workers, w.fleet.pods, i.faults)
  }

  /** The pool the worker stage worked on. */
  function PoolOfPass(w: World, i: Inputs): WorkerPool.Batch
    requires w.history != [] && CachedVersion(w.history, i.cache) && i.templates.worker.Ok?
  {
    WorkerPool.BatchOf(VersionRead(w, i), i.templates.worker.value, i.lib, i.names, i.faults)
  }

  lemma StillNoFalseNotFound(listing: seq<Pod>, before: Pods, after: Pods, b: WorkerPool.Batch, faults: Faults)
    requires NoFalseNotFound(listing, before, faults) && UpToDate(listing, before, b)
    ensures NoFalseNotFound(listing, after, faults)
  {
  }

  /** The workers reported are the ones stored. */
  lemma WorkersAreTrue(w: World, i: Inputs, choice: Choice)
    requires Published(w, i, choice)
    ensures w.history != [] && CachedVersion(w.history, i.cache) && i.templates.worker.Ok?
    ensures var workers := WorkersOf(w, i, choice);
            workers.result.Ok? && TrueReport(workers.result.value, workers.fleet.pods, VersionRead(w, i), PoolOfPass(w, i))
  {
    hide WorkerPool.Resize, UpToDate, NoFalseNotFound, TrueReport, Scheduler.SchedulerPass, Genuine, VersionRead, AllWarranted,
      WorkerPool.Schedule, WorkerPool.Missing, WellKeyed, Services.ServicesPass, Services.AccountsPass, Routes.RoutesPass,
      SchedulerIsNoWorker, SchedulerLaws.UpToDateRead, RoutesOf, ServicesOf, AccountsOf;
    var c, b := VersionRead(w, i), PoolOfPass(w, i);
    SchedulerStageIsWarranted(w, i, choice);
    assert SchedulerStage(w, c, i) == SchedulerOf(w, i).fleet;
    var s := SchedulerStage(w, c, i);
    StillNoFalseNotFound(i.cache.workers, w.fleet.pods, s.pods, b, i.faults);
    ReportIsTrue(s, i.cache.workers, c, b, choice.workers);
  }

  /** The scheduler stored is Ready, and current or on its way out. */
  ghost predicate SchedulerIsReady(w: World, i: Inputs)
    requires w.history != [] && CachedVersion(w.history, i.cache) && i.templates.scheduler.Ok?
  {
    var key := SchedulerPodKey(VersionRead(w, i));
    && key in w.fleet.pods && PodIsReady(w.fleet.pods[key])
    && (w.fleet.pods[key].terminating
        || w.fleet.pods[key].labels.templateHash == i.lib.templateHash(i.templates.scheduler.value))
  }

  /** A stage that succeeds although the read fails finds no scheduler. */
  lemma ReadOnlyOfAbsent(fleet: Fleet, cached: Option<Pod>, c: Cluster, hash: string, faults: Faults)
    requires Scheduler.SchedulerStep(fleet, cached, c, hash, faults).result.Ok?
    ensures faults(SchedulerGet).Some? ==> SchedulerPodKey(c) !in fleet.pods
  {
    hide IsNotFound, ClassifyAPIError;
  }

  lemma SchedulerIsTrue(w: World, i: Inputs, choice: Choice)
    requires Published(w, i, choice)
    ensures w.history != [] && CachedVersion(w.history, i.cache) && i.templates.scheduler.Ok?
    ensures SchedulerOf(w, i).result.Ok? && (SchedulerOf(w, i).result.value.ready <==> SchedulerIsReady(w, i))
  {
    hide Scheduler.SchedulerStep, UpToDate, NoFalseNotFound, Genuine, VersionRead, WorkerPool.Schedule,
      WorkerPool.Missing, WellKeyed, Services.ServicesPass, Services.AccountsPass, Routes.RoutesPass,
      WorkerPool.WorkerPass, SchedulerIsNoWorker, RoutesOf, ServicesOf, AccountsOf, PodIsReady;
    var c := VersionRead(w, i);
    if i.templates.scheduler.Ok? {
      SchedulerLaws.ReadyTruth(w.fleet, i.cache.scheduler, c, i.lib.templateHash(i.templates.scheduler.value), i.faults);
      ReadOnlyOfAbsent(w.fleet, i.cache.scheduler, c, i.lib.templateHash(i.templates.scheduler.value), i.faults);
    }
  }

  /** The pool is as the spec asks: exactly the desired current workers, all Ready. */
  ghost predicate PoolIsComplete(pods: Pods, c: Cluster, b: WorkerPool.Batch) {
    |Current(pods, b)| == Desired(c) && ReadyNow(pods, b) == Current(pods, b)
  }

  ghost predicate RoutesAreTaken(w: World, i: Inputs)
    requires w.history != [] && CachedVersion(w.history, i.cache)
  {
    forall k: nat :: k < 2 && RouteRequest(VersionRead(w, i), k).Some? ==>
      i.gatewayAPIEnabled && TakenAt(w.routes, i.cache.routes, VersionRead(w, i), k, i.faults)
  }

  /** What the persisted status says is so. */
  ghost predicate Honest(now: Status, w: World, v: World, i: Inputs)
    requires w.history != [] && CachedVersion(w.history, i.cache)
    requires i.templates.worker.Ok? && i.templates.scheduler.Ok?
  {
    var c, b := VersionRead(w, i), PoolOfPass(w, i);
    && (IsTrue(now.conditions, SCHEDULER_READY) <==> SchedulerIsReady(w, i))
    && (IsTrue(now.conditions, WORKER_POOL_READY) <==> PoolIsComplete(v.fleet.pods, c, b))
    && now.workerPool.replicas as int == |Current(v.fleet.pods, b)|
    && now.workerPool.readyReplicas as int == |ReadyNow(v.fleet.pods, b)|
    && Stale(v.fleet.pods, b) == {}
    && (Find(now.conditions, ROUTES_READY).Some? <==> RouteRequest(c, 0).Some? || RouteRequest(c, 1).Some?)
    && (Find(now.conditions, ROUTES_READY).Some? ==> (IsTrue(now.conditions, ROUTES_READY) <==> RoutesAreTaken(w, i)))
    && (IsTrue(now.conditions, READY) <==>
          SchedulerIsReady(w, i) && PoolIsComplete(v.fleet.pods, c, b) && RoutesAreTaken(w, i))
  }

  lemma SaysIsTrue(now: Status, ctype: string, ready: bool, reason: string, message: string, generation: nat)
    requires Says(now, ctype, ready, reason, message, generation)
    ensures Find(now.conditions, ctype).Some? && (IsTrue(now.conditions, ctype) <==> ready)
  {
    hide Find;
  }

  lemma RoutesAreTrue(w: World, i: Inputs, choice: Choice)
    requires AllDone(w, i, choice) && NamedRoutes(i.cache.routes)
    ensures w.history != [] && CachedVersion(w.history, i.cache) && RoutesOf(w, i).result.Ok?
    ensures var r, c := RoutesOf(w, i).result.value, VersionRead(w, i);
            && (r.requested <==> RouteRequest(c, 0).Some? || RouteRequest(c, 1).Some?)
            && (r.ready <==> RoutesAreTaken(w, i))
  {
    hide VersionRead, WorkerPool.Schedule, WorkersOf, SchedulerOf, ServicesOf, AccountsOf, NamedRoutes, Genuine,
      Routes.RoutesPass, RouteRequest, Routes.RouteTargets, TakenAt, ClashesAt;
    RoutesReadyExactly(w.routes, i.cache.routes, VersionRead(w, i), i.gatewayAPIEnabled, i.faults);
  }

  /** A report that is true of the pods and persisted as it is makes the status true. */
  lemma ReportedIsHonest(now: Status, w: World, v: World, i: Inputs, s: Scheduler.Observation, r: WorkerPool.Report,
                         routes: Routes.RoutesReport)
    requires w.history != [] && CachedVersion(w.history, i.cache)
    requires i.templates.worker.Ok? && i.templates.scheduler.Ok?
    requires Reported(now, VersionRead(w, i), s, r, routes) && (s.ready <==> SchedulerIsReady(w, i))
    requires TrueReport(r, v.fleet.pods, VersionRead(w, i), PoolOfPass(w, i))
    requires var c := VersionRead(w, i); routes.requested <==> RouteRequest(c, 0).Some? || RouteRequest(c, 1).Some?
    requires routes.ready <==> RoutesAreTaken(w, i)
    ensures Honest(now, w, v, i)
  {
    hide Find, VersionRead, SchedulerIsReady, RoutesAreTaken, Current, Stale, ReadyNow, RouteRequest, Says, IsTrue;
    var c, b := VersionRead(w, i), PoolOfPass(w, i);
    var pool := r.status.replicas == c.spec.workerPool.replicas && r.status.readyReplicas == r.status.replicas;
    ReadyAreCurrent(v.fleet.pods, b);
    SaysIsTrue(now, SCHEDULER_READY, s.ready, "NotReady", s.message, c.generation);
    SaysIsTrue(now, WORKER_POOL_READY, pool, "NotReady", r.message, c.generation);
    SaysIsTrue(now, READY, s.ready && pool && routes.ready, "NotReady", Complaint(s, pool, r, routes), c.generation);
    if routes.requested {
      SaysIsTrue(now, ROUTES_READY, routes.ready, routes.reason, routes.message, c.generation);
    }
  }

  /** No false Ready, and no false alarm. Every published status is honest: SchedulerReady, WorkerPoolReady and
      RoutesReady are True exactly when the scheduler, the current workers and the requested routes are as the spec
      asks, Ready exactly when all of them are; the counts are those of the stored workers, and no stale worker is left
      live. */
  lemma StatusIsHonest(w: World, i: Inputs, choice: Choice)
    requires Published(w, i, choice) && NamedRoutes(i.cache.routes)
    ensures w.history != [] && Allowed(w, i, choice) && i.templates.worker.Ok? && i.templates.scheduler.Ok?
    ensures var v := ReconcileOnce(w, i, choice).world; v.history != [] && Honest(Last(v).status, w, v, i)
  {
    hide ReconcileOnce, Genuine, VersionRead, WorkerPool.Schedule, WorkersOf, SchedulerOf, RoutesOf, ServicesOf,
      AccountsOf, TrueReport, Find, Informed, NoFalseNotFound, NamedRoutes, SchedulerIsReady, RoutesAreTaken;
    WorkersAreTrue(w, i, choice);
    SchedulerIsTrue(w, i, choice);
    AllAnswer(w, i, choice);
    RoutesAreTrue(w, i, choice);
    var v := ReconcileOnce(w, i, choice).world;
    ReportedIsHonest(Last(v).status, w, v, i, SchedulerOf(w, i).result.value, WorkersOf(w, i, choice).result.value,
                     RoutesOf(w, i).result.value);
  }

  // ---------- Services and routes ----------

  /** After a reconcile that got through, every service whose task ran leads to the scheduler and is as the spec
      asks. */
  lemma ServicesAreServed(w: World, i: Inputs, choice: Choice, slot: nat)
    requires AllDone(w, i, choice) && ServiceLaws.Reads(i.cache.services)
    requires slot < Services.SERVICE_COUNT && slot in choice.services
    ensures w.history != [] && Allowed(w, i, choice)
    ensures var items, c := ReconcileOnce(w, i, choice).world.services.items, VersionRead(w, i);
            && ServiceKey(c, slot) in items && Serves(items[ServiceKey(c, slot)], c, slot)
            && LeadsToScheduler(items[ServiceKey(c, slot)].selector, c)
  {
    hide ReconcileOnce, Genuine, VersionRead, WorkersOf, SchedulerOf, RoutesOf, AccountsOf, Reported,
      Services.ServicesPass, ServiceLaws.Present, Serves, LeadsToScheduler, ServiceLaws.Reads, Services.Fan,
      SchedulerLabels;
    var c := VersionRead(w, i);
    AllAnswer(w, i, choice);
    ServiceLaws.SuccessCoversTheTasksThatRan(w.services, i.cache.services, c, choice.services, i.faults);
    var items := ServicesOf(w, i, choice).store.items;
    PresentMeans(items, c, slot);
    SelectorLeads(c);
    ServesSelects(items, c, slot);
  }

  /** With up-to-date reads of the routes, every requested route that counts as taken is stored as the spec asks. */
  lemma RoutesAreStored(w: World, i: Inputs, choice: Choice, k: nat)
    requires AllDone(w, i, choice) && k < 2 && i.gatewayAPIEnabled
    requires i.cache.routes == w.routes.items && RouteOwnership.WellFormed(w.routes.items)
    requires forall n: nat :: n < 2 ==> RouteOwnership.NoFalseNotFound(RouteId(VersionRead(w, i), n), i.faults)
    requires RouteRequest(VersionRead(w, i), k).Some? && TakenAt(w.routes, i.cache.routes, VersionRead(w, i), k, i.faults)
    ensures w.history != [] && Allowed(w, i, choice)
    ensures var items, c := ReconcileOnce(w, i, choice).world.routes.items, VersionRead(w, i);
            && RouteId(c, k) in items
            && AsAsked(items[RouteId(c, k)], RouteRequest(c, k).value, RoutePort(k), c)
  {
    hide ReconcileOnce, VersionRead, WorkersOf, SchedulerOf, ServicesOf, AccountsOf, Reported, Routes.WalkTargets,
      Routes.Fold, RouteOwnership.WellFormed, RouteOwnership.NoFalseNotFound, Taken, Answered, RouteOwnership.AppliedAt,
      RouteOwnership.ReleasedAt, Routes.RouteTargets, AsAsked, RouteRequest, RouteId;
    var c := VersionRead(w, i);
    var targets := Routes.RouteTargets(c);
    RouteTargetsMean(c);
    RouteOwnership.RouteTargetsDistinct(c);
    WellFormedIsNamed(w.routes.items);
    AllAnswer(w, i, choice);
    RouteOwnership.SuccessfulPassIsTrue(w.routes, c, targets, i.faults);
    WalkAnswers(w.routes, i.cache.routes, c, targets, i.faults);
    var v := Routes.WalkTargets(w.routes, i.cache.routes, c, targets, i.faults);
    TakenExactly(v.verdicts[k], Lookup(w.routes.items, targets[k].id), i.cache.routes, c, targets[k], i.faults);
    AppliedMeans(Lookup(v.store.items, targets[k].id), targets[k], c);
  }

  lemma WellFormedIsNamed(items: map<RouteKey, Route>)
    requires RouteOwnership.WellFormed(items)
    ensures NamedRoutes(items)
  {
  }
}
