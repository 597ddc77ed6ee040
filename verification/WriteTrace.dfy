/** What every write to a pod that ever takes effect does, over all runs, and what a reconcile may do to routes. */
module WriteTrace {
  import opened Kube
  import opened Errors
  import opened PolarsCluster
  import opened PodTemplates
  import opened ApiServer
  import opened Reconcile
  import opened Runs
  import opened FleetRuns
  import Scheduler
  import WorkerPool
  import Services
  import Routes
  import RouteOwnership
  import Conditions

  // ---------- Pods ----------

  /** A creation takes a name no pod has, a terminating one included, and adds one live pod; a deletion marks one
      existing pod as terminating, so its name stays taken. Nothing else changes. */
  ghost predicate SaneWrite(w: PodWrite) {
    if w.kind.CreateScheduler? || w.kind.CreateWorker?
    then
      && w.key !in w.before && w.key in w.after && !w.after[w.key].terminating
      && w.after == w.before[w.key := w.after[w.key]]
    else w.key in w.before && w.after == MarkTerminating(w.before, w.key)
  }

  /** The writes from `start` on are sane. */
  ghost predicate SaneTrace(writes: seq<PodWrite>, start: nat) {
    forall i :: start <= i < |writes| ==> SaneWrite(writes[i])
  }

  lemma DeleteIsSane(start: nat, fleet: Fleet, key: Key, kind: WriteKind, faults: Faults)
    requires SaneTrace(fleet.writes, start) && !kind.CreateScheduler? && !kind.CreateWorker?
    ensures SaneTrace(DeleteFrom(fleet, key, kind, faults).writes, start)
  {
  }

  lemma CreateIsSane(start: nat, fleet: Fleet, pod: Pod, kind: WriteKind, site: CallSite, faults: Faults)
    requires SaneTrace(fleet.writes, start) && !pod.terminating && (kind.CreateScheduler? || kind.CreateWorker?)
    ensures SaneTrace(CreateIn(fleet, pod, kind, site, faults).writes, start)
  {
  }

  lemma SchedulerStageIsSane(start: nat, fleet: Fleet, cached: Option<Pod>, c: Cluster,
                             template: Result<PodSpec, Error>, lib: Library, faults: Faults)
    requires SaneTrace(fleet.writes, start)
    ensures SaneTrace(Scheduler.SchedulerPass(fleet, cached, c, template, lib, faults).fleet.writes, start)
  {
    hide SaneTrace, IsNotFound, ClassifyAPIError, Scheduler.Observed, DeleteFrom, CreateIn;
    if cached.Some? { DeleteIsSane(start, fleet, cached.value.key, ReplaceScheduler, faults); }
    if template.Ok? {
      CreateIsSane(start, fleet, Scheduler.SchedulerPod(c, lib.templateHash(template.value)), WriteKind.CreateScheduler,
                   SchedulerCreate, faults);
    }
  }

  lemma {:induction false} SiftIsSane(start: nat, fleet: Fleet, listing: seq<Pod>, hash: string, faults: Faults)
    requires SaneTrace(fleet.writes, start)
    ensures SaneTrace(WorkerPool.Sift(fleet, listing, hash, faults).fleet.writes, start)
  {
    hide SaneTrace, IsNotFound, DeleteFrom, DeleteError;
    if listing != [] {
      SiftIsSane(start, fleet, listing[..|listing| - 1], hash, faults);
      DeleteIsSane(start, WorkerPool.Sift(fleet, listing[..|listing| - 1], hash, faults).fleet,
                   listing[|listing| - 1].key, ReplaceWorker, faults);
    }
  }

  lemma {:induction false} TrimIsSane(start: nat, fleet: Fleet, surplus: seq<Pod>, faults: Faults)
    requires SaneTrace(fleet.writes, start)
    ensures SaneTrace(WorkerPool.Trim(fleet, surplus, faults).fleet.writes, start)
  {
    hide SaneTrace, IsNotFound, DeleteFrom, DeleteError;
    if surplus != [] {
      TrimIsSane(start, fleet, surplus[..|surplus| - 1], faults);
      DeleteIsSane(start, WorkerPool.Trim(fleet, surplus[..|surplus| - 1], faults).fleet,
                   surplus[|surplus| - 1].key, ScaleDown, faults);
    }
  }

  lemma {:induction false} SpawnIsSane(start: nat, fleet: Fleet, order: seq<nat>, b: WorkerPool.Batch)
    requires SaneTrace(fleet.writes, start)
    ensures SaneTrace(WorkerPool.Spawn(fleet, order, b).fleet.writes, start)
  {
    hide SaneTrace, CreateIn, WorkerPool.SlotResult;
    if order != [] {
      var slot := order[|order| - 1];
      SpawnIsSane(start, fleet, order[..|order| - 1], b);
      CreateIsSane(start, WorkerPool.Spawn(fleet, order[..|order| - 1], b).fleet, WorkerPool.SlotPod(b, slot),
                   WriteKind.CreateWorker, WorkerCreate(slot), b.faults);
    }
  }

  lemma {:induction false} AnnounceWrites(fleet: Fleet, active: seq<Pod>, created: seq<Option<Pod>>)
    ensures WorkerPool.Announce(fleet, active, created).fleet.writes == fleet.writes
  {
    if created != [] { AnnounceWrites(fleet, active, created[..|created| - 1]); }
  }

  lemma WorkerStageIsSane(start: nat, fleet: Fleet, listing: seq<Pod>, c: Cluster, template: Result<PodSpec, Error>,
                          lib: Library, names: nat -> string, faults: Faults, order: seq<nat>)
    requires SaneTrace(fleet.writes, start)
    ensures SaneTrace(WorkerPool.WorkerPass(fleet, listing, c, template, lib, names, faults, order).fleet.writes, start)
  {
    hide SaneTrace, Reduce, WorkerPool.ReportOn, WorkerPool.Sift, WorkerPool.Trim, WorkerPool.Spawn,
      WorkerPool.Announce;
    if template.Ok? {
      var b := WorkerPool.BatchOf(c, template.value, lib, names, faults);
      var s := WorkerPool.Sift(fleet, listing, b.hash, b.faults);
      var desired := c.spec.workerPool.replicas as int;
      SiftIsSane(start, fleet, listing, b.hash, b.faults);
      if desired > |s.active| {
        var spawned := WorkerPool.Spawn(s.fleet, order, b);
        SpawnIsSane(start, s.fleet, order, b);
        AnnounceWrites(spawned.fleet, s.active, WorkerPool.CreatedSlots(spawned.slots, desired - |s.active|));
      } else {
        TrimIsSane(start, s.fleet, s.active[..|s.active| - desired], b.faults);
      }
    }
  }

  lemma PassIsSane(start: nat, w: World, i: Inputs, choice: Choice)
    requires w.history != [] && Allowed(w, i, choice) && SaneTrace(w.fleet.writes, start)
    ensures SaneTrace(ReconcileOnce(w, i, choice).world.fleet.writes, start)
  {
    hide ReconcileOnce, SaneTrace, Scheduler.SchedulerPass, WorkerPool.WorkerPass, Genuine;
    FleetOf(w, i, choice);
    var c := VersionRead(w, i);
    SchedulerStageIsSane(start, w.fleet, i.cache.scheduler, c, i.templates.scheduler, i.lib, i.faults);
    WorkerStageIsSane(start, SchedulerStage(w, c, i), i.cache.workers, c, i.templates.worker, i.lib, i.names, i.faults,
                      choice.workers);
  }

  lemma StepIsSane(start: nat, w: World, a: Action, v: World)
    requires GoodHistory(w.history) && Step(w, a, v) && SaneTrace(w.fleet.writes, start)
    ensures SaneTrace(v.fleet.writes, start)
  {
    hide ReconcileOnce, SaneTrace, GoodHistory, Allowed;
    match a
    case Environment =>
    case Pass(i, choice) =>
      NotEmpty(w);
      PassIsSane(start, w, i, choice);
  }

  /** Over every run, with any reads, failures and interference: every write the operator ever makes to a pod is sane.
      In particular a scheduler is only ever created when no pod has its name. */
  lemma {:induction false} EveryWriteIsSane(worlds: seq<World>, actions: seq<Action>, n: nat)
    requires Run(worlds, actions) && Initial(worlds[0]) && n < |worlds|
    ensures SaneTrace(worlds[n].fleet.writes, 0)
  {
    hide Step, GoodHistory, Announced, ReconcileOnce;
    if n > 0 {
      EveryWriteIsSane(worlds, actions, n - 1);
      EveryRunIsGood(worlds, actions, n - 1);
      assert Step(worlds[n - 1], actions[n - 1], worlds[n - 1 + 1]);
      StepIsSane(0, worlds[n - 1], actions[n - 1], worlds[n]);
    }
  }

  // ---------- Routes ----------

  /** A reconcile leaves the routes as they were or as the routes stage leaves them. */
  lemma RoutesOf(w: World, i: Inputs, choice: Choice)
    requires w.history != [] && Allowed(w, i, choice)
    ensures var after, c := ReconcileOnce(w, i, choice).world.routes, VersionRead(w, i);
            || after == w.routes
            || after == Routes.RoutesPass(w.routes, i.cache.routes, c, Routes.RouteTargets(c), i.gatewayAPIEnabled,
                                    i.faults).store
  {
    hide Services.ServicesPass, WorkerPool.WorkerPass, Routes.RoutesPass, Services.AccountsPass,
      Scheduler.SchedulerPass, ReportUnder, VersionError, FullStatus, SpecErrorStatus, Text, ReadyMessage,
      Conditions.Find, WorkerPool.Schedule, Genuine;
  }

  /** The views of the routes a reconcile acts on are coherent, and what they say about control of the targets that are
      not requested is still true. */
  ghost predicate RouteViews(w: World, i: Inputs, c: Cluster) {
    && RouteOwnership.Coherent(i.cache.routes, w.routes.items)
    && forall k :: 0 <= k < |Routes.RouteTargets(c)| ==>
         var t := Routes.RouteTargets(c)[k];
         RouteOwnership.ControlStillTrue(t, Lookup(i.cache.routes, t.id), Lookup(w.routes.items, t.id), c)
  }

  /** Ownership safety of a whole reconcile, with any failures and views that may lag: a route under another owner's
      control, by both comparisons the code makes, is left exactly as it is. */
  lemma ForeignRoutesAreSafe(w: World, i: Inputs, choice: Choice, id: RouteKey)
    requires w.history != [] && Allowed(w, i, choice) && RouteViews(w, i, VersionRead(w, i))
    requires id in w.routes.items && RouteOwnership.Foreign(w.routes.items[id], VersionRead(w, i))
    ensures Lookup(ReconcileOnce(w, i, choice).world.routes.items, id) == Some(w.routes.items[id])
  {
    hide ReconcileOnce, Routes.WalkTargets, RouteOwnership.Coherent, RouteOwnership.ControlStillTrue, Routes.Fold,
      RouteOwnership.Permitted, RouteOwnership.Foreign, Routes.RouteTargets, VersionRead, Genuine;
    var c := VersionRead(w, i);
    var targets := Routes.RouteTargets(c);
    RoutesOf(w, i, choice);
    RouteOwnership.RouteTargetsDistinct(c);
    RouteOwnership.OwnershipSafety(w.routes, i.cache.routes, c, targets, i.faults);
    var after := Routes.WalkTargets(w.routes, i.cache.routes, c, targets, i.faults).store;
    if k :| 0 <= k < |targets| && targets[k].id == id {
      ForeignUnchanged(w.routes.items[id], Lookup(after.items, id), c, targets[k].spec.Some?);
    }
  }

  lemma ForeignUnchanged(before: Route, after: Option<Route>, c: Cluster, requested: bool)
    requires RouteOwnership.Foreign(before, c) && RouteOwnership.Permitted(Some(before), after, c, requested)
    ensures after == Some(before)
  {
  }
}
