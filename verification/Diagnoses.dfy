/** What a whole reconcile does about the outcome of each of its stages: which condition shows an error, what is
    retried, what the stages that come later leave alone, and what a reconcile that gets through persists. */
module Diagnoses {
  import opened Kube
  import opened Errors
  import opened PolarsCluster
  import opened PodTemplates
  import opened ApiServer
  import opened Conditions
  import opened Reconcile
  import opened Runs
  import Scheduler
  import StatusLaws
  import WorkerPool
  import Services
  import Routes

  // ---------- The stages of a reconcile ----------

  function AccountsOf(w: World, i: Inputs): Services.AccountsStep
    requires w.history != [] && CachedVersion(w.history, i.cache)
  {
    Services.AccountsPass(w.accounts, VersionRead(w, i), i.faults)
  }

  function SchedulerOf(w: World, i: Inputs): Scheduler.SchedulerOutcome
    requires w.history != [] && CachedVersion(w.history, i.cache)
  {
    Scheduler.SchedulerPass(w.fleet, i.cache.scheduler, VersionRead(w, i), i.templates.scheduler, i.lib, i.faults)
  }

  function ServicesOf(w: World, i: Inputs, choice: Choice): Services.Step
    requires w.history != [] && CachedVersion(w.history, i.cache)
    requires WorkerPool.Schedule(choice.services, Services.SERVICE_COUNT)
  {
    Services.ServicesPass(w.services, i.cache.services, VersionRead(w, i), choice.services, i.faults)
  }

  function WorkersOf(w: World, i: Inputs, choice: Choice): WorkerPool.WorkerOutcome
    requires w.history != [] && CachedVersion(w.history, i.cache)
  {
    WorkerPool.WorkerPass(SchedulerOf(w, i).fleet, i.cache.workers, VersionRead(w, i), i.templates.worker, i.lib, i.names,
                          i.faults, choice.workers)
  }

  function RoutesOf(w: World, i: Inputs): Routes.RoutesOutcome
    requires w.history != [] && CachedVersion(w.history, i.cache)
  {
    var c := VersionRead(w, i);
    Routes.RoutesPass(w.routes, i.cache.routes, c, Routes.RouteTargets(c), i.gatewayAPIEnabled, i.faults)
  }

  /** The version is left to the default, or the library can interpret it. */
  predicate Interpretable(c: Cluster, lib: Library) {
    c.spec.version == "" || c.spec.version == "latest"
    || lib.versionError(c.spec.version, c.spec.license.cloud.Some?).None?
  }

  /** The resource was read. */
  ghost predicate Begun(w: World, i: Inputs, choice: Choice) {
    w.history != [] && Allowed(w, i, choice) && i.cache.cluster.Some? && i.faults(ClusterGet).None?
  }

  ghost predicate AccountsDone(w: World, i: Inputs, choice: Choice) {
    Begun(w, i, choice) && Interpretable(VersionRead(w, i), i.lib) && AccountsOf(w, i).err.None?
  }

  ghost predicate SchedulerDone(w: World, i: Inputs, choice: Choice) {
    AccountsDone(w, i, choice) && SchedulerOf(w, i).result.Ok?
  }

  ghost predicate ServicesDone(w: World, i: Inputs, choice: Choice) {
    SchedulerDone(w, i, choice) && ServicesOf(w, i, choice).err.None?
  }

  ghost predicate WorkersDone(w: World, i: Inputs, choice: Choice) {
    ServicesDone(w, i, choice) && WorkersOf(w, i, choice).result.Ok?
  }

  ghost predicate AllDone(w: World, i: Inputs, choice: Choice) {
    WorkersDone(w, i, choice) && RoutesOf(w, i).result.Ok?
  }

  // ---------- What a status says ----------

  /** The condition is True without an explanation, or False with this one. */
  predicate Says(now: Status, ctype: string, ready: bool, reason: string, message: string, generation: nat) {
    Find(now.conditions, ctype) ==
    Some(if ready then Condition(ctype, True, "Reconciled", "", generation)
         else Condition(ctype, False, reason, message, generation))
  }

  /** The error is shown under the given condition and under Ready. The other conditions are as they were, except that
      SchedulerReady shows the scheduler if it was observed. */
  ghost predicate Shows(now: Status, c: Cluster, under: string, se: Error, s: Option<Scheduler.Observation>)
    requires se.Spec?
  {
    && Says(now, under, false, se.reason, Text(se), c.generation)
    && Says(now, READY, false, se.reason, Text(se), c.generation)
    && (s.Some? && under != SCHEDULER_READY ==>
          Says(now, SCHEDULER_READY, s.value.ready, "NotReady", s.value.message, c.generation))
    && (forall t :: t != under && t != READY && (s.Some? ==> t != SCHEDULER_READY) ==>
          Find(now.conditions, t) == Find(c.status.conditions, t))
    && now.observedGeneration == c.generation && now.workerPool == c.status.workerPool
    && now.scheduler.ready == if s.Some? then s.value.ready else c.status.scheduler.ready
  }

  /** The reconcile is over after the stages that led to the world `left`: the error is recorded if the spec caused it,
      and else handed to the queue. */
  ghost predicate EndsWith(w: World, left: World, i: Inputs, r: Reconciled, e: Error, under: string,
                           s: Option<Scheduler.Observation>)
    requires i.cache.cluster.Some? && i.cache.cluster.value < |w.history|
  {
    var c := w.history[i.cache.cluster.value];
    match As(e, SpecKind)
    case None => r == Reconciled(left, Retry(e))
    case Some(se) =>
      && r.world == left.(history := r.world.history,
                          fleet := left.fleet.(events := left.fleet.events + [Event(Warning, se.reason, Text(se))]))
      && match StatusError(w.history, i.cache.cluster.value, i.faults)
         case Some(refused) => r.world.history == w.history && r.outcome == Retry(refused)
         case None => w.history <= r.world.history && r.outcome == Done
                      && Shows(r.world.history[|r.world.history| - 1].status, c, under, se, s)
  }

  lemma SpecErrorShown(c: Cluster, condition: string, se: Error, s: Option<Scheduler.Observation>)
    requires se.Spec? && condition in {READY, SCHEDULER_READY, WORKER_POOL_READY}
    requires condition == SCHEDULER_READY ==> s.None?
    ensures Shows(SpecErrorStatus(c, condition, se, s), c, condition, se, s)
  {
    hide Find, Set, Text;
    StatusLaws.PartsDistinct();
    var d := if s.Some? then WithScheduler(c, s.value) else c;
    forall t
      ensures Find(SpecErrorStatus(c, condition, se, s).conditions, t) ==
              if t == READY || t == condition then Some(SpecErrorCondition(d, t, se)) else Find(d.status.conditions, t)
      ensures Find(d.status.conditions, t) ==
              if s.Some? && t == SCHEDULER_READY
              then Some(ReadyCondition(c, SCHEDULER_READY, s.value.ready, NOT_READY, s.value.message))
              else Find(c.status.conditions, t)
    {
      StatusLaws.SpecErrorConditions(d, condition, se, t);
      if s.Some? {
        FindAfterSet(c.status.conditions,
                     ReadyCondition(c, SCHEDULER_READY, s.value.ready, NOT_READY, s.value.message), t);
      }
    }
  }

  lemma ConcludeEnds(w: World, left: World, i: Inputs, e: Error, under: string, s: Option<Scheduler.Observation>)
    requires i.cache.cluster.Some? && i.cache.cluster.value < |w.history| && left.history == w.history
    requires under in {READY, SCHEDULER_READY, WORKER_POOL_READY} && (under == SCHEDULER_READY ==> s.None?)
    requires var f := ReportUnder(e, under, s); f.SpecFailure? ==> f.failure.Spec?
    ensures var read := i.cache.cluster.value;
            EndsWith(w, left, i, Conclude(left, read, w.history[read], ReportUnder(e, under, s), i.faults), e, under, s)
  {
    hide SpecErrorStatus, Text, Shows;
    var read := i.cache.cluster.value;
    if As(e, SpecKind).Some? {
      SpecErrorShown(w.history[read], under, As(e, SpecKind).value, s);
    }
  }

  // ---------- Each stage's error ----------

  lemma ReconcileConcludes(w: World, i: Inputs, choice: Choice)
    requires Begun(w, i, choice)
    ensures var read := i.cache.cluster.value;
            && read < |w.history| && VersionRead(w, i) == w.history[read]
            && var g := Gather(w, VersionRead(w, i), i, choice);
               && g.world.history == w.history && (g.findings.SpecFailure? ==> g.findings.failure.Spec?)
               && ReconcileOnce(w, i, choice) == Conclude(g.world, read, w.history[read], g.findings, i.faults)
  {
    hide Gather, Conclude, Genuine, WorkerPool.Schedule;
    GatherFindsSpecErrors(w, w.history[i.cache.cluster.value], i, choice);
  }

  /** Findings that report an error of a stage end the reconcile with it. */
  lemma GatheredEnds(w: World, left: World, i: Inputs, choice: Choice, e: Error, under: string,
                     s: Option<Scheduler.Observation>)
    requires Begun(w, i, choice) && left.history == w.history
    requires under in {READY, SCHEDULER_READY, WORKER_POOL_READY} && (under == SCHEDULER_READY ==> s.None?)
    requires Gather(w, VersionRead(w, i), i, choice) == Gathered(left, ReportUnder(e, under, s))
    ensures EndsWith(w, left, i, ReconcileOnce(w, i, choice), e, under, s)
  {
    hide Gather, Conclude, ReconcileOnce, ReportUnder, EndsWith, Genuine, WorkerPool.Schedule;
    ReconcileConcludes(w, i, choice);
    ConcludeEnds(w, left, i, e, under, s);
  }

  /** A version that cannot be interpreted: nothing is written but the status, and only Ready shows it. */
  lemma VersionAnswer(w: World, i: Inputs, choice: Choice)
    requires Begun(w, i, choice) && !Interpretable(VersionRead(w, i), i.lib)
    ensures var c := VersionRead(w, i);
            var text := i.lib.versionError(c.spec.version, c.spec.license.cloud.Some?);
            text.Some? && EndsWith(w, w, i, ReconcileOnce(w, i, choice), Spec("InvalidVersion", Plain(text.value)), READY,
                                   None)
  {
    hide EndsWith, ReconcileOnce, Genuine, WorkerPool.Schedule, AccountsOf, Services.AccountsPass, Scheduler.SchedulerPass,
      GatherRest, VersionRead;
    var c := VersionRead(w, i);
    var text := i.lib.versionError(c.spec.version, c.spec.license.cloud.Some?).value;
    GatheredEnds(w, w, i, choice, Spec("InvalidVersion", Plain(text)), READY, None);
  }

  /** An error of the accounts: no pod, service or route is touched, and only Ready shows it. */
  lemma AccountsAnswer(w: World, i: Inputs, choice: Choice)
    requires Begun(w, i, choice) && Interpretable(VersionRead(w, i), i.lib) && AccountsOf(w, i).err.Some?
    ensures EndsWith(w, w.(accounts := AccountsOf(w, i).accounts), i, ReconcileOnce(w, i, choice),
                     AccountsOf(w, i).err.value, READY, None)
  {
    hide EndsWith, ReconcileOnce, Genuine, WorkerPool.Schedule, Services.AccountsPass, Scheduler.SchedulerPass, GatherRest,
      VersionRead, ReportUnder;
    var accounts := AccountsOf(w, i);
    GatheredEnds(w, w.(accounts := accounts.accounts), i, choice, accounts.err.value, READY, None);
  }

  /** An error of the scheduler stage: no worker, service or route is touched, and SchedulerReady and Ready show it. */
  lemma SchedulerAnswer(w: World, i: Inputs, choice: Choice)
    requires AccountsDone(w, i, choice) && SchedulerOf(w, i).result.Failed?
    ensures EndsWith(w, w.(accounts := AccountsOf(w, i).accounts, fleet := SchedulerOf(w, i).fleet), i,
                     ReconcileOnce(w, i, choice), SchedulerOf(w, i).result.error, SCHEDULER_READY, None)
  {
    hide EndsWith, ReconcileOnce, Genuine, WorkerPool.Schedule, Services.AccountsPass, Scheduler.SchedulerPass, GatherRest,
      VersionRead, ReportUnder;
    var scheduler := SchedulerOf(w, i);
    GatheredEnds(w, w.(accounts := AccountsOf(w, i).accounts, fleet := scheduler.fleet), i, choice,
                 scheduler.result.error, SCHEDULER_READY, None);
  }

  /** An error of the services: no worker or route is touched; Ready shows it, and SchedulerReady the scheduler. */
  lemma ServicesAnswer(w: World, i: Inputs, choice: Choice)
    requires SchedulerDone(w, i, choice) && ServicesOf(w, i, choice).err.Some?
    ensures var services := ServicesOf(w, i, choice);
            EndsWith(w, w.(accounts := AccountsOf(w, i).accounts, fleet := SchedulerOf(w, i).fleet,
                           services := services.store), i, ReconcileOnce(w, i, choice), services.err.value, READY,
                     Some(SchedulerOf(w, i).result.value))
  {
    hide EndsWith, ReconcileOnce, Genuine, WorkerPool.Schedule, Services.AccountsPass, Scheduler.SchedulerPass,
      Services.ServicesPass, WorkerPool.WorkerPass, VersionRead, ReportUnder;
    var services := ServicesOf(w, i, choice);
    GatheredEnds(w, w.(accounts := AccountsOf(w, i).accounts, fleet := SchedulerOf(w, i).fleet,
                       services := services.store), i, choice, services.err.value, READY,
                 Some(SchedulerOf(w, i).result.value));
  }

  /** An error of the worker stage: no route is touched; WorkerPoolReady and Ready show it, and SchedulerReady the
      scheduler. */
  lemma WorkersAnswer(w: World, i: Inputs, choice: Choice)
    requires ServicesDone(w, i, choice) && WorkersOf(w, i, choice).result.Failed?
    ensures var workers := WorkersOf(w, i, choice);
            EndsWith(w, w.(accounts := AccountsOf(w, i).accounts, fleet := workers.fleet,
                           services := ServicesOf(w, i, choice).store), i, ReconcileOnce(w, i, choice),
                     workers.result.error, WORKER_POOL_READY, Some(SchedulerOf(w, i).result.value))
  {
    hide EndsWith, ReconcileOnce, Genuine, WorkerPool.Schedule, Services.AccountsPass, Scheduler.SchedulerPass,
      Services.ServicesPass, WorkerPool.WorkerPass, VersionRead, ReportUnder, Routes.RoutesPass;
    var workers := WorkersOf(w, i, choice);
    GatheredEnds(w, w.(accounts := AccountsOf(w, i).accounts, fleet := workers.fleet,
                       services := ServicesOf(w, i, choice).store), i, choice, workers.result.error, WORKER_POOL_READY,
                 Some(SchedulerOf(w, i).result.value));
  }

  /** The world after all stages. */
  function AfterStages(w: World, i: Inputs, choice: Choice): World
    requires w.history != [] && CachedVersion(w.history, i.cache)
    requires WorkerPool.Schedule(choice.services, Services.SERVICE_COUNT)
  {
    w.(accounts := AccountsOf(w, i).accounts, fleet := WorkersOf(w, i, choice).fleet,
       services := ServicesOf(w, i, choice).store, routes := RoutesOf(w, i).store)
  }

  /** An error of the routes is only ever retried; nothing is persisted. */
  lemma RoutesAnswer(w: World, i: Inputs, choice: Choice)
    requires WorkersDone(w, i, choice) && RoutesOf(w, i).result.Failed?
    ensures ReconcileOnce(w, i, choice) == Reconciled(AfterStages(w, i, choice), Retry(RoutesOf(w, i).result.error))
  {
    hide ReconcileOnce, Genuine, WorkerPool.Schedule, Services.AccountsPass, Scheduler.SchedulerPass,
      Services.ServicesPass, WorkerPool.WorkerPass, VersionRead, Routes.RoutesPass;
    ReconcileConcludes(w, i, choice);
  }

  // ---------- All stages done ----------

  /** The first part that is not ready speaks for the cluster. */
  function Complaint(s: Scheduler.Observation, pool: bool, r: WorkerPool.Report, routes: Routes.RoutesReport): string {
    if !s.ready then s.message else if !pool then r.message else routes.message
  }

  /** What a reconcile that got through persists about its parts. */
  ghost predicate Reported(now: Status, c: Cluster, s: Scheduler.Observation, r: WorkerPool.Report,
                           routes: Routes.RoutesReport) {
    var pool := r.status.replicas == c.spec.workerPool.replicas && r.status.readyReplicas == r.status.replicas;
    && Says(now, SCHEDULER_READY, s.ready, "NotReady", s.message, c.generation)
    && Says(now, WORKER_POOL_READY, pool, "NotReady", r.message, c.generation)
    && (if routes.requested then Says(now, ROUTES_READY, routes.ready, routes.reason, routes.message, c.generation)
        else Find(now.conditions, ROUTES_READY) == None)
    && Says(now, READY, s.ready && pool && routes.ready, "NotReady", Complaint(s, pool, r, routes), c.generation)
    && now.scheduler.ready == s.ready && now.workerPool == r.status && now.observedGeneration == c.generation
  }

  lemma FullStatusReports(c: Cluster, s: Scheduler.Observation, r: WorkerPool.Report, routes: Routes.RoutesReport)
    ensures Reported(FullStatus(c, s, r, routes), c, s, r, routes)
  {
    hide FullStatus, Find;
    StatusLaws.FullConditions(c, s, r, routes);
  }

  /** When every stage is done the report is persisted, or the update refused and the reconcile retried; a conflict
      about a route asks for another reconcile in a minute. Beside the status nothing changes any more. */
  lemma AllAnswer(w: World, i: Inputs, choice: Choice)
    requires AllDone(w, i, choice)
    ensures var r, left := ReconcileOnce(w, i, choice), AfterStages(w, i, choice);
            var routes := RoutesOf(w, i).result.value;
            && r.world == left.(history := r.world.history, fleet := left.fleet.(events := r.world.fleet.events))
            && match StatusError(w.history, i.cache.cluster.value, i.faults)
               case Some(refused) => r == Reconciled(left, Retry(refused))
               case None =>
                 && w.history <= r.world.history
                 && r.outcome == (if routes.conflict then RequeueAfterMinute else Done)
                 && Reported(r.world.history[|r.world.history| - 1].status, VersionRead(w, i),
                             SchedulerOf(w, i).result.value, WorkersOf(w, i, choice).result.value, routes)
  {
    hide ReconcileOnce, Genuine, WorkerPool.Schedule, Services.AccountsPass, Scheduler.SchedulerPass,
      Services.ServicesPass, WorkerPool.WorkerPass, VersionRead, Routes.RoutesPass, Conclude, FullStatus, Reported;
    ReconcileConcludes(w, i, choice);
    var c, s, r, routes := VersionRead(w, i), SchedulerOf(w, i).result.value, WorkersOf(w, i, choice).result.value,
      RoutesOf(w, i).result.value;
    FullStatusReports(c, s, r, routes);
    FullConclude(AfterStages(w, i, choice), i.cache.cluster.value, c, s, r, routes, i.faults);
  }

  lemma FullConclude(left: World, read: nat, c: Cluster, s: Scheduler.Observation, r: WorkerPool.Report,
                     routes: Routes.RoutesReport, faults: Faults)
    requires read < |left.history| && c == left.history[read]
    ensures var out := Conclude(left, read, c, Full(s, r, routes), faults);
            && out.world == left.(history := out.world.history, fleet := left.fleet.(events := out.world.fleet.events))
            && match StatusError(left.history, read, faults)
               case Some(refused) => out == Reconciled(left, Retry(refused))
               case None =>
                 && left.history <= out.world.history
                 && out.outcome == (if routes.conflict then RequeueAfterMinute else Done)
                 && out.world.history[|out.world.history| - 1].status == FullStatus(c, s, r, routes)
  {
    hide FullStatus, ReadyMessage, Find;
  }
}
