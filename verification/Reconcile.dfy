/** Reconcile and recordSpecError of internal/controller/polarscluster_controller.go. */
module Reconcile {
  import opened Kube
  import opened Errors
  import opened PolarsCluster
  import opened PodTemplates
  import opened ApiServer
  import opened Conditions
  import Scheduler
  import WorkerPool
  import Services
  import Routes

  // ---------- The world and what a reconcile is given ----------

  /** Everything the API server stores, with the writes and events so far. */
  datatype World = World(
    history: seq<Cluster>,
    fleet: Fleet,
    accounts: set<Key>,
    services: ServiceStore,
    routes: RouteStore)

  /** The reads and faults of one reconcile, the server's choice of pod names, the library, the operator's setting, and
      the templates of the version it works on. */
  datatype Inputs = Inputs(
    cache: Cache,
    faults: Faults,
    names: nat -> string,
    lib: Library,
    gatewayAPIEnabled: bool,
    templates: Templates)

  /** The order in which the tasks of the two fan-outs made their calls. */
  datatype Choice = Choice(services: seq<nat>, workers: seq<nat>)

  /** What a run of the stages finds: an unexpected error; an error caused by the spec, met before or after the
      scheduler was observed; or the full picture. */
  datatype Findings =
    | Unexpected(error: Error)
    | SpecFailure(condition: string, failure: Error, scheduler: Option<Scheduler.Observation>)
    | Full(observed: Scheduler.Observation, workers: WorkerPool.Report, routes: Routes.RoutesReport)

  /** Where an error is reported: under `condition` if it has a spec error in it, otherwise nowhere. */
  function ReportUnder(e: Error, condition: string, scheduler: Option<Scheduler.Observation>): Findings {
    match As(e, SpecKind)
    case None => Unexpected(e)
    case Some(se) => SpecFailure(condition, se, scheduler)
  }

  function VersionError(c: Cluster, lib: Library): Option<Error> {
    if c.spec.version == "" || c.spec.version == "latest" then None
    else match lib.versionError(c.spec.version, c.spec.license.cloud.Some?)
         case None => None
         case Some(text) => Some(Spec("InvalidVersion", Plain(text)))
  }

  // ---------- The stages ----------

  datatype Gathered = Gathered(world: World, findings: Findings)

  /** The stages from the services on; the scheduler has been observed. */
  function GatherRest(w: World, c: Cluster, i: Inputs, choice: Choice, s: Scheduler.Observation): Gathered
    requires WorkerPool.Schedule(choice.services, Services.SERVICE_COUNT)
  {
    var services := Services.ServicesPass(w.services, i.cache.services, c, choice.services, i.faults);
    var w1 := w.(services := services.store);
    if services.err.Some? then Gathered(w1, ReportUnder(services.err.value, READY, Some(s)))
    else
      var workers := WorkerPool.WorkerPass(w1.fleet, i.cache.workers, c, i.templates.worker, i.lib, i.names, i.faults,
                                           choice.workers);
      var w2 := w1.(fleet := workers.fleet);
      if workers.result.Failed? then Gathered(w2, ReportUnder(workers.result.error, WORKER_POOL_READY, Some(s)))
      else
        var routes := Routes.RoutesPass(w2.routes, i.cache.routes, c, Routes.RouteTargets(c), i.gatewayAPIEnabled,
                                        i.faults);
        var w3 := w2.(routes := routes.store);
        if routes.result.Failed? then Gathered(w3, Unexpected(routes.result.error))
        else Gathered(w3, Full(s, workers.result.value, routes.result.value))
  }

  /** All the stages, in order; the version gate comes before any write. */
  function Gather(w: World, c: Cluster, i: Inputs, choice: Choice): Gathered
    requires WorkerPool.Schedule(choice.services, Services.SERVICE_COUNT)
  {
    if VersionError(c, i.lib).Some? then Gathered(w, SpecFailure(READY, VersionError(c, i.lib).value, None))
    else
      var accounts := Services.AccountsPass(w.accounts, c, i.faults);
      var w1 := w.(accounts := accounts.accounts);
      if accounts.err.Some? then Gathered(w1, ReportUnder(accounts.err.value, READY, None))
      else
        var scheduler := Scheduler.SchedulerPass(w1.fleet, i.cache.scheduler, c, i.templates.scheduler, i.lib, i.faults);
        var w2 := w1.(fleet := scheduler.fleet);
        if scheduler.result.Failed? then Gathered(w2, ReportUnder(scheduler.result.error, SCHEDULER_READY, None))
        else GatherRest(w2, c, i, choice, scheduler.result.value)
  }

  // ---------- The status ----------

  const NOT_READY := "NotReady"

  function WithScheduler(c: Cluster, s: Scheduler.Observation): Cluster {
    var observed := c.(status := c.status.(scheduler := SchedulerStatus(s.ready)));
    WithCondition(observed, ReadyCondition(c, SCHEDULER_READY, s.ready, NOT_READY, s.message))
  }

  predicate PoolReady(c: Cluster, status: WorkerPoolStatus) {
    status.replicas == c.spec.workerPool.replicas && status.readyReplicas == status.replicas
  }

  function WithWorkers(c: Cluster, r: WorkerPool.Report): Cluster {
    var observed := c.(status := c.status.(workerPool := r.status));
    WithCondition(observed, ReadyCondition(c, WORKER_POOL_READY, PoolReady(c, r.status), NOT_READY, r.message))
  }

  function WithRoutes(c: Cluster, r: Routes.RoutesReport): Cluster {
    if r.requested then WithCondition(c, ReadyCondition(c, ROUTES_READY, r.ready, r.reason, r.message))
    else c.(status := c.status.(conditions := Remove(c.status.conditions, ROUTES_READY)))
  }

  predicate AllReady(c: Cluster, s: Scheduler.Observation, w: WorkerPool.Report, r: Routes.RoutesReport) {
    s.ready && PoolReady(c, w.status) && r.ready
  }

  /** The first failing part speaks: scheduler, then workers, then routes. */
  function ReadyMessage(c: Cluster, s: Scheduler.Observation, w: WorkerPool.Report, r: Routes.RoutesReport): string {
    if !s.ready then s.message
    else if !PoolReady(c, w.status) then w.message
    else if !r.ready then r.message
    else ""
  }

  function WithReady(c: Cluster, ready: bool, message: string): Cluster {
    var judged := WithCondition(c, ReadyCondition(c, READY, ready, NOT_READY, message));
    judged.(status := judged.status.(observedGeneration := c.generation))
  }

  function FullStatus(c: Cluster, s: Scheduler.Observation, w: WorkerPool.Report, r: Routes.RoutesReport): Status {
    WithReady(WithRoutes(WithWorkers(WithScheduler(c, s), w), r), AllReady(c, s, w, r), ReadyMessage(c, s, w, r)).status
  }

  function SpecErrorCondition(c: Cluster, ctype: string, se: Error): Condition
    requires se.Spec?
  {
    Condition(ctype, False, se.reason, Text(se), c.generation)
  }

  /** recordSpecError marks the failing part and mirrors it onto Ready. */
  function WithSpecError(c: Cluster, condition: string, se: Error): Cluster
    requires se.Spec?
  {
    var marked := WithCondition(c, SpecErrorCondition(c, condition, se));
    var mirrored := if condition != READY then WithCondition(marked, SpecErrorCondition(c, READY, se)) else marked;
    mirrored.(status := mirrored.status.(observedGeneration := c.generation))
  }

  function SpecErrorStatus(c: Cluster, condition: string, se: Error, s: Option<Scheduler.Observation>): Status
    requires se.Spec?
  {
    WithSpecError(if s.Some? then WithScheduler(c, s.value) else c, condition, se).status
  }

  // ---------- Persisting and announcing ----------

  /** What the reconcile asks of its queue. */
  datatype Outcome = Done | RequeueAfterMinute | Retry(error: Error)

  datatype Reconciled = Reconciled(world: World, outcome: Outcome)

  function Announce(w: World, event: Event): World {
    w.(fleet := Record(w.fleet, event))
  }

  const BECAME_READY := Event(Normal, RECONCILED, "PolarsCluster is Ready")

  function Persist(w: World, read: nat, status: Status, faults: Faults): World {
    w.(history := StatusHistory(w.history, read, status, faults))
  }

  /** recordSpecError: the warning is recorded whether or not the status update then succeeds. */
  function SpecErrorExit(w: World, read: nat, status: Status, se: Error, faults: Faults): Reconciled
    requires se.Spec?
  {
    var told := Announce(w, Event(Warning, se.reason, Text(se)));
    var err := StatusError(w.history, read, faults);
    Reconciled(Persist(told, read, status, faults), if err.Some? then Retry(err.value) else Done)
  }

  /** The event of a change of readiness, if any. */
  function Transition(w: World, was: bool, now: bool, message: string): World {
    if !was && now then Announce(w, BECAME_READY)
    else if was && !now then Announce(w, Event(Warning, NOT_READY, message))
    else w
  }

  function Conclude(w: World, read: nat, c: Cluster, f: Findings, faults: Faults): Reconciled
    requires f.SpecFailure? ==> f.failure.Spec?
  {
    match f
    case Unexpected(e) => Reconciled(w, Retry(e))
    case SpecFailure(condition, se, s) => SpecErrorExit(w, read, SpecErrorStatus(c, condition, se, s), se, faults)
    case Full(s, workers, routes) =>
      FullExit(w, read, c, FullStatus(c, s, workers, routes), ReadyMessage(c, s, workers, routes), routes.conflict, faults)
  }

  /** The regular exit: nothing is recorded unless the status update succeeds. */
  function FullExit(w: World, read: nat, c: Cluster, status: Status, message: string, conflict: bool,
                    faults: Faults): Reconciled {
    var err := StatusError(w.history, read, faults);
    if err.Some? then Reconciled(w, Retry(err.value))
    else
      Reconciled(Transition(Persist(w, read, status, faults), IsTrue(c.status.conditions, READY),
                            IsTrue(status.conditions, READY), message),
                 if conflict then RequeueAfterMinute else Done)
  }

  /** The cached version of the resource is one that was stored. */
  predicate CachedVersion(history: seq<Cluster>, cache: Cache) {
    cache.cluster.Some? ==> cache.cluster.value < |history|
  }

  function ClusterGetError(cache: Cache, faults: Faults): Option<Error> {
    Injected(faults(ClusterGet), if cache.cluster.Some? then None else Some(MissingError("polarscluster")))
  }

  /** One reconcile. */
  function ReconcileOnce(w: World, i: Inputs, choice: Choice): Reconciled
    requires CachedVersion(w.history, i.cache) && WorkerPool.Schedule(choice.services, Services.SERVICE_COUNT)
  {
    var err := ClusterGetError(i.cache, i.faults);
    if err.Some? then Reconciled(w, if IsNotFound(err.value) then Done else Retry(err.value))
    else
      var read := i.cache.cluster.value;
      var g := Gather(w, w.history[read], i, choice);
      GatherFindsSpecErrors(w, w.history[read], i, choice);
      Conclude(g.world, read, w.history[read], g.findings, i.faults)
  }

  lemma GatherFindsSpecErrors(w: World, c: Cluster, i: Inputs, choice: Choice)
    requires WorkerPool.Schedule(choice.services, Services.SERVICE_COUNT)
    ensures var f := Gather(w, c, i, choice).findings; f.SpecFailure? ==> f.failure.Spec?
    ensures Gather(w, c, i, choice).world.history == w.history
  {
    hide Services.ServicesPass, WorkerPool.WorkerPass, Routes.RoutesPass, Services.AccountsPass,
      Scheduler.SchedulerPass, WorkerPool.Schedule;
  }

  // ---------- The reconciler ----------

  /** Stands in for the templates when there is no version to build them from. */
  const NOTHING_BUILT := Templates(Failed(MissingError("polarscluster")), Failed(MissingError("polarscluster")))

  class PolarsClusterReconciler {
    const server: Server
    const lib: Library
    const gatewayAPIEnabled: bool

    constructor (server: Server, lib: Library, gatewayAPIEnabled: bool)
      ensures this.server == server && this.lib == lib && this.gatewayAPIEnabled == gatewayAPIEnabled
    {
      this.server, this.lib, this.gatewayAPIEnabled := server, lib, gatewayAPIEnabled;
    }

    ghost function State(): World
      reads server
    {
      World(server.history, server.Snapshot(), server.accounts, server.services, server.routes)
    }

    /** What a reconcile is given when it works on the version `c`. */
    ghost function Given(c: Cluster): Inputs
      reads server
    {
      Inputs(server.cache, server.faults, server.names, lib, gatewayAPIEnabled, TemplatesOf(c, lib))
    }

    /** What the next reconcile is given: it works on the cached version, if there is one. */
    ghost function GivenNow(): Inputs
      requires CachedVersion(server.history, server.cache)
      reads server
    {
      match server.cache.cluster
      case Some(read) => Given(server.history[read])
      case None => Inputs(server.cache, server.faults, server.names, lib, gatewayAPIEnabled, NOTHING_BUILT)
    }

    method RecordSpecError(copy: Copy, read: nat, condition: string, se: Error) returns (outcome: Outcome)
      requires se.Spec? && read < |server.history|
      modifies server`history, server`events, copy
      ensures Reconciled(State(), outcome) ==
              SpecErrorExit(old(State()), read, WithSpecError(old(copy.cluster), condition, se).status, se, server.faults)
    {
      hide Set, Text;
      copy.SetStatusCondition(SpecErrorCondition(copy.cluster, condition, se));
      if condition != READY {
        copy.SetStatusCondition(SpecErrorCondition(copy.cluster, READY, se));
      }
      server.Eventf(Event(Warning, se.reason, Text(se)));
      copy.cluster := copy.cluster.(status := copy.cluster.status.(observedGeneration := copy.cluster.generation));
      var err := server.UpdateStatus(read, copy.cluster.status);
      outcome := if err.Some? then Retry(err.value) else Done;
    }

    /** An error of a stage: recorded if the spec caused it, otherwise handed to the queue. */
    method Fail(copy: Copy, read: nat, condition: string, e: Error) returns (outcome: Outcome)
      requires read < |server.history|
      modifies server`history, server`events, copy
      ensures match As(e, SpecKind)
              case None => Reconciled(State(), outcome) == Reconciled(old(State()), Retry(e))
              case Some(se) =>
                Reconciled(State(), outcome) ==
                SpecErrorExit(old(State()), read, WithSpecError(old(copy.cluster), condition, se).status, se,
                              server.faults)
    {
      hide As, SpecErrorExit;
      var se := As(e, SpecKind);
      if se.None? {
        return Retry(e);
      }
      outcome := RecordSpecError(copy, read, condition, se.value);
    }

    /** The verdict on the whole cluster, the status update and the event of a change. */
    method Publish(copy: Copy, read: nat, c: Cluster, s: Scheduler.Observation, w: WorkerPool.Report,
                   r: Routes.RoutesReport)
      returns (outcome: Outcome)
      requires read < |server.history| && c == server.history[read]
      requires copy.cluster == WithRoutes(WithWorkers(WithScheduler(c, s), w), r)
      modifies server`history, server`events, copy
      ensures Reconciled(State(), outcome) == Conclude(old(State()), read, c, Full(s, w, r), server.faults)
    {
      hide Set, Find, Remove;
      var readyMessage := "";
      if !s.ready {
        readyMessage := s.message;
      } else if !PoolReady(c, w.status) {
        readyMessage := w.message;
      } else if !r.ready {
        readyMessage := r.message;
      }
      copy.SetReadyCondition(READY, AllReady(c, s, w, r), NOT_READY, readyMessage);
      copy.cluster := copy.cluster.(status := copy.cluster.status.(observedGeneration := copy.cluster.generation));
      var err := server.UpdateStatus(read, copy.cluster.status);
      if err.Some? {
        return Retry(err.value);
      }
      var wasReady, nowReady := IsTrue(c.status.conditions, READY), IsTrue(copy.cluster.status.conditions, READY);
      if !wasReady && nowReady {
        server.Eventf(BECAME_READY);
      } else if wasReady && !nowReady {
        server.Eventf(Event(Warning, NOT_READY, readyMessage));
      }
      outcome := if r.conflict then RequeueAfterMinute else Done;
    }

    /** The stages from the services on. */
    method ReconcileRest(copy: Copy, read: nat, c: Cluster, s: Scheduler.Observation)
      returns (outcome: Outcome, ghost choice: Choice)
      requires read < |server.history| && c == server.history[read] && copy.cluster == WithScheduler(c, s)
      modifies server, copy
      ensures WorkerPool.Schedule(choice.services, Services.SERVICE_COUNT)
      ensures choice.workers == [] ||
              WorkerPool.PassSchedule(server.cache.workers, c, WorkerTemplate(c, lib), lib, choice.workers)
      ensures Given(c) == old(Given(c))
      ensures var g := GatherRest(old(State()), c, Given(c), choice, s);
              (g.findings.SpecFailure? ==> g.findings.failure.Spec?)
              && Reconciled(State(), outcome) == Conclude(g.world, read, c, g.findings, server.faults)
    {
      hide WithScheduler, WithWorkers, WithRoutes, WithSpecError, SpecErrorExit, FullExit, WorkerTemplate,
        SchedulerTemplate, As, WorkerPool.WorkerPass, Routes.RoutesPass, Services.ServicesPass, WorkerPool.Schedule,
        WorkerPool.PassSchedule;
      choice := Choice([], []);
      var failed, order := Services.ReconcileServices(server, c);
      choice := choice.(services := order);
      if failed.Some? {
        outcome := Fail(copy, read, READY, failed.value);
        return;
      }
      var workers, creations := WorkerPool.ReconcileWorkerPool(server, c, lib);
      choice := choice.(workers := creations);
      if workers.Failed? {
        outcome := Fail(copy, read, WORKER_POOL_READY, workers.error);
        return;
      }
      SetWorkers(copy, workers.value);
      var routes := Routes.ReconcileRoutes(server, c, Routes.RouteTargets(c), gatewayAPIEnabled);
      if routes.Failed? {
        return Retry(routes.error), choice;
      }
      SetRoutes(copy, routes.value);
      outcome := Publish(copy, read, c, s, workers.value, routes.value);
    }

    method SetWorkers(copy: Copy, r: WorkerPool.Report)
      modifies copy
      ensures copy.cluster == WithWorkers(old(copy.cluster), r)
    {
      hide Set;
      copy.cluster := copy.cluster.(status := copy.cluster.status.(workerPool := r.status));
      copy.SetReadyCondition(WORKER_POOL_READY, PoolReady(copy.cluster, r.status), NOT_READY, r.message);
    }

    method SetRoutes(copy: Copy, r: Routes.RoutesReport)
      modifies copy
      ensures copy.cluster == WithRoutes(old(copy.cluster), r)
    {
      hide Set, Remove;
      if r.requested {
        copy.SetReadyCondition(ROUTES_READY, r.ready, r.reason, r.message);
      } else {
        copy.RemoveStatusCondition(ROUTES_READY);
      }
    }

    method Reconcile() returns (outcome: Outcome, ghost choice: Choice)
      requires CachedVersion(server.history, server.cache)
      modifies server
      ensures server.cache == old(server.cache)
      ensures WorkerPool.Schedule(choice.services, Services.SERVICE_COUNT)
      ensures choice.workers == [] ||
              (server.cache.cluster.Some? &&
               var c := old(server.history)[server.cache.cluster.value];
               WorkerPool.PassSchedule(server.cache.workers, c, WorkerTemplate(c, lib), lib, choice.workers))
      ensures Reconciled(State(), outcome) == ReconcileOnce(old(State()), old(GivenNow()), choice)
    {
      hide WithSpecError, SpecErrorExit, FullExit, WorkerTemplate, SchedulerTemplate, As, Services.AccountsPass,
        Scheduler.SchedulerPass, GatherRest, Set, IsNotFound, WorkerPool.PassSchedule;
      choice := Choice([], []);
      var err := ClusterGetError(server.cache, server.faults);
      if err.Some? {
        return if IsNotFound(err.value) then Done else Retry(err.value), choice;
      }
      var read := server.cache.cluster.value;
      var c := server.history[read];
      var copy := new Copy(c);
      var unsupported := VersionError(c, lib);
      if unsupported.Some? {
        outcome := RecordSpecError(copy, read, READY, unsupported.value);
        return;
      }
      var failed := Services.ReconcileServiceAccounts(server, c);
      if failed.Some? {
        outcome := Fail(copy, read, READY, failed.value);
        return;
      }
      var observed := Scheduler.ReconcileScheduler(server, c, lib);
      if observed.Failed? {
        outcome := Fail(copy, read, SCHEDULER_READY, observed.error);
        return;
      }
      copy.cluster := copy.cluster.(status := copy.cluster.status.(scheduler := SchedulerStatus(observed.value.ready)));
      copy.SetReadyCondition(SCHEDULER_READY, observed.value.ready, NOT_READY, observed.value.message);
      outcome, choice := ReconcileRest(copy, read, c, observed.value);
    }
  }
}
