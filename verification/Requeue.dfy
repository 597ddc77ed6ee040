/** What a reconcile asks of its work queue: a retry with backoff, another reconcile in a minute, or nothing. */
module Requeue {
  import opened Kube
  import opened Errors
  import opened PolarsCluster
  import opened ApiServer
  import opened Reconcile
  import opened Runs
  import Scheduler
  import WorkerPool
  import Services
  import Routes

  // ---------- Unexpected errors have no spec error in them ----------

  lemma TargetErrorIsTransient(store: RouteStore, cached: map<RouteKey, Route>, c: Cluster, t: Routes.Target,
                               faults: Faults)
    requires Genuine(faults)
    ensures var v := Routes.TargetStep(store, cached, c, t, faults).verdict; v.Failed? ==> !Occurs(v.error, SpecKind)
  {
    hide Routes.ApplyRoute, Routes.RouteAccepted, As, IsNotFound, Text;
    if t.spec.Some? {
      var err := Routes.ApplyRoute(store, cached, c, t, faults).err;
      if err.Some? { AsFindsEveryOccurrence(err.value, SpecKind); }
    }
  }

  /** The routes stage reports every spec error in its verdicts; what it fails with is something else. */
  lemma {:induction false} RoutesErrorIsTransient(store: RouteStore, cached: map<RouteKey, Route>, c: Cluster,
                                                  targets: seq<Routes.Target>, faults: Faults)
    requires Genuine(faults)
    ensures var w := Routes.WalkTargets(store, cached, c, targets, faults);
            w.err.Some? ==> !Occurs(w.err.value, SpecKind)
  {
    hide Routes.TargetStep, Genuine, Occurs;
    if targets != [] {
      var prior := targets[..|targets| - 1];
      RoutesErrorIsTransient(store, cached, c, prior, faults);
      TargetErrorIsTransient(Routes.WalkTargets(store, cached, c, prior, faults).store, cached, c,
                             targets[|targets| - 1], faults);
    }
  }

  ghost predicate Transient(f: Findings) {
    f.Unexpected? ==> !Occurs(f.error, SpecKind)
  }

  lemma ReportIsTransient(e: Error, condition: string, s: Option<Scheduler.Observation>)
    ensures Transient(ReportUnder(e, condition, s))
  {
    AsFindsEveryOccurrence(e, SpecKind);
  }

  lemma GatherRestIsTransient(w: World, c: Cluster, i: Inputs, choice: Choice, s: Scheduler.Observation)
    requires WorkerPool.Schedule(choice.services, Services.SERVICE_COUNT) && Genuine(i.faults)
    ensures Transient(GatherRest(w, c, i, choice, s).findings)
  {
    hide Services.ServicesPass, WorkerPool.WorkerPass, Routes.WalkTargets, Routes.Fold, ReportUnder, Genuine, Occurs;
    var services := Services.ServicesPass(w.services, i.cache.services, c, choice.services, i.faults);
    var workers := WorkerPool.WorkerPass(w.fleet, i.cache.workers, c, i.templates.worker, i.lib, i.names, i.faults,
                                         choice.workers);
    if services.err.Some? {
      ReportIsTransient(services.err.value, READY, Some(s));
    } else if workers.result.Failed? {
      ReportIsTransient(workers.result.error, WORKER_POOL_READY, Some(s));
    } else {
      RoutesErrorIsTransient(w.routes, i.cache.routes, c, Routes.RouteTargets(c), i.faults);
    }
  }

  lemma GatherIsTransient(w: World, c: Cluster, i: Inputs, choice: Choice)
    requires WorkerPool.Schedule(choice.services, Services.SERVICE_COUNT) && Genuine(i.faults)
    ensures Transient(Gather(w, c, i, choice).findings)
  {
    hide Services.AccountsPass, Scheduler.SchedulerPass, GatherRest, VersionError, ReportUnder, Genuine,
      WorkerPool.Schedule, Occurs;
    if VersionError(c, i.lib).None? {
      var accounts := Services.AccountsPass(w.accounts, c, i.faults);
      var scheduler := Scheduler.SchedulerPass(w.fleet, i.cache.scheduler, c, i.templates.scheduler, i.lib, i.faults);
      if accounts.err.Some? {
        ReportIsTransient(accounts.err.value, READY, None);
      } else if scheduler.result.Failed? {
        ReportIsTransient(scheduler.result.error, SCHEDULER_READY, None);
      } else {
        GatherRestIsTransient(w.(accounts := accounts.accounts, fleet := scheduler.fleet), c, i, choice,
                              scheduler.result.value);
      }
    }
  }

  // ---------- The outcome ----------

  /** The error a reconcile cannot act on: reading the resource failed for another reason than its absence, a stage met
      an unexpected error, or the status update was refused. */
  function Failure(w: World, i: Inputs, f: Findings): Option<Error> {
    match ClusterGetError(i.cache, i.faults)
    case Some(e) => if IsNotFound(e) then None else Some(e)
    case None =>
      if f.Unexpected? then Some(f.error)
      else if i.cache.cluster.None? then None
      else StatusError(w.history, i.cache.cluster.value, i.faults)
  }

  lemma FaultsAreTransient(w: World, i: Inputs)
    requires Genuine(i.faults)
    ensures ClusterGetError(i.cache, i.faults).Some? ==> !Occurs(ClusterGetError(i.cache, i.faults).value, SpecKind)
    ensures forall read: nat ::
              var err := StatusError(w.history, read, i.faults); err.Some? ==> !Occurs(err.value, SpecKind)
  {
  }

  /** The outcome, exactly: a retry with the failure if there is one; otherwise another reconcile in a minute when the
      stages got through and a route is in conflict; otherwise nothing. In particular a spec error is never retried,
      whatever tree it is found in: no spec error occurs in the error of a retry. A retry leaves the status as it
      was. */
  lemma OutcomeIsExact(w: World, i: Inputs, choice: Choice)
    requires w.history != [] && Allowed(w, i, choice)
    ensures var (f, staged) := Staged(w, i, choice);
            var r := ReconcileOnce(w, i, choice);
            var failure := Failure(w, i, f);
            && (forall e :: r.outcome == Retry(e) <==> failure == Some(e))
            && (r.outcome == RequeueAfterMinute <==> failure.None? && f.Full? && f.routes.conflict)
            && (r.outcome.Retry? ==> !Occurs(r.outcome.error, SpecKind) && r.world.history == w.history)
  {
    hide Gather, FullStatus, SpecErrorStatus, ReadyMessage, Text, Occurs, WorkerPool.Schedule, Genuine;
    FaultsAreTransient(w, i);
    if ClusterGetError(i.cache, i.faults).None? {
      var c := w.history[i.cache.cluster.value];
      GatherFindsSpecErrors(w, c, i, choice);
      GatherIsTransient(w, c, i, choice);
    }
  }
}
