/** One reconcile in which no call fails, every task runs and every read is up to date: what each stage does, and what
    the stages together find. */
module FreshPass {
  import opened Kube
  import opened Errors
  import opened PolarsCluster
  import opened PodTemplates
  import opened ApiServer
  import opened Reconcile
  import opened WorkerPoolLaws
  import opened WorkerPoolTheorems
  import opened WorkerPoolExact
  import opened FleetRuns
  import Runs
  import Scheduler
  import SchedulerLaws
  import WorkerPool
  import Services
  import ServiceLaws
  import Routes
  import RouteOwnership

  // ---------- The stages without failures ----------

  /** The accounts the spec asks the operator to create exist. */
  predicate AccountPresent(accounts: set<Key>, c: Cluster, spec: Option<ServiceAccountSpec>, defaultName: string) {
    spec.Some? && spec.value.create ==> Key(c.key.namespace, ResolveServiceAccountName(spec, defaultName)) in accounts
  }

  predicate AccountsPresent(accounts: set<Key>, c: Cluster) {
    && AccountPresent(accounts, c, SchedulerServiceAccount(c), c.key.name + "-scheduler")
    && AccountPresent(accounts, c, c.spec.workerPool.serviceAccount, c.key.name + "-worker")
  }

  lemma AccountEffect(accounts: set<Key>, c: Cluster, spec: Option<ServiceAccountSpec>, defaultName: string,
                      faults: Faults)
    requires FaultFree(faults)
    ensures var r := Services.AccountStep(accounts, c, spec, defaultName, faults);
            && r.err.None? && accounts <= r.accounts && AccountPresent(r.accounts, c, spec, defaultName)
            && (AccountPresent(accounts, c, spec, defaultName) ==> r.accounts == accounts)
  {
  }

  /** The accounts stage succeeds and leaves the accounts in place; where they are, it does nothing. */
  lemma AccountsAtRest(accounts: set<Key>, c: Cluster, faults: Faults)
    requires FaultFree(faults)
    ensures var r := Services.AccountsPass(accounts, c, faults);
            && r.err.None? && AccountsPresent(r.accounts, c)
            && (AccountsPresent(accounts, c) ==> r.accounts == accounts)
  {
    hide Services.AccountStep, FaultFree;
    var first := Services.AccountStep(accounts, c, SchedulerServiceAccount(c), c.key.name + "-scheduler", faults);
    AccountEffect(accounts, c, SchedulerServiceAccount(c), c.key.name + "-scheduler", faults);
    AccountEffect(first.accounts, c, c.spec.workerPool.serviceAccount, c.key.name + "-worker", faults);
  }

  lemma ServicesSettle(store: ServiceStore, c: Cluster, order: seq<nat>, faults: Faults)
    requires FaultFree(faults) && ServiceLaws.Reads(store.items) && Complete(order, Services.SERVICE_COUNT)
    ensures WorkerPool.Schedule(order, Services.SERVICE_COUNT)
    ensures var r := Services.ServicesPass(store, store.items, c, order, faults);
            && r.err.None? && ServiceLaws.Reads(r.store.items) && ServiceLaws.AllPresent(r.store.items, c)
            && (ServiceLaws.AllPresent(store.items, c) ==> r.store == store)
  {
    hide FaultFree, ServiceLaws.Reads, ServiceLaws.Present, Reduce, Services.Fan;
    CompleteRunsAll(order, Services.SERVICE_COUNT);
    hide Complete, WorkerPool.Schedule;
    ScheduleInRange(order, Services.SERVICE_COUNT);
    ServiceLaws.FaultFreeFan(store, c, order, faults);
    ReduceConserves(Services.Fan(store, store.items, c, order, faults).errs);
  }

  lemma CompleteRunsAll(order: seq<nat>, n: nat)
    requires Complete(order, n)
    ensures WorkerPool.Schedule(order, n) && forall i: nat :: i < n ==> i in order
  {
    assert forall i :: 0 <= i < |order| ==> order[i] in Elements(order);
    forall i: nat | i < n ensures i in order { assert i in Elements(order); }
  }

  lemma ScheduleInRange(order: seq<nat>, n: nat)
    requires WorkerPool.Schedule(order, n)
    ensures forall i :: 0 <= i < |order| ==> order[i] < n
  {
  }

  /** The report the routes stage gives once it is settled, from what is stored. */
  function RoutesReportOn(items: map<RouteKey, Route>, c: Cluster, enabled: bool): Routes.RoutesReport {
    var targets := Routes.RouteTargets(c);
    if !enabled then if Routes.AnyRequested(targets) then Routes.UNAVAILABLE else Routes.INITIAL
    else Routes.Fold(targets, [RouteOwnership.VerdictAt(Lookup(items, targets[0].id), targets[0], c),
                               RouteOwnership.VerdictAt(Lookup(items, targets[1].id), targets[1], c)])
  }

  lemma RoutesSettle(store: RouteStore, c: Cluster, enabled: bool, faults: Faults)
    requires FaultFree(faults) && RouteOwnership.WellFormed(store.items)
    ensures var targets := Routes.RouteTargets(c);
            var r := Routes.RoutesPass(store, store.items, c, targets, enabled, faults);
            && r.result == Ok(RoutesReportOn(r.store.items, c, enabled))
            && RouteOwnership.WellFormed(r.store.items)
            && (enabled ==> RouteOwnership.AllSettled(r.store.items, targets, c))
            && (!enabled || RouteOwnership.AllSettled(store.items, targets, c) ==> r.store == store)
  {
    var targets := Routes.RouteTargets(c);
    RouteOwnership.RouteTargetsDistinct(c);
    hide FaultFree, Routes.WalkTargets, Routes.Fold, RouteOwnership.VerdictAt, RouteOwnership.AllSettled,
      RouteOwnership.WellFormed, Routes.RouteTargets;
    RouteOwnership.FaultFreeWalk(store, c, targets, faults);
    var w := Routes.WalkTargets(store, store.items, c, targets, faults);
    TwoTargets(c);
    assert w.verdicts == [w.verdicts[0], w.verdicts[1]];
  }

  lemma TwoTargets(c: Cluster)
    ensures |Routes.RouteTargets(c)| == 2
  {
  }

  // ---------- A fresh reconcile ----------

  function PoolBatch(c: Cluster, p: Plan, i: Inputs): WorkerPool.Batch {
    WorkerPool.BatchOf(c, p.worker, p.lib, i.names, i.faults)
  }

  function SchedulerHash(p: Plan): string {
    p.lib.templateHash(p.scheduler)
  }

  /** The last version has a valid spec, of which `p` are the templates; every read is up to date, no call fails and
      every task runs; no third party uses the operator's names. */
  ghost predicate Fresh(w: World, i: Inputs, choice: Choice, p: Plan) {
    && w.history != [] && i.cache.cluster == Some(|w.history| - 1) && FaultFree(i.faults)
    && i.lib == p.lib && i.templates == Templates(Ok(p.worker), Ok(p.scheduler))
    && var c := Runs.Last(w);
       var b := PoolBatch(c, p, i);
       && VersionError(c, p.lib).None?
       && FreshPods(w.fleet.pods, i, c, b)
       && i.cache.services == w.services.items && ServiceLaws.Reads(w.services.items)
       && i.cache.routes == w.routes.items && RouteOwnership.WellFormed(w.routes.items)
       && Complete(choice.services, Services.SERVICE_COUNT)
       && Complete(choice.workers, WorkerPool.Missing(i.cache.workers, c, b.hash))
  }

  ghost predicate FreshPods(pods: Pods, i: Inputs, c: Cluster, b: WorkerPool.Batch) {
    && WellKeyed(pods) && SchedulerLaws.UpToDateRead(i.cache.scheduler, pods, c) && SchedulerIsNoWorker(pods, c)
    && UpToDate(i.cache.workers, pods, b) && FreshNames(pods, b) && NamesWorkers(i.names, c)
  }

  /** The pods once the scheduler stage is done. */
  ghost function AfterScheduler(w: World, i: Inputs, p: Plan): Scheduler.SchedulerOutcome
    requires w.history != []
  {
    Scheduler.SchedulerStep(w.fleet, i.cache.scheduler, Runs.Last(w), SchedulerHash(p), i.faults)
  }

  /** What the scheduler stage hands on: the same workers, in the same store. */
  lemma SchedulerHandsOn(fleet: Fleet, i: Inputs, c: Cluster, b: WorkerPool.Batch, hash: string)
    requires FaultFree(i.faults) && FreshPods(fleet.pods, i, c, b) && b.names == i.names && b.namespace == c.key.namespace
    ensures var s := Scheduler.SchedulerStep(fleet, i.cache.scheduler, c, hash, i.faults);
            && s.result.Ok?
            && SchedulerLaws.PhaseOf(s.fleet.pods, c, hash) ==
               SchedulerLaws.NextPhase(SchedulerLaws.PhaseOf(fleet.pods, c, hash))
            && (s.fleet.pods == fleet.pods <==>
                  SchedulerLaws.PhaseOf(fleet.pods, c, hash) in {SchedulerLaws.Terminating, SchedulerLaws.UpToDate})
            && WellKeyed(s.fleet.pods) && SchedulerIsNoWorker(s.fleet.pods, c)
            && UpToDate(i.cache.workers, s.fleet.pods, b) && FreshNames(s.fleet.pods, b)
            && Current(s.fleet.pods, b) == Current(fleet.pods, b) && Stale(s.fleet.pods, b) == Stale(fleet.pods, b)
  {
    hide Scheduler.SchedulerStep, UpToDate, Current, Stale, FreshNames, WellKeyed, SchedulerIsNoWorker, FaultFree,
      NamesWorkers, SchedulerLaws.UpToDateRead, SchedulerLaws.PhaseOf, SchedulerLaws.NextPhase, WorkersUntouched;
    SchedulerLaws.PhaseStep(fleet, i.cache.scheduler, c, hash, i.faults);
    ReadIsNamed(i.cache.scheduler, fleet.pods, c);
    SchedulerStepTouchesNoWorker(fleet, i.cache.scheduler, c, hash, i.faults);
    var after := Scheduler.SchedulerStep(fleet, i.cache.scheduler, c, hash, i.faults).fleet.pods;
    UntouchedWorkers(fleet.pods, after, c, b, i.cache.workers);
    UntouchedStale(fleet.pods, after, c, b);
  }

  lemma ReadIsNamed(cached: Option<Pod>, pods: Pods, c: Cluster)
    requires SchedulerLaws.UpToDateRead(cached, pods, c) && WellKeyed(pods)
    ensures SchedulerLaws.NamedRead(cached, c)
  {
  }

  lemma UntouchedStale(before: Pods, after: Pods, c: Cluster, b: WorkerPool.Batch)
    requires WorkersUntouched(before, after, c) && FreshNames(before, b) && NamesWorkers(b.names, c)
    requires b.namespace == c.key.namespace
    ensures Stale(after, b) == Stale(before, b) && FreshNames(after, b) && SchedulerIsNoWorker(after, c)
  {
    forall k ensures k in Stale(after, b) <==> k in Stale(before, b) {
      assert k != SchedulerPodKey(c) ==> Lookup(after, k) == Lookup(before, k);
    }
    forall j: nat ensures SlotKey(b, j) !in after {
      assert b.names(j) != SchedulerPodKey(c).name;
      assert Lookup(after, SlotKey(b, j)) == Lookup(before, SlotKey(b, j));
    }
  }

  /** The full outcome of the stages in a fresh reconcile. */
  lemma FreshGather(w: World, i: Inputs, choice: Choice, p: Plan)
    requires Fresh(w, i, choice, p)
    ensures WorkerPool.Schedule(choice.services, Services.SERVICE_COUNT)
    ensures var c := Runs.Last(w);
            var b := PoolBatch(c, p, i);
            var s := AfterScheduler(w, i, p);
            var r := WorkerPool.Resize(s.fleet, i.cache.workers, c, b, choice.workers);
            var services := Services.ServicesPass(w.services, w.services.items, c, choice.services, i.faults);
            var routes := Routes.RoutesPass(w.routes, w.routes.items, c, Routes.RouteTargets(c), i.gatewayAPIEnabled,
                                            i.faults);
            && s.result.Ok? && r.result.Ok? && routes.result.Ok?
            && Gather(w, c, i, choice) ==
               Gathered(w.(accounts := Services.AccountsPass(w.accounts, c, i.faults).accounts, fleet := r.fleet,
                           services := services.store, routes := routes.store),
                        Full(s.result.value, r.result.value, routes.result.value))
  {
    hide Services.ServicesPass, WorkerPool.Resize, Scheduler.SchedulerStep, Routes.RoutesPass, Services.AccountsPass,
      AccountsPresent, VersionError, ReportUnder, WorkerPool.Schedule, FreshPods, ServiceLaws.Reads,
      RouteOwnership.WellFormed, Complete, WorkerPool.Missing;
    var c := Runs.Last(w);
    var b := PoolBatch(c, p, i);
    ServicesSettle(w.services, c, choice.services, i.faults);
    RoutesSettle(w.routes, c, i.gatewayAPIEnabled, i.faults);
    AccountsAtRest(w.accounts, c, i.faults);
    SchedulerHandsOn(w.fleet, i, c, b, SchedulerHash(p));
    ResizeClosedForm(AfterScheduler(w, i, p).fleet, i.cache.workers, c, b, choice.workers);
  }
}
