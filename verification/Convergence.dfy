/** Convergence: with up-to-date reads and no failures a measure over the pods drops with every reconcile that changes
    one, and two reconciles reach its zero. */
module Convergence {
  import opened Kube
  import opened PolarsCluster
  import opened PodTemplates
  import opened TemplateFrame
  import opened ApiServer
  import opened Reconcile
  import opened WorkerPoolLaws
  import opened WorkerPoolTheorems
  import opened WorkerPoolExact
  import opened FleetRuns
  import opened FreshPass
  import opened Runs
  import Scheduler
  import SchedulerLaws
  import WorkerPool
  import opened WorkerPoolReports
  import Services
  import ServiceLaws
  import Routes
  import RouteOwnership

  // ---------- The measure ----------

  function Pool(c: Cluster, p: Plan): WorkerPool.Batch {
    PoolOf(c, p.lib.templateHash(p.worker))
  }

  function Phase(pods: Pods, c: Cluster, p: Plan): SchedulerLaws.Phase {
    SchedulerLaws.PhaseOf(pods, c, SchedulerHash(p))
  }

  function Gap(a: nat, b: nat): nat {
    if a < b then b - a else a - b
  }

  /** Stale live workers, steps left for the scheduler, and how far the worker count is off. */
  ghost function Measure(pods: Pods, c: Cluster, p: Plan): nat {
    |Stale(pods, Pool(c, p))| + SchedulerLaws.Rank(Phase(pods, c, p)) + Gap(|Current(pods, Pool(c, p))|, Desired(c))
  }

  /** No stale worker, exactly the desired current ones, and a live scheduler of the current template. */
  ghost predicate Converged(pods: Pods, c: Cluster, p: Plan) {
    Settled(pods, c, Pool(c, p)) && Phase(pods, c, p) == SchedulerLaws.UpToDate
  }

  /** That is where the measure is zero. */
  lemma ZeroIsConverged(pods: Pods, c: Cluster, p: Plan)
    ensures Measure(pods, c, p) == 0 <==> Converged(pods, c, p)
  {
    EmptyIsZero(Stale(pods, Pool(c, p)));
  }

  lemma EmptyIsZero<T>(s: set<T>)
    ensures |s| == 0 <==> s == {}
  {
  }

  // ---------- One fresh reconcile ----------

  lemma PoolBatchAgrees(c: Cluster, p: Plan, i: Inputs, pods: Pods)
    ensures Current(pods, PoolBatch(c, p, i)) == Current(pods, Pool(c, p))
    ensures Stale(pods, PoolBatch(c, p, i)) == Stale(pods, Pool(c, p))
  {
    assert forall pod :: Selected(pod, PoolBatch(c, p, i)) <==> Selected(pod, Pool(c, p));
  }

  lemma ResizeLeavesScheduler(fleet: Fleet, listing: seq<Pod>, c: Cluster, b: WorkerPool.Batch, order: seq<nat>)
    requires UpToDate(listing, fleet.pods, b) && Distinct(order)
    requires NamesWorkers(b.names, c) && SchedulerIsNoWorker(fleet.pods, c)
    ensures Lookup(WorkerPool.Resize(fleet, listing, c, b, order).fleet.pods, SchedulerPodKey(c)) ==
            Lookup(fleet.pods, SchedulerPodKey(c))
  {
    hide WorkerPool.Resize, NamesWorkers, Listing;
    PassIsPoolOnly(fleet, listing, c, b, order);
    if SchedulerPodKey(c) !in fleet.pods {
      ResizeAvoids(fleet, listing, c, b, order);
    }
  }

  /** The pods after a fresh pass of both stages. */
  lemma StagesReach(fleet: Fleet, i: Inputs, c: Cluster, b: WorkerPool.Batch, hash: string, order: seq<nat>)
    requires FaultFree(i.faults) && FreshPods(fleet.pods, i, c, b)
    requires b.names == i.names && b.namespace == c.key.namespace && b.faults == i.faults
    requires Complete(order, WorkerPool.Missing(i.cache.workers, c, b.hash))
    ensures var s := Scheduler.SchedulerStep(fleet, i.cache.scheduler, c, hash, i.faults);
            var after := WorkerPool.Resize(s.fleet, i.cache.workers, c, b, order).fleet.pods;
            var phase := SchedulerLaws.PhaseOf(fleet.pods, c, hash);
            && |Current(after, b)| == Desired(c) && Stale(after, b) == {}
            && SchedulerLaws.PhaseOf(after, c, hash) == SchedulerLaws.NextPhase(phase)
            && SchedulerIsNoWorker(after, c)
            && ((Stale(fleet.pods, b) == {} && |Current(fleet.pods, b)| == Desired(c)
                 && phase in {SchedulerLaws.Terminating, SchedulerLaws.UpToDate}) ==> after == fleet.pods)
  {
    hide Scheduler.SchedulerStep, WorkerPool.Resize, WorkerPool.Missing, UpToDate, Current, Stale, FaultFree,
      NamesWorkers, FreshNames, OnlyPool, ResizedPods, ResizedActive, WorkerPool.ReportOn, WellKeyed;
    SchedulerHandsOn(fleet, i, c, b, hash);
    var s := Scheduler.SchedulerStep(fleet, i.cache.scheduler, c, hash, i.faults).fleet;
    CompleteRunsAll(order, WorkerPool.Missing(i.cache.workers, c, b.hash));
    PassMeetsSpec(s, i.cache.workers, c, b, order);
    ResizeLeavesScheduler(s, i.cache.workers, c, b, order);
    ResizeClosedForm(s, i.cache.workers, c, b, order);
    if Stale(s.pods, b) == {} && |Current(s.pods, b)| == Desired(c) {
      SettledPass(s.pods, i.cache.workers, c, b, Desired(c));
      NoNewPods(s.pods, b);
    }
  }

  lemma FreshIsAllowed(w: World, i: Inputs, choice: Choice, p: Plan)
    requires Fresh(w, i, choice, p)
    ensures w.history != [] && CachedVersion(w.history, i.cache)
    ensures WorkerPool.Schedule(choice.services, Services.SERVICE_COUNT)
  {
    hide FreshPods, ServiceLaws.Reads, RouteOwnership.WellFormed, WorkerPool.Missing;
    CompleteRunsAll(choice.services, Services.SERVICE_COUNT);
  }

  /** The world after a fresh reconcile. */
  ghost function NextWorld(w: World, i: Inputs, choice: Choice, p: Plan): World
    requires Fresh(w, i, choice, p)
  {
    FreshIsAllowed(w, i, choice, p);
    ReconcileOnce(w, i, choice).world
  }

  /** A fresh reconcile reaches the regular exit. */
  lemma FreshReconcile(w: World, i: Inputs, choice: Choice, p: Plan)
    requires Fresh(w, i, choice, p)
    ensures w.history != [] && WorkerPool.Schedule(choice.services, Services.SERVICE_COUNT)
    ensures var g := Gather(w, Last(w), i, choice);
            && g.findings.Full? && g.world.history == w.history
            && NextWorld(w, i, choice, p) == Conclude(g.world, |w.history| - 1, Last(w), g.findings, i.faults).world
            && g.world.fleet.pods == FreshPodsAfter(w, i, choice, p)
  {
    hide Gather, Conclude, Services.ServicesPass, Routes.RoutesPass, WorkerPool.Resize, Scheduler.SchedulerStep,
      Services.AccountsPass, FreshPods, ServiceLaws.Reads, RouteOwnership.WellFormed, Complete, WorkerPool.Schedule,
      WorkerPool.Missing;
    FreshGather(w, i, choice, p);
    GatherFindsSpecErrors(w, Last(w), i, choice);
  }

  ghost function FreshPodsAfter(w: World, i: Inputs, choice: Choice, p: Plan): Pods
    requires w.history != []
  {
    WorkerPool.Resize(AfterScheduler(w, i, p).fleet, i.cache.workers, Last(w), PoolBatch(Last(w), p, i),
                      choice.workers).fleet.pods
  }

  /** Nothing to do for the pods but wait for a terminating scheduler, if there is one. */
  ghost predicate AtRest(pods: Pods, c: Cluster, p: Plan) {
    && Stale(pods, Pool(c, p)) == {} && |Current(pods, Pool(c, p))| == Desired(c)
    && Phase(pods, c, p) in {SchedulerLaws.Terminating, SchedulerLaws.UpToDate}
  }

  /** The pods after a fresh reconcile: exactly the desired workers, none of them stale, and the scheduler one phase on.
      The pods are untouched exactly when they were at rest. */
  lemma FreshPassReaches(w: World, i: Inputs, choice: Choice, p: Plan)
    requires Fresh(w, i, choice, p)
    ensures var c, after := Last(w), FreshPodsAfter(w, i, choice, p);
            && |Current(after, Pool(c, p))| == Desired(c) && Stale(after, Pool(c, p)) == {}
            && Phase(after, c, p) == SchedulerLaws.NextPhase(Phase(w.fleet.pods, c, p))
            && (after == w.fleet.pods <==> AtRest(w.fleet.pods, c, p))
            && SchedulerIsNoWorker(after, c)
  {
    hide WorkerPool.Resize, Scheduler.SchedulerStep, FreshPods, ServiceLaws.Reads, RouteOwnership.WellFormed, Complete,
      WorkerPool.Missing, Current, Stale, VersionError;
    var c := Last(w);
    var b := PoolBatch(c, p, i);
    StagesReach(w.fleet, i, c, b, SchedulerHash(p), choice.workers);
    PoolBatchAgrees(c, p, i, w.fleet.pods);
    PoolBatchAgrees(c, p, i, FreshPodsAfter(w, i, choice, p));
  }

  lemma NextPods(w: World, i: Inputs, choice: Choice, p: Plan)
    requires Fresh(w, i, choice, p)
    ensures w.history != [] && NextWorld(w, i, choice, p).fleet.pods == FreshPodsAfter(w, i, choice, p)
  {
    hide Gather, Conclude, NextWorld, Fresh, WorkerPool.Schedule;
    FreshReconcile(w, i, choice, p);
    var g := Gather(w, Last(w), i, choice);
    ConcludeFleet(g.world, |w.history| - 1, Last(w), g.findings, i.faults);
  }

  // ---------- The theorems ----------

  /** The measure drops with every fresh reconcile that changes a pod; it is then what the scheduler still has to go. A
      reconcile that changes none finds the pods at rest: the measure is zero, or only a terminating scheduler is
      left. */
  lemma MeasureDrops(w: World, i: Inputs, choice: Choice, p: Plan)
    requires Fresh(w, i, choice, p)
    ensures var c, before, after := Last(w), w.fleet.pods, NextWorld(w, i, choice, p).fleet.pods;
            && Measure(after, c, p) == SchedulerLaws.Rank(SchedulerLaws.NextPhase(Phase(before, c, p)))
            && (after != before ==> Measure(after, c, p) < Measure(before, c, p))
            && (after == before <==> Measure(before, c, p) == 0
                                     || (Phase(before, c, p) == SchedulerLaws.Terminating && Measure(before, c, p) == 2))
  {
    hide Fresh, FreshPodsAfter, NextWorld, Current, Stale, Phase;
    NextPods(w, i, choice, p);
    FreshPassReaches(w, i, choice, p);
    EmptyIsZero(Stale(w.fleet.pods, Pool(Last(w), p)));
  }

  // ---------- The environment's steps ----------

  /** A pod of this cluster: its scheduler or one of its workers. */
  predicate Concerns(pods: Pods, k: Key, c: Cluster, p: Plan) {
    k in pods && (k == SchedulerPodKey(c) || Selected(pods[k], Pool(c, p)))
  }

  /** What the environment does to the cluster's pods without a third party taking part: terminating pods go, and the
      others keep key, labels and deletion timestamp while their conditions and containers change. Other pods may come,
      go and change in any way. */
  ghost predicate Benign(before: Pods, after: Pods, c: Cluster, p: Plan) {
    && (forall k :: Concerns(after, k, c, p) ==>
          && Concerns(before, k, c, p)
          && after[k].key == before[k].key && after[k].labels == before[k].labels
          && after[k].terminating == before[k].terminating)
    && (forall k :: Concerns(before, k, c, p) && !Concerns(after, k, c, p) ==> before[k].terminating)
  }

  /** Such a step leaves the live workers as they are and never raises the measure; it lowers it by one exactly when the
      terminating scheduler goes. */
  lemma BenignStep(before: Pods, after: Pods, c: Cluster, p: Plan)
    requires Benign(before, after, c, p)
    ensures Current(after, Pool(c, p)) == Current(before, Pool(c, p))
    ensures Stale(after, Pool(c, p)) == Stale(before, Pool(c, p))
    ensures var was, now := Phase(before, c, p), Phase(after, c, p);
            && (now == was || (was == SchedulerLaws.Terminating && now == SchedulerLaws.Absent))
            && Measure(after, c, p) == Measure(before, c, p) - if now == was then 0 else 1
  {
    forall k ensures k in Current(after, Pool(c, p)) <==> k in Current(before, Pool(c, p)) {
      assert Concerns(after, k, c, p) || Concerns(before, k, c, p) || true;
    }
    forall k ensures k in Stale(after, Pool(c, p)) <==> k in Stale(before, Pool(c, p)) {
      assert Concerns(after, k, c, p) || Concerns(before, k, c, p) || true;
    }
    assert Concerns(after, SchedulerPodKey(c), c, p) <==> SchedulerPodKey(c) in after;
  }

  // ---------- How many reconciles it takes ----------

  /** A fresh reconcile that finds no scheduler on its way out converges. */
  lemma OneReconcileSuffices(w: World, i: Inputs, choice: Choice, p: Plan)
    requires Fresh(w, i, choice, p) && Phase(w.fleet.pods, Last(w), p) in {SchedulerLaws.Absent, SchedulerLaws.UpToDate}
    ensures Converged(NextWorld(w, i, choice, p).fleet.pods, Last(w), p)
  {
    hide Fresh, FreshPodsAfter, NextWorld, Current, Stale;
    NextPods(w, i, choice, p);
    FreshPassReaches(w, i, choice, p);
  }

  lemma ConvergedFollowsSpec(pods: Pods, c: Cluster, d: Cluster, p: Plan)
    requires SameSpec(c, d)
    ensures Converged(pods, c, p) == Converged(pods, d, p) && Measure(pods, c, p) == Measure(pods, d, p)
    ensures Phase(pods, c, p) == Phase(pods, d, p)
  {
    assert Pool(c, p) == Pool(d, p);
  }

  /** Two fresh reconciles converge from any state of the pods, with any benign step between them after which no
      scheduler is on its way out. */
  lemma TwoReconcilesSuffice(w: World, i: Inputs, choice: Choice, u: World, j: Inputs, next: Choice, p: Plan)
    requires Fresh(w, i, choice, p) && Fresh(u, j, next, p) && SameSpec(Last(w), Last(u))
    requires Benign(NextWorld(w, i, choice, p).fleet.pods, u.fleet.pods, Last(w), p)
    requires Phase(u.fleet.pods, Last(u), p) != SchedulerLaws.Terminating
    ensures Converged(NextWorld(u, j, next, p).fleet.pods, Last(u), p)
  {
    hide Fresh, FreshPodsAfter, NextWorld, Current, Stale, Converged, Benign, Measure, Phase;
    NextPods(w, i, choice, p);
    NextPods(u, j, next, p);
    FreshPassReaches(w, i, choice, p);
    BenignStep(NextWorld(w, i, choice, p).fleet.pods, u.fleet.pods, Last(w), p);
    ConvergedFollowsSpec(u.fleet.pods, Last(w), Last(u), p);
    OneReconcileSuffices(u, j, next, p);
  }

  // ---------- A new cluster ----------

  function Count(n: nat): (r: seq<nat>)
    ensures |r| == n && forall k :: 0 <= k < n ==> r[k] == k
  {
    if n == 0 then [] else Count(n - 1) + [n - 1]
  }

  lemma {:induction false} CountIsComplete(n: nat)
    ensures Complete(Count(n), n)
  {
    forall k: nat ensures k in Elements(Count(n)) <==> k in Below(n) {
      if k < n { assert Count(n)[k] == k; }
    }
  }

  /** A world with nothing in it but the resource. */
  function NewWorld(c: Cluster): World {
    World([c], Fleet(map[], [], []), {}, Versioned(map[], 0), Versioned(map[], 0))
  }

  function NewInputs(p: Plan, names: nat -> string, enabled: bool): Inputs {
    Inputs(Cache(Some(0), None, [], map[], map[]), _ => None, names, p.lib, enabled,
           Templates(Ok(p.worker), Ok(p.scheduler)))
  }

  /** The server picks distinct names for the workers, none of them the scheduler's. */
  ghost predicate DistinctNames(names: nat -> string, c: Cluster) {
    NamesWorkers(names, c) && forall k: nat, l: nat :: names(k) == names(l) ==> k == l
  }

  lemma NewPodsAreFresh(c: Cluster, p: Plan, names: nat -> string, enabled: bool)
    requires DistinctNames(names, c)
    ensures var i := NewInputs(p, names, enabled); FreshPods(map[], i, c, PoolBatch(c, p, i))
    ensures FaultFree(NewInputs(p, names, enabled).faults)
  {
    var b := PoolBatch(c, p, NewInputs(p, names, enabled));
    forall k: nat, l: nat ensures SlotKey(b, k) == SlotKey(b, l) ==> k == l {
      assert names(k) == names(l) ==> k == l;
    }
  }

  lemma NothingListed(c: Cluster, hash: string)
    ensures WorkerPool.Missing([], c, hash) == Desired(c)
  {
  }

  lemma NewIsFresh(c: Cluster, p: Plan, names: nat -> string, enabled: bool)
    requires VersionError(c, p.lib).None? && DistinctNames(names, c)
    ensures Fresh(NewWorld(c), NewInputs(p, names, enabled), Choice(Count(Services.SERVICE_COUNT), Count(Desired(c))), p)
  {
    hide VersionError, FreshPods, FaultFree, Complete, Count, WorkerPool.Missing, DistinctNames;
    NewPodsAreFresh(c, p, names, enabled);
    CountIsComplete(Services.SERVICE_COUNT);
    CountIsComplete(Desired(c));
    NothingListed(c, PoolBatch(c, p, NewInputs(p, names, enabled)).hash);
  }

  /** The first fault-free reconcile of a new resource with a valid spec converges: the current scheduler and
      exactly the desired workers. */
  lemma FirstReconcileSuffices(c: Cluster, p: Plan, names: nat -> string, enabled: bool)
    requires VersionError(c, p.lib).None? && DistinctNames(names, c)
    ensures var w, i := NewWorld(c), NewInputs(p, names, enabled);
            var choice := Choice(Count(Services.SERVICE_COUNT), Count(Desired(c)));
            && Fresh(w, i, choice, p)
            && Converged(NextWorld(w, i, choice, p).fleet.pods, c, p)
  {
    hide Fresh, NextWorld, VersionError, NewInputs, Count, DistinctNames, Converged;
    NewIsFresh(c, p, names, enabled);
    var w, i := NewWorld(c), NewInputs(p, names, enabled);
    var choice := Choice(Count(Services.SERVICE_COUNT), Count(Desired(c)));
    OneReconcileSuffices(w, i, choice, p);
  }
}
