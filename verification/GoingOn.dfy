/** A calm run never gets stuck: in every healthy world a fresh reconcile is possible, and it leads to a healthy world.
    So the hypotheses of the convergence theorems can always be met again. */
module GoingOn {
  import opened Kube
  import opened PolarsCluster
  import opened PodTemplates
  import opened ApiServer
  import opened Reconcile
  import opened Runs
  import opened WorkerPoolLaws
  import opened WorkerPoolTheorems
  import opened WorkerPoolExact
  import opened FleetRuns
  import opened FreshPass
  import opened Convergence
  import opened Quiescence
  import opened ConvergenceRuns
  import Scheduler
  import ServiceLaws
  import RouteOwnership
  import Services
  import Routes
  import WorkerPool

  /** A valid spec, objects stored under their own names, and a scheduler's name that is not a worker's. */
  ghost predicate Healthy(w: World, p: Plan) {
    && w.history != [] && VersionError(Last(w), p.lib).None?
    && WellKeyed(w.fleet.pods) && SchedulerIsNoWorker(w.fleet.pods, Last(w))
    && ServiceLaws.Reads(w.services.items) && RouteOwnership.WellFormed(w.routes.items)
  }

  // ---------- A fresh reconcile is possible ----------

  /** Some listing of the given pods. */
  lemma {:induction false} Enumerate(pods: Pods, keys: set<Key>) returns (listing: seq<Pod>)
    requires WellKeyed(pods) && keys <= pods.Keys
    ensures Keys(listing) == keys
    ensures forall i, j :: 0 <= i < j < |listing| ==> listing[i].key != listing[j].key
    ensures forall i :: 0 <= i < |listing| ==> listing[i].key in pods && pods[listing[i].key] == listing[i]
    decreases keys
  {
    if keys == {} {
      listing := [];
    } else {
      var k :| k in keys;
      var rest := Enumerate(pods, keys - {k});
      listing := rest + [pods[k]];
      assert listing[..|listing| - 1] == rest;
      KeysSnoc(listing);
      forall i | 0 <= i < |rest| ensures rest[i].key != k { assert rest[i].key in Keys(rest); }
    }
  }

  lemma ListingExists(pods: Pods, b: WorkerPool.Batch) returns (listing: seq<Pod>)
    requires WellKeyed(pods)
    ensures UpToDate(listing, pods, b)
  {
    var keys := set k | k in pods && Selected(pods[k], b);
    listing := Enumerate(pods, keys);
    forall i | 0 <= i < |listing| ensures Selected(listing[i], b) {
      assert listing[i].key in Keys(listing);
    }
  }

  function Stretched(n: nat): (r: string)
    ensures |r| == n
  {
    seq(n, _ => 'x')
  }

  lemma {:induction false} LongerThanAll(keys: set<Key>) returns (bound: nat)
    ensures forall k :: k in keys ==> |k.name| < bound
    decreases keys
  {
    bound := 0;
    if keys != {} {
      var k :| k in keys;
      var rest := LongerThanAll(keys - {k});
      bound := if rest > |k.name| then rest else |k.name| + 1;
    }
  }

  /** Names the server may pick: none taken, all distinct, none the scheduler's. */
  lemma NamesExist(pods: Pods, c: Cluster) returns (names: nat -> string)
    ensures NamesWorkers(names, c)
    ensures forall b: WorkerPool.Batch :: b.names == names ==> FreshNames(pods, b)
  {
    var bound := LongerThanAll(pods.Keys + {SchedulerPodKey(c)});
    names := (i: nat) => Stretched(bound + i);
    forall i: nat ensures |names(i)| == bound + i { assert names(i) == Stretched(bound + i); }
    forall b: WorkerPool.Batch | b.names == names ensures FreshNames(pods, b) {
      forall i: nat, j: nat ensures SlotKey(b, i) == SlotKey(b, j) ==> i == j {
        assert |names(i)| == bound + i && |names(j)| == bound + j;
      }
      forall i: nat ensures SlotKey(b, i) !in pods { assert |names(i)| == bound + i; }
    }
    assert SchedulerPodKey(c) in pods.Keys + {SchedulerPodKey(c)};
  }

  /** Reads that show everything as it is, and calls that succeed. */
  function Clear(w: World, listing: seq<Pod>, names: nat -> string, enabled: bool, p: Plan): Inputs
    requires w.history != []
  {
    var cache := Cache(Some(|w.history| - 1), Lookup(w.fleet.pods, SchedulerPodKey(Last(w))), listing, w.services.items,
                       w.routes.items);
    Inputs(cache, _ => None, names, p.lib, enabled, Templates(Ok(p.worker), Ok(p.scheduler)))
  }

  /** In a healthy world some reconcile is fresh. */
  lemma FreshIsPossible(w: World, enabled: bool, p: Plan) returns (i: Inputs, choice: Choice)
    requires Healthy(w, p)
    ensures Fresh(w, i, choice, p) && i.gatewayAPIEnabled == enabled
  {
    hide VersionError, ServiceLaws.Reads, RouteOwnership.WellFormed, UpToDate, NamesWorkers, FreshNames, Complete,
      WorkerPool.Missing;
    var c := Last(w);
    var names := NamesExist(w.fleet.pods, c);
    var b := WorkerPool.BatchOf(c, p.worker, p.lib, names, _ => None);
    var listing := ListingExists(w.fleet.pods, b);
    i := Clear(w, listing, names, enabled, p);
    SamePoolAgrees(PoolBatch(c, p, i), b, w.fleet.pods);
    var missing := WorkerPool.Missing(listing, c, b.hash);
    CountIsComplete(Services.SERVICE_COUNT);
    CountIsComplete(missing);
    choice := Choice(Count(Services.SERVICE_COUNT), Count(missing));
  }

  // ---------- It leads to a healthy world ----------

  lemma ResizedIsWellKeyed(pods: Pods, listing: seq<Pod>, c: Cluster, b: WorkerPool.Batch)
    requires WellKeyed(pods)
    ensures WellKeyed(ResizedPods(pods, listing, c, b))
  {
  }

  lemma FreshIsHealthy(w: World, i: Inputs, choice: Choice, p: Plan)
    requires Fresh(w, i, choice, p)
    ensures Healthy(w, p)
  {
    hide VersionError, ServiceLaws.Reads, RouteOwnership.WellFormed, UpToDate, NamesWorkers, FreshNames, Complete,
      WorkerPool.Missing;
  }

  lemma PodsStayWellKeyed(w: World, i: Inputs, choice: Choice, p: Plan)
    requires Fresh(w, i, choice, p)
    ensures w.history != [] && WellKeyed(FreshPodsAfter(w, i, choice, p))
  {
    hide WorkerPool.Resize, Scheduler.SchedulerStep, ServiceLaws.Reads, RouteOwnership.WellFormed, Complete,
      WorkerPool.Missing, ResizedPods, WellKeyed, UpToDate, FreshNames, Current, Stale, VersionError, NamesWorkers;
    var c := Last(w);
    var b := PoolBatch(c, p, i);
    SchedulerHandsOn(w.fleet, i, c, b, SchedulerHash(p));
    var s := AfterScheduler(w, i, p).fleet;
    ResizeClosedForm(s, i.cache.workers, c, b, choice.workers);
    ResizedIsWellKeyed(s.pods, i.cache.workers, c, b);
  }

  lemma GatherStaysHealthy(w: World, i: Inputs, choice: Choice, p: Plan)
    requires Fresh(w, i, choice, p)
    ensures w.history != [] && WorkerPool.Schedule(choice.services, Services.SERVICE_COUNT)
    ensures var g := Gather(w, Last(w), i, choice).world;
            ServiceLaws.Reads(g.services.items) && RouteOwnership.WellFormed(g.routes.items)
  {
    hide Gather, Services.ServicesPass, Routes.RoutesPass, WorkerPool.Resize, Scheduler.SchedulerStep,
      Services.AccountsPass, ServiceLaws.Reads, RouteOwnership.WellFormed, Complete, WorkerPool.Schedule,
      WorkerPool.Missing, FreshPods, FaultFree, VersionError;
    FreshGather(w, i, choice, p);
    ServicesSettle(w.services, Last(w), choice.services, i.faults);
    RoutesSettle(w.routes, Last(w), i.gatewayAPIEnabled, i.faults);
  }

  /** A fresh reconcile leaves a healthy world. */
  lemma HealthIsKept(w: World, i: Inputs, choice: Choice, p: Plan)
    requires Fresh(w, i, choice, p)
    ensures Healthy(NextWorld(w, i, choice, p), p)
  {
    hide Gather, Conclude, NextWorld, FullStatus, Fresh, WorkerPool.Schedule, FaultFree, FreshPodsAfter, WellKeyed,
      ServiceLaws.Reads, RouteOwnership.WellFormed;
    FreshListing(w, i, choice, p);
    FreshIsHealthy(w, i, choice, p);
    FreshReconcile(w, i, choice, p);
    NextPods(w, i, choice, p);
    FreshPassReaches(w, i, choice, p);
    PodsStayWellKeyed(w, i, choice, p);
    GatherStaysHealthy(w, i, choice, p);
    var g := Gather(w, Last(w), i, choice);
    FreshConclude(g.world, Last(w), g.findings, i.faults);
  }

  // ---------- Runs go on ----------

  lemma FreshIsStep(w: World, i: Inputs, choice: Choice, p: Plan)
    requires Fresh(w, i, choice, p)
    ensures Step(w, Pass(i, choice), NextWorld(w, i, choice, p))
  {
    hide ServiceLaws.Reads, RouteOwnership.WellFormed, WorkerPool.Missing, FreshPods, VersionError, ReconcileOnce;
    FreshIsAllowed(w, i, choice, p);
  }

  /** A calm run that ends in a healthy world can be continued by a reconcile, and then ends in a healthy world
      again. */
  lemma CalmRunsGoOn(worlds: seq<World>, actions: seq<Action>, c: Cluster, enabled: bool, p: Plan)
    returns (a: Action, v: World)
    requires CalmRun(worlds, actions, c, p) && Healthy(worlds[|actions|], p)
    ensures CalmRun(worlds + [v], actions + [a], c, p) && a.Pass? && Healthy(v, p)
  {
    hide Healthy, Fresh, NextWorld, ReconcileOnce, HasSpec, Step;
    var w := worlds[|actions|];
    var i, choice := FreshIsPossible(w, enabled, p);
    a, v := Pass(i, choice), NextWorld(w, i, choice, p);
    HealthIsKept(w, i, choice, p);
    FreshIsStep(w, i, choice, p);
    var longer, done := worlds + [v], actions + [a];
    forall k | 0 <= k < |done|
      ensures Step(longer[k], done[k], longer[k + 1]) && CalmStep(longer[k], done[k], longer[k + 1], c, p)
    {
      if k < |actions| {
        assert longer[k] == worlds[k] && longer[k + 1] == worlds[k + 1] && done[k] == actions[k];
      }
    }
  }

  /** And one can begin with any new resource that has a valid spec. */
  lemma CalmRunsBegin(c: Cluster, p: Plan)
    requires VersionError(c, p.lib).None?
    ensures CalmRun([NewWorld(c)], [], c, p) && Healthy(NewWorld(c), p)
  {
    hide VersionError, Step, CalmStep;
  }
}
