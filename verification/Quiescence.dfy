/** Once the pods have converged, one fresh reconcile settles everything else, and the next one changes nothing, except
    for a message that depends on the order in which the workers are listed. */
module Quiescence {
  import opened Kube
  import opened Errors
  import opened PolarsCluster
  import opened PodTemplates
  import opened TemplateFrame
  import opened ApiServer
  import opened Conditions
  import opened Reconcile
  import opened WorkerPoolLaws
  import opened WorkerPoolTheorems
  import opened WorkerPoolExact
  import opened FleetRuns
  import opened FreshPass
  import opened Runs
  import opened Convergence
  import opened Readiness
  import opened ListingOrder
  import StatusLaws
  import Scheduler
  import SchedulerLaws
  import WorkerPool
  import opened WorkerPoolReports
  import Services
  import ServiceLaws
  import Routes
  import RouteOwnership

  // ---------- Each stage at rest ----------

  lemma {:induction false} SiftNothing(fleet: Fleet, listing: seq<Pod>, hash: string, faults: Faults)
    requires forall j :: 0 <= j < |listing| ==> listing[j].terminating || listing[j].labels.templateHash == hash
    ensures WorkerPool.Sift(fleet, listing, hash, faults) ==
            WorkerPool.Sifted(fleet, WorkerPool.Actives(listing, hash), None)
  {
    if listing != [] {
      SiftNothing(fleet, listing[..|listing| - 1], hash, faults);
    }
  }

  /** On a settled pool the worker stage makes no call, so nothing it could fail at; it reports on the active
      workers. */
  lemma WorkersAtRest(fleet: Fleet, listing: seq<Pod>, c: Cluster, b: WorkerPool.Batch, order: seq<nat>)
    requires UpToDate(listing, fleet.pods, b) && Settled(fleet.pods, c, b)
    ensures WorkerPool.Resize(fleet, listing, c, b, order) ==
            WorkerPool.WorkerOutcome(fleet, Ok(WorkerPool.ReportOn(c, WorkerPool.Actives(listing, b.hash))))
  {
    hide WorkerPool.ReportOn, WorkerPool.Sift, WorkerPool.Actives, Listing, Current, WorkerPool.Grow;
    forall j | 0 <= j < |listing| ensures listing[j].terminating || listing[j].labels.templateHash == b.hash {
      NotStale(listing, fleet.pods, b, j);
    }
    SiftNothing(fleet, listing, b.hash, b.faults);
    SiftHandsOn(fleet, listing, b);
    var active := WorkerPool.Actives(listing, b.hash);
    assert active[..0] == [] && active[0..] == active;
  }

  lemma NotStale(listing: seq<Pod>, pods: Pods, b: WorkerPool.Batch, j: nat)
    requires UpToDate(listing, pods, b) && Stale(pods, b) == {} && j < |listing|
    ensures listing[j].terminating || listing[j].labels.templateHash == b.hash
  {
    assert listing[j].key !in Stale(pods, b);
  }

  lemma SchedulerAtRest(fleet: Fleet, cached: Option<Pod>, c: Cluster, hash: string, faults: Faults)
    requires SchedulerLaws.UpToDateRead(cached, fleet.pods, c) && FaultFree(faults)
    requires SchedulerLaws.PhaseOf(fleet.pods, c, hash) == SchedulerLaws.UpToDate
    ensures SchedulerPodKey(c) in fleet.pods
    ensures Scheduler.SchedulerStep(fleet, cached, c, hash, faults) ==
            Scheduler.SchedulerOutcome(fleet, Ok(Scheduler.Observed(fleet.pods[SchedulerPodKey(c)])))
  {
  }

  // ---------- All stages at rest ----------

  /** Accounts, services and routes as the spec asks. */
  ghost predicate Furnished(w: World, c: Cluster, enabled: bool) {
    && AccountsPresent(w.accounts, c)
    && ServiceLaws.AllPresent(w.services.items, c)
    && (enabled ==> RouteOwnership.AllSettled(w.routes.items, Routes.RouteTargets(c), c))
  }

  /** What the stages observe on a world at rest. */
  ghost function Observed(w: World, c: Cluster, listing: seq<Pod>, hash: string, enabled: bool): Findings
    requires SchedulerPodKey(c) in w.fleet.pods
  {
    Full(Scheduler.Observed(w.fleet.pods[SchedulerPodKey(c)]),
         WorkerPool.ReportOn(c, WorkerPool.Actives(listing, hash)),
         RoutesReportOn(w.routes.items, c, enabled))
  }

  /** On converged pods a fresh reconcile leaves pods, writes and events of the stages alone and furnishes the rest; on
      a furnished world it changes nothing before the status. */
  lemma GatherAtRest(w: World, i: Inputs, choice: Choice, p: Plan)
    requires Fresh(w, i, choice, p) && Converged(w.fleet.pods, Last(w), p)
    ensures w.history != [] && WorkerPool.Schedule(choice.services, Services.SERVICE_COUNT)
    ensures var c := Last(w);
            var g := Gather(w, c, i, choice);
            && SchedulerPodKey(c) in w.fleet.pods
            && g.world.fleet == w.fleet && g.world.history == w.history
            && g.findings == Observed(g.world, c, i.cache.workers, PoolBatch(c, p, i).hash, i.gatewayAPIEnabled)
            && Furnished(g.world, c, i.gatewayAPIEnabled)
            && (Furnished(w, c, i.gatewayAPIEnabled) ==> g.world == w)
  {
    hide Gather, Services.ServicesPass, Routes.RoutesPass, WorkerPool.Resize, Scheduler.SchedulerStep,
      Services.AccountsPass, ServiceLaws.Reads, RouteOwnership.WellFormed, Complete, WorkerPool.Schedule,
      WorkerPool.Missing, UpToDate, Current, Stale, WellKeyed, FreshNames, NamesWorkers, FaultFree,
      WorkerPool.ReportOn, RoutesReportOn, AccountsPresent, ServiceLaws.AllPresent, RouteOwnership.AllSettled,
      VersionError, SchedulerLaws.UpToDateRead;
    var c := Last(w);
    var b := PoolBatch(c, p, i);
    FreshGather(w, i, choice, p);
    ServicesSettle(w.services, c, choice.services, i.faults);
    RoutesSettle(w.routes, c, i.gatewayAPIEnabled, i.faults);
    AccountsAtRest(w.accounts, c, i.faults);
    ConvergedIsSettled(w.fleet.pods, c, p, i);
    SchedulerAtRest(w.fleet, i.cache.scheduler, c, SchedulerHash(p), i.faults);
    WorkersAtRest(w.fleet, i.cache.workers, c, b, choice.workers);
  }

  lemma ConvergedIsSettled(pods: Pods, c: Cluster, p: Plan, i: Inputs)
    requires Converged(pods, c, p)
    ensures Settled(pods, c, PoolBatch(c, p, i))
  {
    PoolBatchAgrees(c, p, i, pods);
  }

  // ---------- The status does not matter to the stages ----------

  lemma ServicesIgnoreStatus(items: map<Key, Service>, c: Cluster, status: Status)
    ensures ServiceLaws.AllPresent(items, c.(status := status)) == ServiceLaws.AllPresent(items, c)
  {
    var d := c.(status := status);
    forall k | 0 <= k < Services.SERVICE_COUNT
      ensures ServiceLaws.Present(items, k, d) == ServiceLaws.Present(items, k, c)
    {
      assert Services.Targets(d) == Services.Targets(c);
    }
  }

  lemma RoutesIgnoreStatus(items: map<RouteKey, Route>, c: Cluster, status: Status, enabled: bool)
    ensures var d := c.(status := status);
            && Routes.RouteTargets(d) == Routes.RouteTargets(c)
            && RouteOwnership.AllSettled(items, Routes.RouteTargets(c), d) ==
               RouteOwnership.AllSettled(items, Routes.RouteTargets(c), c)
            && RoutesReportOn(items, d, enabled) == RoutesReportOn(items, c, enabled)
  {
    hide Routes.RouteAccepted, Text, Routes.Fold;
    var d := c.(status := status);
    assert SchedulerObjectLabels(d) == SchedulerObjectLabels(c);
    forall k | 0 <= k < |Routes.RouteTargets(c)|
      ensures var t := Routes.RouteTargets(c)[k];
              && RouteOwnership.SettledAt(Lookup(items, t.id), t, d) == RouteOwnership.SettledAt(Lookup(items, t.id), t, c)
              && RouteOwnership.VerdictAt(Lookup(items, t.id), t, d) == RouteOwnership.VerdictAt(Lookup(items, t.id), t, c)
    {
    }
  }

  lemma RestIgnoresStatus(w: World, c: Cluster, status: Status, listing: seq<Pod>, hash: string, enabled: bool, p: Plan)
    requires SchedulerPodKey(c) in w.fleet.pods
    ensures var d := c.(status := status);
            && Furnished(w, d, enabled) == Furnished(w, c, enabled)
            && Observed(w, d, listing, hash, enabled) == Observed(w, c, listing, hash, enabled)
            && Converged(w.fleet.pods, d, p) == Converged(w.fleet.pods, c, p)
  {
    hide ServiceLaws.AllPresent, RouteOwnership.AllSettled, RoutesReportOn, Scheduler.Observed, WorkerPool.CountReady,
      WorkerPool.FirstNotReady, PodNotReadyMessage, WorkerPool.ToInt32, FormatInt, WorkerPool.Actives;
    ServicesIgnoreStatus(w.services.items, c, status);
    RoutesIgnoreStatus(w.routes.items, c, status, enabled);
    var d := c.(status := status);
    var active := WorkerPool.Actives(listing, hash);
    assert WorkerPool.ReportOn(d, active) == WorkerPool.ReportOn(c, active);
    assert AccountsPresent(w.accounts, d) == AccountsPresent(w.accounts, c);
    assert Pool(d, p) == Pool(c, p);
    assert Phase(w.fleet.pods, d, p) == Phase(w.fleet.pods, c, p);
  }

  // ---------- The whole world stands still ----------

  /** What the regular exit does when nothing fails: the status asked for is the last one persisted. */
  lemma FreshConclude(g: World, c: Cluster, f: Findings, faults: Faults)
    requires g.history != [] && c == Last(g) && f.Full? && FaultFree(faults)
    ensures var v := Conclude(g, |g.history| - 1, c, f, faults).world;
            var status := FullStatus(c, f.observed, f.workers, f.routes);
            && v.history != [] && Last(v) == c.(status := status)
            && v.fleet.pods == g.fleet.pods && v.fleet.writes == g.fleet.writes
            && v.accounts == g.accounts && v.services == g.services && v.routes == g.routes
            && (status == c.status <==> v.history == g.history)
            && (StatusLaws.Holds(status, READY) == StatusLaws.Holds(c.status, READY) ==> v == g.(history := v.history))
  {
    hide FullStatus, ReadyMessage, Find;
  }

  /** The status a second reconcile asks for when only the message about the workers may differ: it is the one persisted
      exactly when the message is the same, and readiness is the same in any case. */
  lemma SecondStatus(c: Cluster, s: Scheduler.Observation, r: WorkerPool.Report, again: WorkerPool.Report,
                     routes: Routes.RoutesReport)
    requires r.status == again.status
    requires (r.message == "" <==> PoolReady(c, r.status)) && (again.message == "" <==> PoolReady(c, r.status))
    ensures var d := c.(status := FullStatus(c, s, r, routes));
            var status := FullStatus(d, s, again, routes);
            && (status == d.status <==> again.message == r.message)
            && StatusLaws.Holds(status, READY) == StatusLaws.Holds(d.status, READY)
  {
    hide Find, FullStatus;
    var d := c.(status := FullStatus(c, s, r, routes));
    StatusLaws.FullConditions(c, s, r, routes);
    StatusLaws.FullConditions(d, s, again, routes);
    if again.message == r.message {
      assert again == r;
      StatusLaws.FullStatusIdempotent(c, s, r, routes);
    }
  }

  /** What a settled pool says about itself, given a listing. */
  function WorkerMessage(c: Cluster, listing: seq<Pod>, p: Plan): string {
    WorkerPool.ReportOn(c, WorkerPool.Actives(listing, p.lib.templateHash(p.worker))).message
  }

  /** Two up-to-date listings of a settled pool: equal counts, and a message exactly when not all workers are Ready. */
  lemma TwoReports(pods: Pods, c: Cluster, p: Plan, i: Inputs, j: Inputs)
    requires Converged(pods, c, p)
    requires UpToDate(i.cache.workers, pods, PoolBatch(c, p, i)) && UpToDate(j.cache.workers, pods, PoolBatch(c, p, j))
    ensures var r := WorkerPool.ReportOn(c, WorkerPool.Actives(i.cache.workers, p.lib.templateHash(p.worker)));
            var again := WorkerPool.ReportOn(c, WorkerPool.Actives(j.cache.workers, p.lib.templateHash(p.worker)));
            && r.status == again.status
            && (r.message == "" <==> PoolReady(c, r.status)) && (again.message == "" <==> PoolReady(c, r.status))
  {
    hide UpToDate, WorkerPool.Actives, WorkerPool.ReportOn, WorkerPool.CountReady, Current, Stale;
    var b := PoolBatch(c, p, i);
    ConvergedIsSettled(pods, c, p, i);
    SamePoolAgrees(PoolBatch(c, p, j), b, pods);
    CountsIgnoreOrder(i.cache.workers, j.cache.workers, pods, c, b);
    ActivesStored(i.cache.workers, pods, b);
    ActivesStored(j.cache.workers, pods, b);
    ReportTruth(c, WorkerPool.Actives(i.cache.workers, b.hash));
    ReportTruth(c, WorkerPool.Actives(j.cache.workers, b.hash));
  }

  /** Quiescence, exactly. From a world with converged pods one fresh reconcile leads to a world of which the next fresh
      one changes at most the status: no pod, service, route or account is written and no event recorded. It leaves even
      the status as it is exactly when its listing makes the pool say the same as the first one's. */
  lemma StandsStill(w: World, i: Inputs, choice: Choice, j: Inputs, next: Choice, p: Plan)
    requires Fresh(w, i, choice, p) && Converged(w.fleet.pods, Last(w), p)
    requires Fresh(NextWorld(w, i, choice, p), j, next, p) && j.gatewayAPIEnabled == i.gatewayAPIEnabled
    ensures var v := NextWorld(w, i, choice, p);
            var u := NextWorld(v, j, next, p);
            && u == v.(history := u.history)
            && (u == v <==> WorkerMessage(Last(w), j.cache.workers, p) == WorkerMessage(Last(w), i.cache.workers, p))
  {
    hide NextWorld, Gather, Conclude, Converged, Furnished, Observed, FullStatus, Fresh, WorkerPool.Schedule, FaultFree,
      UpToDate, WorkerMessage, FreshPodsAfter;
    FreshListing(w, i, choice, p);
    FreshListing(NextWorld(w, i, choice, p), j, next, p);
    var v, c := NextWorld(w, i, choice, p), Last(w);
    FreshReconcile(w, i, choice, p);
    GatherAtRest(w, i, choice, p);
    var g := Gather(w, c, i, choice);
    FreshConclude(g.world, c, g.findings, i.faults);
    SecondPass(w, v, i, j, next, p, g);
  }

  lemma FreshListing(w: World, i: Inputs, choice: Choice, p: Plan)
    requires Fresh(w, i, choice, p)
    ensures w.history != [] && FaultFree(i.faults)
    ensures UpToDate(i.cache.workers, w.fleet.pods, PoolBatch(Last(w), p, i))
  {
    hide ServiceLaws.Reads, RouteOwnership.WellFormed, Complete, WorkerPool.Missing, UpToDate, FreshNames, NamesWorkers;
  }

  lemma SecondPass(w: World, v: World, i: Inputs, j: Inputs, next: Choice, p: Plan, g: Gathered)
    requires w.history != [] && v.history != [] && Converged(w.fleet.pods, Last(w), p)
    requires SchedulerPodKey(Last(w)) in w.fleet.pods && g.world.fleet.pods == w.fleet.pods
    requires g.findings == Observed(g.world, Last(w), i.cache.workers, p.lib.templateHash(p.worker), i.gatewayAPIEnabled)
    requires Furnished(g.world, Last(w), i.gatewayAPIEnabled)
    requires Last(v) == Last(w).(status := FullStatus(Last(w), g.findings.observed, g.findings.workers, g.findings.routes))
    requires v.fleet.pods == g.world.fleet.pods && v.accounts == g.world.accounts
    requires v.services == g.world.services && v.routes == g.world.routes
    requires Fresh(v, j, next, p) && j.gatewayAPIEnabled == i.gatewayAPIEnabled
    requires UpToDate(i.cache.workers, w.fleet.pods, PoolBatch(Last(w), p, i))
    requires UpToDate(j.cache.workers, v.fleet.pods, PoolBatch(Last(v), p, j)) && FaultFree(j.faults)
    ensures var u := NextWorld(v, j, next, p);
            && u == v.(history := u.history)
            && (u == v <==> WorkerMessage(Last(w), j.cache.workers, p) == WorkerMessage(Last(w), i.cache.workers, p))
  {
    hide NextWorld, Gather, Conclude, Converged, FullStatus, Fresh, UpToDate, WorkerPool.Schedule, FaultFree,
      AccountsPresent, ServiceLaws.AllPresent, RouteOwnership.AllSettled, RoutesReportOn, WorkerPool.ReportOn,
      WorkerPool.Actives, Scheduler.Observed;
    var c, f, hash := Last(w), g.findings, p.lib.templateHash(p.worker);
    var status := Last(v).status;
    RestIgnoresStatus(v, c, status, i.cache.workers, hash, i.gatewayAPIEnabled, p);
    RestIgnoresStatus(v, c, status, j.cache.workers, hash, j.gatewayAPIEnabled, p);
    FreshReconcile(v, j, next, p);
    GatherAtRest(v, j, next, p);
    SamePoolAgrees(PoolBatch(Last(v), p, j), PoolBatch(c, p, j), v.fleet.pods);
    TwoReports(w.fleet.pods, c, p, i, j);
    var again := Gather(v, Last(v), j, next).findings;
    SecondStatus(c, f.observed, f.workers, again.workers, f.routes);
    FreshConclude(v, Last(v), again, j.faults);
  }

  /** The same inputs with another listing of the workers. */
  function WithListing(j: Inputs, listing: seq<Pod>): Inputs {
    j.(cache := j.cache.(workers := listing))
  }

  lemma RelistedIsFresh(v: World, j: Inputs, next: Choice, p: Plan, listing: seq<Pod>)
    requires Fresh(v, j, next, p) && UpToDate(listing, v.fleet.pods, PoolBatch(Last(v), p, j))
    ensures Fresh(v, WithListing(j, listing), next, p)
  {
    var b := PoolBatch(Last(v), p, j);
    hide ServiceLaws.Reads, RouteOwnership.WellFormed, Complete, UpToDate, FreshNames, NamesWorkers, WorkerPool.Actives,
      Current;
    ActivesStored(j.cache.workers, v.fleet.pods, b);
    ActivesStored(listing, v.fleet.pods, b);
    SamePoolAgrees(PoolBatch(Last(v), p, WithListing(j, listing)), b, v.fleet.pods);
  }

  lemma FirstPass(w: World, i: Inputs, choice: Choice, p: Plan)
    requires Fresh(w, i, choice, p) && Converged(w.fleet.pods, Last(w), p)
    ensures var v := NextWorld(w, i, choice, p);
            && w.history != [] && v.history != [] && SameSpec(Last(v), Last(w))
            && v.fleet.pods == w.fleet.pods && v.fleet.writes == w.fleet.writes
  {
    hide NextWorld, Gather, Conclude, Converged, Furnished, Observed, FullStatus, Fresh, WorkerPool.Schedule, FaultFree,
      FreshPodsAfter;
    FreshListing(w, i, choice, p);
    FreshReconcile(w, i, choice, p);
    GatherAtRest(w, i, choice, p);
    var g := Gather(w, Last(w), i, choice);
    FreshConclude(g.world, Last(w), g.findings, i.faults);
  }

  /** The next fresh reconcile changes nothing, in whatever order it lists the workers. */
  ghost predicate AlwaysStill(v: World, j: Inputs, next: Choice, p: Plan) {
    forall listing: seq<Pod> :: Fresh(v, WithListing(j, listing), next, p) ==>
      NextWorld(v, WithListing(j, listing), next, p) == v
  }

  /** One such order, in terms of the pool. */
  lemma StillInThisOrder(w: World, i: Inputs, choice: Choice, j: Inputs, next: Choice, p: Plan, listing: seq<Pod>)
    requires Fresh(w, i, choice, p) && Converged(w.fleet.pods, Last(w), p)
    requires Fresh(NextWorld(w, i, choice, p), j, next, p) && j.gatewayAPIEnabled == i.gatewayAPIEnabled
    ensures var v, b := NextWorld(w, i, choice, p), Pool(Last(w), p);
            && UpToDate(i.cache.workers, w.fleet.pods, b) && Settled(w.fleet.pods, Last(w), b)
            && (Fresh(v, WithListing(j, listing), next, p) <==> UpToDate(listing, w.fleet.pods, b))
            && (Fresh(v, WithListing(j, listing), next, p) ==>
                  (NextWorld(v, WithListing(j, listing), next, p) == v <==>
                     WorkerMessage(Last(w), listing, p) == WorkerMessage(Last(w), i.cache.workers, p)))
  {
    hide NextWorld, Fresh, UpToDate, WorkerMessage, WorkerPool.Schedule, FaultFree, Settled;
    FreshListing(w, i, choice, p);
    var v, b := NextWorld(w, i, choice, p), Pool(Last(w), p);
    FirstPass(w, i, choice, p);
    SamePoolAgrees(PoolBatch(Last(w), p, i), b, w.fleet.pods);
    SamePoolAgrees(PoolBatch(Last(v), p, j), b, w.fleet.pods);
    SamePoolAgrees(PoolBatch(Last(v), p, WithListing(j, listing)), b, w.fleet.pods);
    if UpToDate(listing, w.fleet.pods, b) {
      RelistedIsFresh(v, j, next, p, listing);
    }
    if Fresh(v, WithListing(j, listing), next, p) {
      FreshListing(v, WithListing(j, listing), next, p);
      StandsStill(w, i, choice, WithListing(j, listing), next, p);
    }
  }

  /** For every order: after the first reconcile the next fresh one stands still, in whatever order it lists the
      workers, exactly when those that are not Ready speak with one voice; at most one of them always does. */
  lemma StandsStillInEveryOrder(w: World, i: Inputs, choice: Choice, j: Inputs, next: Choice, p: Plan)
    requires Fresh(w, i, choice, p) && Converged(w.fleet.pods, Last(w), p)
    requires Fresh(NextWorld(w, i, choice, p), j, next, p) && j.gatewayAPIEnabled == i.gatewayAPIEnabled
    ensures AlwaysStill(NextWorld(w, i, choice, p), j, next, p) <==> OneVoice(w.fleet.pods, Pool(Last(w), p))
    ensures |Unready(w.fleet.pods, Pool(Last(w), p))| <= 1 ==> AlwaysStill(NextWorld(w, i, choice, p), j, next, p)
  {
    hide NextWorld, Fresh, UpToDate, Settled, Converged, OneVoice, WorkerPool.ReportOn, WorkerPool.Actives, WithListing,
      Unready;
    FreshListing(w, i, choice, p);
    var v, c, b := NextWorld(w, i, choice, p), Last(w), Pool(Last(w), p);
    StillInThisOrder(w, i, choice, j, next, p, i.cache.workers);
    if OneVoice(w.fleet.pods, b) {
      forall listing: seq<Pod> | Fresh(v, WithListing(j, listing), next, p)
        ensures NextWorld(v, WithListing(j, listing), next, p) == v
      {
        StillInThisOrder(w, i, choice, j, next, p, listing);
        OneVoiceAgrees(listing, i.cache.workers, w.fleet.pods, c, b);
      }
    }
    var one, two := OrderShows(i.cache.workers, w.fleet.pods, c, b);
    StillInThisOrder(w, i, choice, j, next, p, one);
    StillInThisOrder(w, i, choice, j, next, p, two);
    if |Unready(w.fleet.pods, b)| <= 1 { OneUnreadyIsOneVoice(w.fleet.pods, b); }
  }

  // ---------- Ready ----------

  ghost predicate WorkersReady(pods: Pods, b: WorkerPool.Batch) {
    forall k :: k in Current(pods, b) ==> PodIsReady(pods[k])
  }

  lemma {:induction false} AllReadyCounted(active: seq<Pod>)
    ensures WorkerPool.CountReady(active) == |active| <==> forall j :: 0 <= j < |active| ==> PodIsReady(active[j])
  {
    var k := NotReadyPodRecorded(active);
  }

  /** The listed active workers are all Ready exactly when the current workers are. */
  lemma ActivesReady(listing: seq<Pod>, pods: Pods, b: WorkerPool.Batch)
    requires UpToDate(listing, pods, b)
    ensures var active := WorkerPool.Actives(listing, b.hash);
            WorkersReady(pods, b) <==> forall j :: 0 <= j < |active| ==> PodIsReady(active[j])
  {
    hide PodIsReady, Current, WorkerPool.Actives, Selected;
    var active := WorkerPool.Actives(listing, b.hash);
    var at := ActivesAt(listing, b.hash);
    ActivesAreCurrent(listing, pods, b);
    forall j | 0 <= j < |active|
      ensures active[j].key in Current(pods, b) && pods[active[j].key] == active[j]
    {
      assert listing[at[j]] == active[j];
      assert active[j].key in Keys(active);
    }
    if forall j :: 0 <= j < |active| ==> PodIsReady(active[j]) {
      forall k | k in Current(pods, b) ensures PodIsReady(pods[k]) {
        assert k in Keys(active);
      }
    }
  }

  lemma PoolReadyExactly(listing: seq<Pod>, pods: Pods, c: Cluster, b: WorkerPool.Batch)
    requires UpToDate(listing, pods, b) && Settled(pods, c, b)
    ensures PoolReady(c, WorkerPool.ReportOn(c, WorkerPool.Actives(listing, b.hash)).status) <==> WorkersReady(pods, b)
  {
    hide PodIsReady, Current, WorkerPool.Actives, WorkerPool.ReportOn, WorkerPool.CountReady, Keys, WorkersReady;
    var active := WorkerPool.Actives(listing, b.hash);
    ActivesReady(listing, pods, b);
    AllReadyCounted(active);
    ActivesAreCurrent(listing, pods, b);
    UpToDateSees(pods, listing, b);
    ReleasedAreSeen(pods, listing, c, b);
    ReportTruth(c, active);
  }

  /** On converged pods a fresh reconcile persists Ready exactly when the scheduler pod and every current worker are
      Ready and the routes are. */
  lemma ReadyExactly(w: World, i: Inputs, choice: Choice, p: Plan)
    requires Fresh(w, i, choice, p) && Converged(w.fleet.pods, Last(w), p)
    ensures var v, c := NextWorld(w, i, choice, p), Last(w);
            && SchedulerPodKey(c) in w.fleet.pods && v.history != []
            && (IsReady(v) <==>
                  && PodIsReady(w.fleet.pods[SchedulerPodKey(c)])
                  && WorkersReady(w.fleet.pods, PoolBatch(c, p, i))
                  && RoutesReportOn(v.routes.items, c, i.gatewayAPIEnabled).ready)
  {
    hide NextWorld, Gather, Conclude, Converged, Furnished, FullStatus, FreshPodsAfter, ServiceLaws.Reads,
      RouteOwnership.WellFormed, Complete, WorkerPool.Schedule, WorkerPool.Missing, FaultFree, UpToDate, WellKeyed,
      FreshNames, NamesWorkers, PodIsReady, WorkersReady, RoutesReportOn, WorkerPool.ReportOn, Find, PoolReady,
      WorkerPool.Actives, PodNotReadyMessage;
    var c := Last(w);
    FreshReconcile(w, i, choice, p);
    GatherAtRest(w, i, choice, p);
    var g := Gather(w, c, i, choice);
    var f := g.findings;
    FreshConclude(g.world, c, f, i.faults);
    StatusLaws.FullConditions(c, f.observed, f.workers, f.routes);
    ConvergedIsSettled(w.fleet.pods, c, p, i);
    PoolReadyExactly(i.cache.workers, w.fleet.pods, c, PoolBatch(c, p, i));
  }
}
