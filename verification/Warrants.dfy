/** Why each write to a pod is made: with an up-to-date view of the pods, whatever calls fail and whatever is cancelled,
    a reconcile only deletes a scheduler that is outdated, a worker that is stale, or a current worker above the desired
    count; and over runs every write is of this kind. */
module Warrants {
  import opened Kube
  import opened Errors
  import opened PolarsCluster
  import opened ApiServer
  import opened Reconcile
  import opened Runs
  import opened WorkerPoolLaws
  import opened WorkerPoolTheorems
  import opened FleetRuns
  import opened WriteTrace
  import Scheduler
  import SchedulerLaws
  import WorkerPool

  // ---------- What warrants a write ----------

  /** The scheduler is created under a free name, from the template; it is deleted only if live and outdated. */
  ghost predicate SchedulerWarrant(w: PodWrite, c: Cluster, hash: string) {
    && SchedulerLaws.SchedulerWrite(w, c, hash)
    && (w.kind.ReplaceScheduler? ==> SchedulerLaws.Outdated(w.before[w.key], hash))
  }

  /** A worker is created current, while there are too few; it is deleted if live and stale, or if current and there are
      too many. */
  ghost predicate WorkerWarrant(w: PodWrite, c: Cluster, b: WorkerPool.Batch) {
    && SaneWrite(w)
    && match w.kind
       case CreateWorker => IsCurrent(w.after[w.key], b) && |Current(w.before, b)| < Desired(c)
       case ReplaceWorker => IsStale(w.before[w.key], b)
       case ScaleDown => IsCurrent(w.before[w.key], b) && |Current(w.before, b)| > Desired(c)
       case _ => false
  }

  /** The write is what a reconcile of the version `c` with these inputs should do. */
  ghost predicate Warranted(w: PodWrite, c: Cluster, i: Inputs) {
    || (i.templates.scheduler.Ok? && SchedulerWarrant(w, c, i.lib.templateHash(i.templates.scheduler.value)))
    || (i.templates.worker.Ok? &&
          WorkerWarrant(w, c, WorkerPool.BatchOf(c, i.templates.worker.value, i.lib, i.names, i.faults)))
  }

  ghost predicate AllWarranted(writes: seq<PodWrite>, start: nat, c: Cluster, i: Inputs) {
    forall j :: start <= j < |writes| ==> Warranted(writes[j], c, i)
  }

  // ---------- The scheduler stage ----------

  lemma UpToDateWrite(fleet: Fleet, cached: Option<Pod>, c: Cluster, hash: string, faults: Faults)
    requires SchedulerLaws.UpToDateRead(cached, fleet.pods, c) && WellKeyed(fleet.pods)
    ensures var after := Scheduler.SchedulerStep(fleet, cached, c, hash, faults).fleet;
            && fleet.writes <= after.writes
            && forall j :: |fleet.writes| <= j < |after.writes| ==> SchedulerWarrant(after.writes[j], c, hash)
  {
    hide Scheduler.SchedulerStep;
    SchedulerLaws.AtMostOneWrite(fleet, cached, c, hash, faults);
    SchedulerLaws.UpToDateReadDeletesRightly(fleet, cached, c, hash, faults);
  }

  // ---------- The worker stage ----------

  /** The writes from `start` on that replace a worker replace a stale one. */
  ghost predicate ReplacesStale(writes: seq<PodWrite>, start: nat, b: WorkerPool.Batch) {
    forall j :: start <= j < |writes| && writes[j].kind.ReplaceWorker? ==>
      writes[j].key in writes[j].before && IsStale(writes[j].before[writes[j].key], b)
  }

  /** Sifting an up-to-date listing replaces only stale workers, and leaves the pods not listed alone. */
  lemma {:induction false} SiftReplacesStale(fleet: Fleet, listing: seq<Pod>, b: WorkerPool.Batch)
    requires Listing(listing, fleet.pods, b)
    requires forall j :: 0 <= j < |listing| ==> Lookup(fleet.pods, listing[j].key) == Some(listing[j])
    ensures var s := WorkerPool.Sift(fleet, listing, b.hash, b.faults).fleet;
            && fleet.writes <= s.writes && ReplacesStale(s.writes, |fleet.writes|, b)
            && forall k :: k !in Keys(listing) ==> Lookup(s.pods, k) == Lookup(fleet.pods, k)
  {
    hide IsNotFound;
    if listing != [] {
      var n := |listing| - 1;
      SiftReplacesStale(fleet, listing[..n], b);
      KeysSnoc(listing);
      ListedKeyIsLast(listing);
    }
  }

  lemma {:induction false} SpawnCreates(fleet: Fleet, order: seq<nat>, b: WorkerPool.Batch)
    ensures var s := WorkerPool.Spawn(fleet, order, b).fleet;
            && fleet.writes <= s.writes
            && forall j :: |fleet.writes| <= j < |s.writes| ==> s.writes[j].kind.CreateWorker?
  {
    if order != [] { SpawnCreates(fleet, order[..|order| - 1], b); }
  }

  lemma GrowCreates(fleet: Fleet, active: seq<Pod>, lacking: nat, c: Cluster, b: WorkerPool.Batch, order: seq<nat>)
    ensures var after := WorkerPool.Grow(fleet, active, lacking, c, b, order).fleet;
            fleet.writes <= after.writes && ReplacesStale(after.writes, |fleet.writes|, b)
  {
    hide WorkerPool.Spawn, WorkerPool.Announce, WorkerPool.ReportOn, Reduce, IsStale;
    var spawned := WorkerPool.Spawn(fleet, order, b);
    SpawnCreates(fleet, order, b);
    AnnounceWrites(spawned.fleet, active, WorkerPool.CreatedSlots(spawned.slots, lacking));
  }

  lemma ShrinkScalesDown(fleet: Fleet, active: seq<Pod>, surplus: nat, c: Cluster, b: WorkerPool.Batch)
    requires surplus <= |active|
    ensures var after := WorkerPool.Shrink(fleet, active, surplus, c, b.faults).fleet;
            fleet.writes <= after.writes && ReplacesStale(after.writes, |fleet.writes|, b)
  {
    hide WorkerPool.Trim, WorkerPool.ReportOn, IsStale;
    TrimAnnounces(fleet, active[..surplus], b.faults);
  }

  lemma ReplacesStaleJoin(writes: seq<PodWrite>, longer: seq<PodWrite>, start: nat, b: WorkerPool.Batch)
    requires writes <= longer && ReplacesStale(writes, start, b) && ReplacesStale(longer, |writes|, b)
    ensures ReplacesStale(longer, start, b)
  {
    hide IsStale;
    forall j | start <= j < |longer| && longer[j].kind.ReplaceWorker?
      ensures longer[j].key in longer[j].before && IsStale(longer[j].before[longer[j].key], b)
    {
      if j < |writes| { assert longer[j] == writes[j]; }
    }
  }

  lemma UpToDateSift(fleet: Fleet, listing: seq<Pod>, b: WorkerPool.Batch)
    requires UpToDate(listing, fleet.pods, b)
    ensures var s := WorkerPool.Sift(fleet, listing, b.hash, b.faults).fleet;
            fleet.writes <= s.writes && ReplacesStale(s.writes, |fleet.writes|, b)
  {
    SiftReplacesStale(fleet, listing, b);
  }

  lemma ResizeReplacesStale(fleet: Fleet, listing: seq<Pod>, c: Cluster, b: WorkerPool.Batch, order: seq<nat>)
    requires UpToDate(listing, fleet.pods, b)
    ensures ReplacesStale(WorkerPool.Resize(fleet, listing, c, b, order).fleet.writes, |fleet.writes|, b)
  {
    hide WorkerPool.Sift, WorkerPool.Grow, WorkerPool.Shrink, ReplacesStale, UpToDate, Listing;
    UpToDateSift(fleet, listing, b);
    var s := WorkerPool.Sift(fleet, listing, b.hash, b.faults);
    if s.err.None? {
      var lacking := c.spec.workerPool.replicas as int - |s.active|;
      if lacking > 0 {
        GrowCreates(s.fleet, s.active, lacking, c, b, order);
      } else {
        ShrinkScalesDown(s.fleet, s.active, -lacking, c, b);
      }
      ReplacesStaleJoin(s.fleet.writes, WorkerPool.Resize(fleet, listing, c, b, order).fleet.writes, |fleet.writes|, b);
    }
  }

  /** A creation or scale-down that moves the count toward the desired one is of a current worker. */
  lemma TowardIsWarranted(w: PodWrite, c: Cluster, b: WorkerPool.Batch)
    requires SaneWrite(w) && Toward(w, b, Desired(c))
    requires w.kind.ReplaceWorker? ==> IsStale(w.before[w.key], b)
    ensures WorkerWarrant(w, c, b)
  {
    match w.kind
    case CreateWorker =>
      assert !IsCurrent(w.after[w.key], b) ==> Current(w.after, b) == Current(w.before, b);
    case ScaleDown =>
      assert !IsCurrent(w.before[w.key], b) ==> Current(w.after, b) == Current(w.before, b);
    case _ =>
  }

  lemma ResizeIsWarranted(fleet: Fleet, listing: seq<Pod>, c: Cluster, b: WorkerPool.Batch, order: seq<nat>)
    requires UpToDate(listing, fleet.pods, b) && WorkerPool.Schedule(order, WorkerPool.Missing(listing, c, b.hash))
    requires SaneTrace(WorkerPool.Resize(fleet, listing, c, b, order).fleet.writes, |fleet.writes|)
    ensures var after := WorkerPool.Resize(fleet, listing, c, b, order).fleet;
            && fleet.writes <= after.writes
            && forall j :: |fleet.writes| <= j < |after.writes| ==> WorkerWarrant(after.writes[j], c, b)
  {
    hide WorkerPool.Resize, UpToDate, WorkerPool.Schedule, WorkerPool.Missing, SaneWrite, Toward, OnlyPool, WorkerWarrant,
      IsStale;
    NoOvershoot(fleet, listing, c, b, order);
    ResizeReplacesStale(fleet, listing, c, b, order);
    var after := WorkerPool.Resize(fleet, listing, c, b, order).fleet;
    forall j | |fleet.writes| <= j < |after.writes| ensures WorkerWarrant(after.writes[j], c, b) {
      TowardIsWarranted(after.writes[j], c, b);
    }
  }

  // ---------- One reconcile ----------

  /** The reads of the pods are up to date. The version of the resource may lag and any call may fail. */
  ghost predicate Informed(w: World, i: Inputs, choice: Choice) {
    && w.history != [] && Allowed(w, i, choice) && WellKeyed(w.fleet.pods)
    && var c := VersionRead(w, i);
       && SchedulerLaws.UpToDateRead(i.cache.scheduler, w.fleet.pods, c) && SchedulerIsNoWorker(w.fleet.pods, c)
       && (i.templates.worker.Ok? ==>
             var b := WorkerPool.BatchOf(c, i.templates.worker.value, i.lib, i.names, i.faults);
             && UpToDate(i.cache.workers, w.fleet.pods, b)
             && WorkerPool.Schedule(choice.workers, WorkerPool.Missing(i.cache.workers, c, b.hash)))
  }

  lemma SchedulerStageIsWarranted(w: World, i: Inputs, choice: Choice)
    requires Informed(w, i, choice)
    ensures w.history != [] && CachedVersion(w.history, i.cache)
    ensures var c := VersionRead(w, i);
            var s := SchedulerStage(w, c, i);
            && w.fleet.writes <= s.writes && AllWarranted(s.writes, |w.fleet.writes|, c, i)
            && SaneTrace(s.writes, |w.fleet.writes|)
            && (i.templates.worker.Ok? ==>
                  UpToDate(i.cache.workers, s.pods,
                           WorkerPool.BatchOf(c, i.templates.worker.value, i.lib, i.names, i.faults)))
  {
    hide Scheduler.SchedulerStep, SchedulerWarrant, WorkerWarrant, UpToDate, WorkersUntouched, SaneWrite, VersionRead,
      WorkerPool.Schedule, WorkerPool.Missing, Genuine;
    var c := VersionRead(w, i);
    SchedulerStageIsSane(|w.fleet.writes|, w.fleet, i.cache.scheduler, c, i.templates.scheduler, i.lib, i.faults);
    if i.templates.scheduler.Ok? {
      var hash := i.lib.templateHash(i.templates.scheduler.value);
      UpToDateWrite(w.fleet, i.cache.scheduler, c, hash, i.faults);
      SchedulerStepTouchesNoWorker(w.fleet, i.cache.scheduler, c, hash, i.faults);
      if i.templates.worker.Ok? {
        UntouchedWorkers(w.fleet.pods, SchedulerStage(w, c, i).pods, c,
                         WorkerPool.BatchOf(c, i.templates.worker.value, i.lib, i.names, i.faults), i.cache.workers);
      }
    }
  }

  lemma WorkerStageIsWarranted(w: World, i: Inputs, choice: Choice)
    requires Informed(w, i, choice)
    ensures w.history != [] && CachedVersion(w.history, i.cache)
    ensures var c := VersionRead(w, i);
            var after := WorkerStage(w, c, i, choice);
            w.fleet.writes <= after.writes && AllWarranted(after.writes, |w.fleet.writes|, c, i)
  {
    hide SchedulerStage, WorkerPool.Resize, SchedulerWarrant, WorkerWarrant, UpToDate, SaneTrace, VersionRead, Genuine,
      WorkerPool.Schedule, WorkerPool.Missing;
    var c := VersionRead(w, i);
    var s := SchedulerStage(w, c, i);
    SchedulerStageIsWarranted(w, i, choice);
    WorkerStageIsSane(|w.fleet.writes|, s, i.cache.workers, c, i.templates.worker, i.lib, i.names, i.faults,
                      choice.workers);
    if i.templates.worker.Ok? && i.faults(WorkerList).None? {
      var b := WorkerPool.BatchOf(c, i.templates.worker.value, i.lib, i.names, i.faults);
      SaneSuffix(WorkerPool.Resize(s, i.cache.workers, c, b, choice.workers).fleet.writes, |w.fleet.writes|, |s.writes|);
      ResizeIsWarranted(s, i.cache.workers, c, b, choice.workers);
      WarrantsJoin(s.writes, WorkerStage(w, c, i, choice).writes, |w.fleet.writes|, c, i);
    }
  }

  lemma SaneSuffix(writes: seq<PodWrite>, start: nat, later: nat)
    requires SaneTrace(writes, start) && start <= later
    ensures SaneTrace(writes, later)
  {
  }

  lemma WarrantsJoin(writes: seq<PodWrite>, longer: seq<PodWrite>, start: nat, c: Cluster, i: Inputs)
    requires writes <= longer && start <= |writes|
    requires AllWarranted(writes, start, c, i) && AllWarranted(longer, |writes|, c, i)
    ensures AllWarranted(longer, start, c, i)
  {
    hide Warranted;
    forall j | start <= j < |longer| ensures Warranted(longer[j], c, i) {
      if j < |writes| { assert longer[j] == writes[j]; }
    }
  }

  /** Every write of one informed reconcile, wherever it stops, is warranted. */
  lemma PassIsWarranted(w: World, i: Inputs, choice: Choice)
    requires Informed(w, i, choice)
    ensures w.history != [] && Allowed(w, i, choice)
    ensures var after := ReconcileOnce(w, i, choice).world.fleet;
            w.fleet.writes <= after.writes && AllWarranted(after.writes, |w.fleet.writes|, VersionRead(w, i), i)
  {
    hide ReconcileOnce, SchedulerStage, WorkerStage, Warranted, UpToDate, VersionRead, WorkerPool.Schedule,
      WorkerPool.Missing, Genuine;
    FleetOf(w, i, choice);
    SchedulerStageIsWarranted(w, i, choice);
    WorkerStageIsWarranted(w, i, choice);
  }

  // ---------- Over runs ----------

  /** Every reconcile of the run is informed. The environment may do anything, and the spec may change at any time. */
  ghost predicate InformedRun(worlds: seq<World>, actions: seq<Action>) {
    && Run(worlds, actions)
    && forall k :: 0 <= k < |actions| && actions[k].Pass? ==> Informed(worlds[k], actions[k].inputs, actions[k].choice)
  }

  /** The write `j` was made by the reconcile `k`, and warranted there. */
  ghost predicate MadeBy(worlds: seq<World>, actions: seq<Action>, j: nat, k: nat) {
    && |worlds| == |actions| + 1 && k < |actions| && actions[k].Pass?
    && Informed(worlds[k], actions[k].inputs, actions[k].choice)
    && |worlds[k].fleet.writes| <= j < |worlds[k + 1].fleet.writes|
    && Warranted(worlds[k + 1].fleet.writes[j], VersionRead(worlds[k], actions[k].inputs), actions[k].inputs)
  }

  /** The write `j` of the world `n` was made by some reconcile before it. */
  ghost predicate Made(worlds: seq<World>, actions: seq<Action>, j: nat, n: nat)
    requires n < |worlds| == |actions| + 1 && j < |worlds[n].fleet.writes|
  {
    exists k: nat ::
      k < n && MadeBy(worlds, actions, j, k) && worlds[k + 1].fleet.writes[j] == worlds[n].fleet.writes[j]
  }

  /** Over any informed run, with any failures, cancellations, edits and changes by others: every write ever made is
      warranted by the pods and the version of the resource that its reconcile saw. */
  lemma {:induction false} EveryWriteIsWarranted(worlds: seq<World>, actions: seq<Action>, n: nat)
    requires InformedRun(worlds, actions) && n < |worlds|
    ensures worlds[0].fleet.writes <= worlds[n].fleet.writes
    ensures forall j :: |worlds[0].fleet.writes| <= j < |worlds[n].fleet.writes| ==> Made(worlds, actions, j, n)
  {
    hide Informed, Warranted, Step, Made;
    if n > 0 {
      EveryWriteIsWarranted(worlds, actions, n - 1);
      assert Step(worlds[n - 1], actions[n - 1], worlds[n - 1 + 1]);
      StepWrites(worlds[n - 1], actions[n - 1], worlds[n]);
      forall j | |worlds[0].fleet.writes| <= j < |worlds[n].fleet.writes| ensures Made(worlds, actions, j, n) {
        if j < |worlds[n - 1].fleet.writes| {
          MadeBefore(worlds, actions, j, n - 1);
        } else {
          MadeNow(worlds, actions, j, n - 1);
        }
      }
    }
  }

  lemma MadeBefore(worlds: seq<World>, actions: seq<Action>, j: nat, n: nat)
    requires n < |actions| && |worlds| == |actions| + 1 && j < |worlds[n].fleet.writes| && Made(worlds, actions, j, n)
    requires worlds[n].fleet.writes <= worlds[n + 1].fleet.writes
    ensures Made(worlds, actions, j, n + 1)
  {
    hide MadeBy;
    assert worlds[n + 1].fleet.writes[j] == worlds[n].fleet.writes[j];
  }

  lemma MadeNow(worlds: seq<World>, actions: seq<Action>, j: nat, n: nat)
    requires n < |actions| && |worlds| == |actions| + 1
    requires |worlds[n].fleet.writes| <= j < |worlds[n + 1].fleet.writes| && MadeBy(worlds, actions, j, n)
    ensures Made(worlds, actions, j, n + 1)
  {
    hide MadeBy;
  }

  lemma StepWrites(w: World, a: Action, v: World)
    requires Step(w, a, v) && (a.Pass? ==> Informed(w, a.inputs, a.choice))
    ensures w.fleet.writes <= v.fleet.writes
    ensures a.Environment? ==> v.fleet.writes == w.fleet.writes
    ensures a.Pass? ==> w.history != [] && CachedVersion(w.history, a.inputs.cache)
                        && AllWarranted(v.fleet.writes, |w.fleet.writes|, VersionRead(w, a.inputs), a.inputs)
  {
    hide Informed, AllWarranted, ReconcileOnce, Genuine;
    if a.Pass? { PassIsWarranted(w, a.inputs, a.choice); }
  }
}
