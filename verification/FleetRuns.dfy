/** Pods over whole runs: which writes ever take effect, and that the worker count never moves away from the desired one
    nor past it. */
module FleetRuns {
  import opened Kube
  import opened Errors
  import opened PolarsCluster
  import opened PodTemplates
  import opened ApiServer
  import opened Reconcile
  import opened TemplateFrame
  import opened Runs
  import opened WorkerPoolLaws
  import opened WorkerPoolTheorems
  import Scheduler
  import SchedulerLaws
  import WorkerPool
  import WorkerPoolExact
  import Services
  import Routes
  import Conditions

  // ---------- The fleet of one reconcile ----------

  function SchedulerStage(w: World, c: Cluster, i: Inputs): Fleet {
    Scheduler.SchedulerPass(w.fleet, i.cache.scheduler, c, i.templates.scheduler, i.lib, i.faults).fleet
  }

  function WorkerStage(w: World, c: Cluster, i: Inputs, choice: Choice): Fleet {
    WorkerPool.WorkerPass(SchedulerStage(w, c, i), i.cache.workers, c, i.templates.worker, i.lib, i.names, i.faults,
                          choice.workers).fleet
  }

  /** A reconcile leaves the pods as they were, as the scheduler stage leaves them, or as the worker stage leaves
      them. */
  lemma FleetOf(w: World, i: Inputs, choice: Choice)
    requires w.history != [] && Allowed(w, i, choice)
    ensures var after, c := ReconcileOnce(w, i, choice).world.fleet, VersionRead(w, i);
            || (after.pods == w.fleet.pods && after.writes == w.fleet.writes)
            || (after.pods == SchedulerStage(w, c, i).pods && after.writes == SchedulerStage(w, c, i).writes)
            || (after.pods == WorkerStage(w, c, i, choice).pods && after.writes == WorkerStage(w, c, i, choice).writes)
  {
    hide Gather, Conclude, SchedulerStage, WorkerStage, WorkerPool.Schedule, Genuine;
    if ClusterGetError(i.cache, i.faults).None? {
      var read := i.cache.cluster.value;
      var g := Gather(w, w.history[read], i, choice);
      GatherFindsSpecErrors(w, w.history[read], i, choice);
      GatherFleet(w, w.history[read], i, choice);
      ConcludeFleet(g.world, read, w.history[read], g.findings, i.faults);
    }
  }

  lemma GatherFleet(w: World, c: Cluster, i: Inputs, choice: Choice)
    requires WorkerPool.Schedule(choice.services, Services.SERVICE_COUNT)
    ensures Gather(w, c, i, choice).world.fleet in {w.fleet, SchedulerStage(w, c, i), WorkerStage(w, c, i, choice)}
  {
    hide Services.ServicesPass, WorkerPool.WorkerPass, Routes.RoutesPass, Services.AccountsPass,
      Scheduler.SchedulerPass, ReportUnder, VersionError;
  }

  lemma ConcludeFleet(w: World, read: nat, c: Cluster, f: Findings, faults: Faults)
    requires f.SpecFailure? ==> f.failure.Spec?
    ensures var after := Conclude(w, read, c, f, faults).world.fleet;
            after.pods == w.fleet.pods && after.writes == w.fleet.writes
  {
    hide FullStatus, SpecErrorStatus, Text, ReadyMessage, Conditions.Find;
  }

  // ---------- The scheduler stage and the workers ----------

  /** The pod of the scheduler's name is not labelled as a worker. */
  predicate SchedulerIsNoWorker(pods: Pods, c: Cluster) {
    SchedulerPodKey(c) in pods ==> pods[SchedulerPodKey(c)].labels.component != COMPONENT_WORKER
  }

  lemma ComponentsDiffer()
    ensures COMPONENT_SCHEDULER != COMPONENT_WORKER
  {
    assert |COMPONENT_SCHEDULER| == 9 && |COMPONENT_WORKER| == 6;
  }

  /** The store changed at most at the scheduler's name, and not to or from a worker. */
  ghost predicate WorkersUntouched(before: Pods, after: Pods, c: Cluster) {
    && (forall k :: k != SchedulerPodKey(c) ==> Lookup(after, k) == Lookup(before, k))
    && SchedulerIsNoWorker(before, c) && SchedulerIsNoWorker(after, c)
  }

  lemma SchedulerStepTouchesNoWorker(fleet: Fleet, cached: Option<Pod>, c: Cluster, hash: string, faults: Faults)
    requires SchedulerLaws.NamedRead(cached, c) && SchedulerIsNoWorker(fleet.pods, c)
    ensures var after := Scheduler.SchedulerStep(fleet, cached, c, hash, faults).fleet;
            && WorkersUntouched(fleet.pods, after.pods, c) && fleet.writes <= after.writes
            && forall i :: |fleet.writes| <= i < |after.writes| ==> SchedulerLaws.SchedulerWrite(after.writes[i], c, hash)
  {
    hide Scheduler.SchedulerStep;
    SchedulerLaws.AtMostOneWrite(fleet, cached, c, hash, faults);
    ComponentsDiffer();
  }

  lemma UntouchedWorkers(before: Pods, after: Pods, c: Cluster, b: WorkerPool.Batch, listing: seq<Pod>)
    requires WorkersUntouched(before, after, c)
    ensures Current(after, b) == Current(before, b)
    ensures UpToDate(listing, before, b) ==> UpToDate(listing, after, b)
  {
    forall k ensures k in Current(after, b) <==> k in Current(before, b) {
      assert k != SchedulerPodKey(c) ==> Lookup(after, k) == Lookup(before, k);
    }
    if UpToDate(listing, before, b) {
      forall j | 0 <= j < |listing| ensures Lookup(after, listing[j].key) == Some(listing[j]) {
        assert Lookup(before, listing[j].key) == Some(listing[j]);
      }
      forall k | k in after && Selected(after[k], b) ensures k in Keys(listing) {
        assert Lookup(before, k) == Lookup(after, k);
      }
    }
  }

  // ---------- Staying on course ----------

  /** The worker count moved toward the desired one, if at all, and not past it. */
  ghost predicate Nearer(before: Pods, after: Pods, b: WorkerPool.Batch, desired: nat) {
    var n, m := |Current(before, b)|, |Current(after, b)|;
    (n <= desired ==> n <= m <= desired) && (n >= desired ==> desired <= m <= n)
  }

  lemma ResizeNearer(fleet: Fleet, listing: seq<Pod>, c: Cluster, b: WorkerPool.Batch, order: seq<nat>)
    requires UpToDate(listing, fleet.pods, b) && WorkerPool.Schedule(order, WorkerPool.Missing(listing, c, b.hash))
    ensures Nearer(fleet.pods, WorkerPool.Resize(fleet, listing, c, b, order).fleet.pods, b, Desired(c))
  {
    hide WorkerPool.Grow, WorkerPool.Shrink, WorkerPool.Sift, Listing, OnlyPool, AllToward, Candidates, Current,
      WorkerPool.Actives, Keys, WorkerPool.Schedule;
    var s := WorkerPool.Sift(fleet, listing, b.hash, b.faults);
    SiftEffect(fleet, listing, b, Desired(c));
    if s.err.None? {
      SiftHandsOn(fleet, listing, b);
      if Desired(c) > |s.active| {
        GrowNearer(s.fleet, s.active, Desired(c) - |s.active|, c, b, order);
      } else {
        ShrinkNearer(s.fleet, s.active, |s.active| - Desired(c), c, b);
      }
    }
  }

  lemma GrowNearer(fleet: Fleet, active: seq<Pod>, lacking: nat, c: Cluster, b: WorkerPool.Batch, order: seq<nat>)
    requires WorkerPool.Schedule(order, lacking) && |Current(fleet.pods, b)| + lacking == Desired(c)
    ensures Nearer(fleet.pods, WorkerPool.Grow(fleet, active, lacking, c, b, order).fleet.pods, b, Desired(c))
  {
    hide WorkerPool.Grow, WorkerPool.Spawn, Current, Filled;
    ScheduleBound(order, lacking);
    SpawnConserves(fleet, order, b);
    FanOutConserves(fleet, active, lacking, c, b, order);
  }

  lemma ShrinkNearer(fleet: Fleet, active: seq<Pod>, surplus: nat, c: Cluster, b: WorkerPool.Batch)
    requires surplus <= |active| && Candidates(active, fleet.pods, b)
    requires Keys(active) == Current(fleet.pods, b) && |Current(fleet.pods, b)| == Desired(c) + surplus
    ensures Nearer(fleet.pods, WorkerPool.Shrink(fleet, active, surplus, c, b.faults).fleet.pods, b, Desired(c))
  {
    hide WorkerPool.Trim, Current, Candidates, Keys, OnlyPool;
    PrefixCandidates(active, surplus, fleet.pods, b);
    TrimEffect(fleet, active[..surplus], b);
    var after := WorkerPool.Trim(fleet, active[..surplus], b.faults).fleet;
    RemovalBound(Current(fleet.pods, b), Keys(active[..surplus]), Current(after.pods, b));
    Subset(Current(after.pods, b), Current(fleet.pods, b));
  }

  /** What a pass may do to the pods and the record of writes: come nearer to the desired count, by scheduler writes and
      worker writes that each move toward it. */
  ghost predicate OnCourse(before: Fleet, after: Fleet, c: Cluster, b: WorkerPool.Batch) {
    && Nearer(before.pods, after.pods, b, Desired(c))
    && before.writes <= after.writes
    && forall i :: |before.writes| <= i < |after.writes| ==> Rightful(after.writes[i], c, b)
  }

  ghost predicate Rightful(w: PodWrite, c: Cluster, b: WorkerPool.Batch) {
    (exists hash :: SchedulerLaws.SchedulerWrite(w, c, hash)) || Toward(w, b, Desired(c))
  }

  // ---------- One pass stays on course ----------

  /** The pool of a resource: its identity and the hash of its current template. */
  function PoolOf(c: Cluster, hash: string): WorkerPool.Batch {
    WorkerPool.Batch(c.key.namespace, c.key.name, hash, _ => "", _ => None)
  }

  predicate SamePool(a: WorkerPool.Batch, b: WorkerPool.Batch) {
    a.namespace == b.namespace && a.cluster == b.cluster && a.hash == b.hash
  }

  lemma SamePoolAgrees(a: WorkerPool.Batch, b: WorkerPool.Batch, pods: Pods)
    requires SamePool(a, b)
    ensures Current(pods, a) == Current(pods, b)
    ensures forall listing :: UpToDate(listing, pods, a) <==> UpToDate(listing, pods, b)
  {
    assert forall pod :: Selected(pod, a) <==> Selected(pod, b);
  }

  lemma SamePoolOnCourse(a: WorkerPool.Batch, b: WorkerPool.Batch, c: Cluster, d: Cluster, before: Fleet, after: Fleet)
    requires SamePool(a, b) && SameSpec(c, d) && OnCourse(before, after, c, a)
    ensures OnCourse(before, after, d, b)
  {
    SamePoolAgrees(a, b, before.pods);
    SamePoolAgrees(a, b, after.pods);
    forall i | |before.writes| <= i < |after.writes|
      ensures Rightful(after.writes[i], d, b)
    {
      var w := after.writes[i];
      SamePoolAgrees(a, b, w.before);
      SamePoolAgrees(a, b, w.after);
      assert Rightful(w, c, a);
      if hash :| SchedulerLaws.SchedulerWrite(w, c, hash) {
        assert SchedulerLaws.SchedulerWrite(w, d, hash);
      }
    }
  }

  /** No name the server picks for a worker is the scheduler's. */
  ghost predicate NamesWorkers(names: nat -> string, c: Cluster) {
    forall i: nat :: names(i) != SchedulerPodKey(c).name
  }

  lemma {:induction false} SpawnAvoids(fleet: Fleet, order: seq<nat>, b: WorkerPool.Batch, key: Key)
    requires forall i: nat :: SlotKey(b, i) != key
    ensures Lookup(WorkerPool.Spawn(fleet, order, b).fleet.pods, key) == Lookup(fleet.pods, key)
  {
    hide ClassifyAPIError;
    if order != [] {
      SpawnAvoids(fleet, order[..|order| - 1], b, key);
      assert SlotKey(b, order[|order| - 1]) != key;
    }
  }

  lemma ResizeKeepsSchedulerApart(fleet: Fleet, listing: seq<Pod>, c: Cluster, b: WorkerPool.Batch, order: seq<nat>)
    requires UpToDate(listing, fleet.pods, b) && Distinct(order)
    requires NamesWorkers(b.names, c) && SchedulerIsNoWorker(fleet.pods, c)
    ensures SchedulerIsNoWorker(WorkerPool.Resize(fleet, listing, c, b, order).fleet.pods, c)
  {
    WorkerPoolExact.PassIsPoolOnly(fleet, listing, c, b, order);
    if SchedulerPodKey(c) !in fleet.pods {
      hide Reduce, WorkerPool.ReportOn, WorkerPool.Sift, WorkerPool.Trim, WorkerPool.Spawn, WorkerPool.Announce,
        Current, OnlyPool, UpToDate, NamesWorkers, Candidates, AllToward;
      ResizeAvoids(fleet, listing, c, b, order);
    }
  }

  lemma ResizeAvoids(fleet: Fleet, listing: seq<Pod>, c: Cluster, b: WorkerPool.Batch, order: seq<nat>)
    requires UpToDate(listing, fleet.pods, b) && NamesWorkers(b.names, c) && SchedulerPodKey(c) !in fleet.pods
    ensures SchedulerPodKey(c) !in WorkerPool.Resize(fleet, listing, c, b, order).fleet.pods
  {
    hide WorkerPool.Grow, WorkerPool.Shrink, WorkerPool.Sift, NamesWorkers, Current, OnlyPool, Candidates, AllToward,
      Listing, Keys, WorkerPool.Actives;
    var s := WorkerPool.Sift(fleet, listing, b.hash, b.faults);
    SiftEffect(fleet, listing, b, 0);
    if s.err.None? {
      SiftHandsOn(fleet, listing, b);
      if Desired(c) > |s.active| {
        GrowAvoids(s.fleet, s.active, Desired(c) - |s.active|, c, b, order);
      } else {
        ShrinkAvoids(s.fleet, s.active, |s.active| - Desired(c), c, b);
      }
    }
  }

  lemma GrowAvoids(fleet: Fleet, active: seq<Pod>, lacking: nat, c: Cluster, b: WorkerPool.Batch, order: seq<nat>)
    requires NamesWorkers(b.names, c) && SchedulerPodKey(c) !in fleet.pods
    ensures SchedulerPodKey(c) !in WorkerPool.Grow(fleet, active, lacking, c, b, order).fleet.pods
  {
    hide Reduce, WorkerPool.ReportOn, WorkerPool.Spawn, WorkerPool.Announce;
    var spawned := WorkerPool.Spawn(fleet, order, b);
    SpawnAvoids(fleet, order, b, SchedulerPodKey(c));
    AnnounceCounts(spawned.fleet, active, WorkerPool.CreatedSlots(spawned.slots, lacking));
  }

  lemma ShrinkAvoids(fleet: Fleet, active: seq<Pod>, surplus: nat, c: Cluster, b: WorkerPool.Batch)
    requires surplus <= |active| && Candidates(active, fleet.pods, b) && SchedulerPodKey(c) !in fleet.pods
    ensures SchedulerPodKey(c) !in WorkerPool.Shrink(fleet, active, surplus, c, b.faults).fleet.pods
  {
    hide WorkerPool.ReportOn, WorkerPool.Trim, Candidates, Current, OnlyPool;
    PrefixCandidates(active, surplus, fleet.pods, b);
    TrimEffect(fleet, active[..surplus], b);
  }

  /** The worker stage, from wherever the scheduler stage left the pods. */
  lemma WorkersOnCourse(start: Fleet, fleet: Fleet, listing: seq<Pod>, c: Cluster, b: WorkerPool.Batch, order: seq<nat>)
    requires OnCourse(start, fleet, c, b) && SchedulerIsNoWorker(fleet.pods, c) && NamesWorkers(b.names, c)
    requires UpToDate(listing, fleet.pods, b) && WorkerPool.Schedule(order, WorkerPool.Missing(listing, c, b.hash))
    ensures var after := WorkerPool.Resize(fleet, listing, c, b, order).fleet;
            OnCourse(start, after, c, b) && SchedulerIsNoWorker(after.pods, c)
  {
    hide WorkerPool.Resize, SchedulerIsNoWorker, NamesWorkers, UpToDate, WorkerPool.Missing, Nearer, OnlyPool,
      WorkerPool.Schedule;
    var after := WorkerPool.Resize(fleet, listing, c, b, order).fleet;
    NoOvershoot(fleet, listing, c, b, order);
    ResizeNearer(fleet, listing, c, b, order);
    ScheduleIsDistinct(order, WorkerPool.Missing(listing, c, b.hash));
    ResizeKeepsSchedulerApart(fleet, listing, c, b, order);
    NearerTransitive(start.pods, fleet.pods, after.pods, b, Desired(c));
    forall i | |start.writes| <= i < |after.writes|
      ensures Rightful(after.writes[i], c, b)
    {
      if i < |fleet.writes| { assert after.writes[i] == fleet.writes[i]; }
    }
  }

  lemma ScheduleIsDistinct(order: seq<nat>, n: nat)
    requires WorkerPool.Schedule(order, n)
    ensures Distinct(order)
  {
  }

  lemma NearerTransitive(p: Pods, q: Pods, r: Pods, b: WorkerPool.Batch, desired: nat)
    requires Nearer(p, q, b, desired) && Nearer(q, r, b, desired)
    ensures Nearer(p, r, b, desired)
  {
    hide Current;
  }

  lemma SchedulerOnCourse(fleet: Fleet, cached: Option<Pod>, listing: seq<Pod>, c: Cluster, hash: string,
                          b: WorkerPool.Batch)
    requires SchedulerLaws.NamedRead(cached, c) && SchedulerIsNoWorker(fleet.pods, c) && UpToDate(listing, fleet.pods, b)
    requires Nearer(fleet.pods, fleet.pods, b, Desired(c))
    ensures var s := Scheduler.SchedulerStep(fleet, cached, c, hash, b.faults).fleet;
            OnCourse(fleet, s, c, b) && SchedulerIsNoWorker(s.pods, c) && UpToDate(listing, s.pods, b)
  {
    hide Scheduler.SchedulerStep, UpToDate, Current, Toward;
    SchedulerStepTouchesNoWorker(fleet, cached, c, hash, b.faults);
    UntouchedWorkers(fleet.pods, Scheduler.SchedulerStep(fleet, cached, c, hash, b.faults).fleet.pods, c, b, listing);
  }

  // ---------- Runs without third-party workers ----------

  /** A reconcile with an up-to-date view of the workers, of a resource with the spec of `c`. The calls may fail in any
      way, the fan-out may be cancelled at any point, and the view of the scheduler may lag. */
  ghost predicate TidyPass(w: World, i: Inputs, choice: Choice, c: Cluster, spec: PodSpec, lib: Library) {
    && w.history != [] && Allowed(w, i, choice) && SameSpec(VersionRead(w, i), c) && i.lib == lib
    && i.templates.worker == Ok(spec)
    && SchedulerLaws.NamedRead(i.cache.scheduler, c)
    && NamesWorkers(i.names, c)
    && UpToDate(i.cache.workers, w.fleet.pods, PoolOf(c, lib.templateHash(spec)))
    && WorkerPool.Schedule(choice.workers, WorkerPool.Missing(i.cache.workers, c, lib.templateHash(spec)))
  }

  /** The environment neither adds nor removes current workers, and leaves the scheduler's name alone. */
  ghost predicate TidyEnvironment(w: World, v: World, c: Cluster, b: WorkerPool.Batch) {
    && Current(v.fleet.pods, b) == Current(w.fleet.pods, b)
    && (SchedulerIsNoWorker(w.fleet.pods, c) ==> SchedulerIsNoWorker(v.fleet.pods, c))
  }

  lemma OnCourseSelf(fleet: Fleet, c: Cluster, b: WorkerPool.Batch)
    requires Nearer(fleet.pods, fleet.pods, b, Desired(c))
    ensures OnCourse(fleet, fleet, c, b)
  {
  }

  lemma NearerSelf(pods: Pods, b: WorkerPool.Batch, desired: nat)
    ensures Nearer(pods, pods, b, desired)
  {
    hide Current;
  }

  /** What a tidy pass gives the stages, in terms of the version it read. */
  lemma TidyInputs(w: World, i: Inputs, choice: Choice, c: Cluster, spec: PodSpec, lib: Library, b: WorkerPool.Batch,
                   e: WorkerPool.Batch)
    requires TidyPass(w, i, choice, c, spec, lib) && SchedulerIsNoWorker(w.fleet.pods, c)
    requires b == PoolOf(c, lib.templateHash(spec)) && SamePool(e, b) && e.names == i.names
    ensures var d := VersionRead(w, i);
            && SchedulerLaws.NamedRead(i.cache.scheduler, d) && SchedulerIsNoWorker(w.fleet.pods, d)
            && NamesWorkers(e.names, d) && UpToDate(i.cache.workers, w.fleet.pods, e)
            && WorkerPool.Schedule(choice.workers, WorkerPool.Missing(i.cache.workers, d, e.hash))
  {
    hide UpToDate, Current, Allowed, WorkerPool.Schedule, VersionRead;
    SamePoolAgrees(e, b, w.fleet.pods);
  }

  /** Both stages, given the templates. */
  lemma StagesOnCourse(fleet: Fleet, cached: Option<Pod>, listing: seq<Pod>, c: Cluster,
                       scheduler: Result<PodSpec, Error>, spec: PodSpec, lib: Library, names: nat -> string,
                       faults: Faults, order: seq<nat>)
    requires var b := WorkerPool.BatchOf(c, spec, lib, names, faults);
             && SchedulerLaws.NamedRead(cached, c) && SchedulerIsNoWorker(fleet.pods, c) && NamesWorkers(names, c)
             && UpToDate(listing, fleet.pods, b) && WorkerPool.Schedule(order, WorkerPool.Missing(listing, c, b.hash))
    ensures var b := WorkerPool.BatchOf(c, spec, lib, names, faults);
            var s := Scheduler.SchedulerPass(fleet, cached, c, scheduler, lib, faults).fleet;
            var w := WorkerPool.WorkerPass(s, listing, c, Ok(spec), lib, names, faults, order).fleet;
            && OnCourse(fleet, s, c, b) && SchedulerIsNoWorker(s.pods, c)
            && OnCourse(fleet, w, c, b) && SchedulerIsNoWorker(w.pods, c)
            && OnCourse(fleet, fleet, c, b)
  {
    hide Scheduler.SchedulerStep, WorkerPool.Resize, UpToDate, OnCourse, Nearer, NamesWorkers, WorkerPool.Schedule,
      WorkerPool.Missing, SchedulerIsNoWorker, SchedulerLaws.NamedRead;
    var b := WorkerPool.BatchOf(c, spec, lib, names, faults);
    NearerSelf(fleet.pods, b, Desired(c));
    OnCourseSelf(fleet, c, b);
    if scheduler.Ok? {
      SchedulerOnCourse(fleet, cached, listing, c, lib.templateHash(scheduler.value), b);
    }
    var s := Scheduler.SchedulerPass(fleet, cached, c, scheduler, lib, faults).fleet;
    WorkersOnCourse(fleet, s, listing, c, b, order);
  }

  lemma TidyIsAllowed(w: World, i: Inputs, choice: Choice, c: Cluster, spec: PodSpec, lib: Library)
    requires TidyPass(w, i, choice, c, spec, lib)
    ensures w.history != [] && Allowed(w, i, choice)
    ensures CachedVersion(w.history, i.cache) && WorkerPool.Schedule(choice.services, Services.SERVICE_COUNT)
  {
  }

  /** Both stages of a tidy reconcile, whichever of them it reaches. */
  lemma TidyStages(w: World, i: Inputs, choice: Choice, c: Cluster, spec: PodSpec, lib: Library)
    requires TidyPass(w, i, choice, c, spec, lib) && SchedulerIsNoWorker(w.fleet.pods, c)
    ensures var b := PoolOf(c, lib.templateHash(spec));
            var d := VersionRead(w, i);
            && OnCourse(w.fleet, SchedulerStage(w, d, i), c, b) && SchedulerIsNoWorker(SchedulerStage(w, d, i).pods, c)
            && OnCourse(w.fleet, WorkerStage(w, d, i, choice), c, b)
            && SchedulerIsNoWorker(WorkerStage(w, d, i, choice).pods, c)
            && OnCourse(w.fleet, w.fleet, c, b)
  {
    hide Scheduler.SchedulerPass, WorkerPool.WorkerPass, UpToDate, OnCourse, Allowed, VersionRead, NamesWorkers,
      WorkerPool.Schedule, WorkerPool.Missing;
    TidyIsAllowed(w, i, choice, c, spec, lib);
    var d := VersionRead(w, i);
    var b, e := PoolOf(c, lib.templateHash(spec)), WorkerPool.BatchOf(d, spec, lib, i.names, i.faults);
    TidyInputs(w, i, choice, c, spec, lib, b, e);
    StagesOnCourse(w.fleet, i.cache.scheduler, i.cache.workers, d, i.templates.scheduler, spec, lib, i.names, i.faults,
                   choice.workers);
    SamePoolOnCourse(e, b, d, c, w.fleet, w.fleet);
    SamePoolOnCourse(e, b, d, c, w.fleet, SchedulerStage(w, d, i));
    SamePoolOnCourse(e, b, d, c, w.fleet, WorkerStage(w, d, i, choice));
  }

  lemma OnCourseByParts(before: Fleet, after: Fleet, other: Fleet, c: Cluster, b: WorkerPool.Batch)
    requires OnCourse(before, other, c, b) && SchedulerIsNoWorker(other.pods, c)
    requires after.pods == other.pods && after.writes == other.writes
    ensures OnCourse(before, after, c, b) && SchedulerIsNoWorker(after.pods, c)
  {
  }

  /** One tidy reconcile, whatever fails and wherever it stops. */
  lemma TidyPassOnCourse(w: World, i: Inputs, choice: Choice, c: Cluster, spec: PodSpec, lib: Library)
    requires TidyPass(w, i, choice, c, spec, lib) && SchedulerIsNoWorker(w.fleet.pods, c)
    ensures var b := PoolOf(c, lib.templateHash(spec));
            var after := ReconcileOnce(w, i, choice).world.fleet;
            OnCourse(w.fleet, after, c, b) && SchedulerIsNoWorker(after.pods, c)
  {
    hide ReconcileOnce, SchedulerStage, WorkerStage, TidyPass, Allowed, VersionRead, UpToDate, OnCourse,
      SchedulerIsNoWorker, Gather, Conclude, GatherRest;
    TidyIsAllowed(w, i, choice, c, spec, lib);
    FleetOf(w, i, choice);
    TidyStages(w, i, choice, c, spec, lib);
    var b, d := PoolOf(c, lib.templateHash(spec)), VersionRead(w, i);
    var after := ReconcileOnce(w, i, choice).world.fleet;
    if after.pods == w.fleet.pods && after.writes == w.fleet.writes {
      OnCourseByParts(w.fleet, after, w.fleet, c, b);
    } else if after.pods == SchedulerStage(w, d, i).pods && after.writes == SchedulerStage(w, d, i).writes {
      OnCourseByParts(w.fleet, after, SchedulerStage(w, d, i), c, b);
    } else {
      OnCourseByParts(w.fleet, after, WorkerStage(w, d, i, choice), c, b);
    }
  }

  // ---------- Runs stay on course ----------

  /** A run for the spec of `c`: reconciles with an up-to-date view of the workers, and an environment that is tidy. */
  ghost predicate TidyRun(worlds: seq<World>, actions: seq<Action>, c: Cluster, spec: PodSpec, lib: Library) {
    && Run(worlds, actions)
    && SchedulerIsNoWorker(worlds[0].fleet.pods, c)
    && forall k :: 0 <= k < |actions| ==> TidyStep(worlds[k], actions[k], worlds[k + 1], c, spec, lib)
  }

  ghost predicate TidyStep(w: World, a: Action, v: World, c: Cluster, spec: PodSpec, lib: Library)
  {
    match a
    case Environment => TidyEnvironment(w, v, c, PoolOf(c, lib.templateHash(spec)))
    case Pass(i, choice) => TidyPass(w, i, choice, c, spec, lib)
  }

  lemma TidyStepOnCourse(w: World, a: Action, v: World, c: Cluster, b: WorkerPool.Batch, spec: PodSpec, lib: Library)
    requires b == PoolOf(c, lib.templateHash(spec))
    requires Step(w, a, v) && TidyStep(w, a, v, c, spec, lib) && SchedulerIsNoWorker(w.fleet.pods, c)
    ensures OnCourse(w.fleet, v.fleet, c, b) && SchedulerIsNoWorker(v.fleet.pods, c)
  {
    hide ReconcileOnce, TidyPass, Allowed, Toward;
    match a
    case Environment =>
      NearerSelf(w.fleet.pods, b, Desired(c));
    case Pass(i, choice) =>
      TidyPassOnCourse(w, i, choice, c, spec, lib);
  }

  lemma OnCourseTransitive(f: Fleet, g: Fleet, h: Fleet, c: Cluster, b: WorkerPool.Batch)
    requires OnCourse(f, g, c, b) && OnCourse(g, h, c, b)
    ensures OnCourse(f, h, c, b)
  {
    hide Rightful, Nearer;
    NearerTransitive(f.pods, g.pods, h.pods, b, Desired(c));
    forall i | |f.writes| <= i < |h.writes|
      ensures Rightful(h.writes[i], c, b)
    {
      if i < |g.writes| { assert h.writes[i] == g.writes[i]; }
    }
  }

  /** No overshoot over runs. In any run without third-party workers, however many reconciles fail, stop early or have
      their fan-out cancelled: the number of current workers only ever comes nearer to the desired one and never passes
      it, and so does every single creation and scale-down along the way. */
  lemma {:induction false} RunsStayOnCourse(worlds: seq<World>, actions: seq<Action>, c: Cluster, spec: PodSpec,
                                            lib: Library, n: nat)
    requires TidyRun(worlds, actions, c, spec, lib) && n < |worlds|
    ensures OnCourse(worlds[0].fleet, worlds[n].fleet, c, PoolOf(c, lib.templateHash(spec)))
    ensures SchedulerIsNoWorker(worlds[n].fleet.pods, c)
  {
    hide ReconcileOnce, Step, TidyStep, OnCourse, SchedulerIsNoWorker;
    var b := PoolOf(c, lib.templateHash(spec));
    if n == 0 {
      NearerSelf(worlds[0].fleet.pods, b, Desired(c));
      OnCourseSelf(worlds[0].fleet, c, b);
    } else {
      RunsStayOnCourse(worlds, actions, c, spec, lib, n - 1);
      assert TidyStep(worlds[n - 1], actions[n - 1], worlds[n - 1 + 1], c, spec, lib);
      TidyStepOnCourse(worlds[n - 1], actions[n - 1], worlds[n], c, b, spec, lib);
      OnCourseTransitive(worlds[0].fleet, worlds[n - 1].fleet, worlds[n].fleet, c, b);
    }
  }
}
