/** The events the stages record: none of them speaks about the readiness of the cluster. */
module PassEvents {
  import opened Kube
  import opened Errors
  import opened PolarsCluster
  import opened PodTemplates
  import opened ApiServer
  import opened Conditions
  import opened Reconcile
  import Scheduler
  import WorkerPool
  import Services
  import Routes

  /** An event about a pod. */
  predicate Quiet(e: Event) {
    e.etype == Normal && e.reason != RECONCILED
  }

  ghost predicate QuietlyExtends(before: seq<Event>, after: seq<Event>) {
    before <= after && forall i :: |before| <= i < |after| ==> Quiet(after[i])
  }

  lemma QuietTransitive(a: seq<Event>, b: seq<Event>, c: seq<Event>)
    requires QuietlyExtends(a, b) && QuietlyExtends(b, c)
    ensures QuietlyExtends(a, c)
  {
    forall i | |a| <= i < |c| ensures Quiet(c[i]) {
      if i < |b| { assert c[i] == b[i]; }
    }
  }

  /** The reasons the stages use, none of which is the one for readiness. */
  lemma PodReasonsDiffer()
    ensures "SchedulerPodCreated" != RECONCILED && "SchedulerPodRecreating" != RECONCILED
    ensures "WorkerPodRecreating" != RECONCILED && "WorkerPodDeleted" != RECONCILED && "WorkerPodCreated" != RECONCILED
  {
    assert RECONCILED[0] == 'R' && "SchedulerPodCreated"[0] == 'S' && "SchedulerPodRecreating"[0] == 'S';
    assert "WorkerPodRecreating"[0] == 'W' && "WorkerPodDeleted"[0] == 'W' && "WorkerPodCreated"[0] == 'W';
  }

  lemma SchedulerEvents(fleet: Fleet, cached: Option<Pod>, c: Cluster, template: Result<PodSpec, Error>, lib: Library,
                        faults: Faults)
    ensures QuietlyExtends(fleet.events, Scheduler.SchedulerPass(fleet, cached, c, template, lib, faults).fleet.events)
  {
    hide IsNotFound, ClassifyAPIError, Scheduler.Observed;
    PodReasonsDiffer();
  }

  lemma {:induction false} SiftEvents(fleet: Fleet, listing: seq<Pod>, hash: string, faults: Faults)
    ensures QuietlyExtends(fleet.events, WorkerPool.Sift(fleet, listing, hash, faults).fleet.events)
  {
    hide IsNotFound;
    if listing != [] {
      SiftEvents(fleet, listing[..|listing| - 1], hash, faults);
      PodReasonsDiffer();
    }
  }

  lemma {:induction false} TrimEvents(fleet: Fleet, surplus: seq<Pod>, faults: Faults)
    ensures QuietlyExtends(fleet.events, WorkerPool.Trim(fleet, surplus, faults).fleet.events)
  {
    hide IsNotFound;
    if surplus != [] {
      TrimEvents(fleet, surplus[..|surplus| - 1], faults);
      PodReasonsDiffer();
    }
  }

  lemma {:induction false} SpawnEvents(fleet: Fleet, order: seq<nat>, b: WorkerPool.Batch)
    ensures WorkerPool.Spawn(fleet, order, b).fleet.events == fleet.events
  {
    hide ClassifyAPIError;
    if order != [] { SpawnEvents(fleet, order[..|order| - 1], b); }
  }

  lemma {:induction false} AnnounceEvents(fleet: Fleet, active: seq<Pod>, created: seq<Option<Pod>>)
    ensures QuietlyExtends(fleet.events, WorkerPool.Announce(fleet, active, created).fleet.events)
  {
    if created != [] {
      AnnounceEvents(fleet, active, created[..|created| - 1]);
      PodReasonsDiffer();
    }
  }

  lemma ResizeEvents(fleet: Fleet, listing: seq<Pod>, c: Cluster, b: WorkerPool.Batch, order: seq<nat>)
    ensures QuietlyExtends(fleet.events, WorkerPool.Resize(fleet, listing, c, b, order).fleet.events)
  {
    hide WorkerPool.Sift, WorkerPool.Trim, WorkerPool.Spawn, WorkerPool.Announce, QuietlyExtends, Reduce,
      WorkerPool.ReportOn;
    var s := WorkerPool.Sift(fleet, listing, b.hash, b.faults);
    SiftEvents(fleet, listing, b.hash, b.faults);
    var desired := c.spec.workerPool.replicas as int;
    if desired > |s.active| {
      var spawned := WorkerPool.Spawn(s.fleet, order, b);
      var created := WorkerPool.CreatedSlots(spawned.slots, desired - |s.active|);
      SpawnEvents(s.fleet, order, b);
      AnnounceEvents(spawned.fleet, s.active, created);
      QuietTransitive(fleet.events, s.fleet.events, WorkerPool.Announce(spawned.fleet, s.active, created).fleet.events);
    } else {
      TrimEvents(s.fleet, s.active[..|s.active| - desired], b.faults);
      QuietTransitive(fleet.events, s.fleet.events,
                      WorkerPool.Trim(s.fleet, s.active[..|s.active| - desired], b.faults).fleet.events);
    }
  }

  lemma WorkerEvents(fleet: Fleet, listing: seq<Pod>, c: Cluster, template: Result<PodSpec, Error>, lib: Library,
                     names: nat -> string, faults: Faults, order: seq<nat>)
    ensures QuietlyExtends(fleet.events,
                           WorkerPool.WorkerPass(fleet, listing, c, template, lib, names, faults, order).fleet.events)
  {
    hide WorkerPool.Resize;
    if template.Ok? {
      ResizeEvents(fleet, listing, c, WorkerPool.BatchOf(c, template.value, lib, names, faults), order);
    }
  }

  /** Whatever they read and meet, the stages only add pod events. */
  lemma GatherEvents(w: World, c: Cluster, i: Inputs, choice: Choice)
    requires WorkerPool.Schedule(choice.services, Services.SERVICE_COUNT)
    ensures QuietlyExtends(w.fleet.events, Gather(w, c, i, choice).world.fleet.events)
    ensures Gather(w, c, i, choice).world.history == w.history
  {
    hide Services.ServicesPass, WorkerPool.WorkerPass, Routes.RoutesPass, Services.AccountsPass,
      Scheduler.SchedulerPass, QuietlyExtends, ReportUnder, VersionError;
    var scheduler := Scheduler.SchedulerPass(w.fleet, i.cache.scheduler, c, i.templates.scheduler, i.lib, i.faults);
    SchedulerEvents(w.fleet, i.cache.scheduler, c, i.templates.scheduler, i.lib, i.faults);
    var workers := WorkerPool.WorkerPass(scheduler.fleet, i.cache.workers, c, i.templates.worker, i.lib, i.names, i.faults,
                                         choice.workers);
    WorkerEvents(scheduler.fleet, i.cache.workers, c, i.templates.worker, i.lib, i.names, i.faults, choice.workers);
    QuietTransitive(w.fleet.events, scheduler.fleet.events, workers.fleet.events);
    QuietSelf(w.fleet.events);
  }

  lemma QuietSelf(events: seq<Event>)
    ensures QuietlyExtends(events, events)
  {
  }
}
