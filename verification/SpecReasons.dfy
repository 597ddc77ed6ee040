/** Every spec error the stages report carries a reason of its own: a condition without one would be refused by the API
    server. */
module SpecReasons {
  import opened Kube
  import opened Errors
  import opened PolarsCluster
  import opened PodTemplates
  import opened ApiServer
  import Scheduler
  import WorkerPool
  import Services

  /** If the error counts as a spec error, the reason it is reported under is not empty. */
  predicate NamedReason(e: Error) {
    As(e, SpecKind).Some? ==> As(e, SpecKind).value.reason != ""
  }

  predicate NamedReasons(err: Option<Error>) {
    err.Some? ==> NamedReason(err.value)
  }

  lemma GenuineIsNamed(e: Error)
    requires !Occurs(e, SpecKind)
    ensures NamedReason(e) && forall reason :: reason != "" ==> NamedReason(ClassifyAPIError(reason, e))
  {
    AsFindsEveryOccurrence(e, SpecKind);
    forall reason | reason != "" ensures NamedReason(ClassifyAPIError(reason, e)) { ClassifyRouting(reason, e); }
  }

  /** A reduction of errors with named reasons has one. */
  lemma ReductionIsNamed(errs: seq<Option<Error>>)
    requires forall i :: 0 <= i < |errs| ==> NamedReasons(errs[i])
    ensures NamedReasons(Reduce(errs).err)
  {
    ReduceRouting(errs);
    var at := SideKeepsOrder(errs, true);
    hide As, Reduce;
    var err := Reduce(errs).err;
    if err.Some? && IsSpecError(err.value) {
      assert errs[at[0]] == Some(Side(errs, true)[0]);
    }
  }

  lemma TemplateErrorsAreNamed(c: Cluster, lib: Library)
    ensures WorkerTemplate(c, lib).Failed? ==> NamedReason(WorkerTemplate(c, lib).error)
    ensures SchedulerTemplate(c, lib).Failed? ==> NamedReason(SchedulerTemplate(c, lib).error)
  {
    hide WorkerPatch, SchedulerPatch, ResolveServiceAccountName;
  }

  /** Templates that failed to build failed for a reason. */
  predicate NamedTemplates(t: Templates) {
    (t.worker.Failed? ==> NamedReason(t.worker.error)) && (t.scheduler.Failed? ==> NamedReason(t.scheduler.error))
  }

  lemma BuiltTemplatesAreNamed(c: Cluster, lib: Library)
    ensures NamedTemplates(TemplatesOf(c, lib))
  {
    hide WorkerTemplate, SchedulerTemplate, NamedReason;
    TemplateErrorsAreNamed(c, lib);
  }

  lemma AccountErrorIsNamed(accounts: set<Key>, c: Cluster, spec: Option<ServiceAccountSpec>, defaultName: string,
                            faults: Faults)
    requires Genuine(faults)
    ensures NamedReasons(Services.AccountStep(accounts, c, spec, defaultName, faults).err)
  {
    hide As, ClassifyAPIError, HasReason, NamedReason;
    if spec.Some? && spec.value.create {
      var key := Key(c.key.namespace, ResolveServiceAccountName(spec, defaultName));
      var err := Injected(faults(AccountCreate(key)), if key in accounts then Some(ExistsError(key.name)) else None);
      if err.Some? { GenuineIsNamed(err.value); }
    }
  }

  lemma AccountErrorsAreNamed(accounts: set<Key>, c: Cluster, faults: Faults)
    requires Genuine(faults)
    ensures NamedReasons(Services.AccountsPass(accounts, c, faults).err)
  {
    hide Services.AccountStep, NamedReason;
    var first := Services.AccountStep(accounts, c, SchedulerServiceAccount(c), c.key.name + "-scheduler", faults);
    AccountErrorIsNamed(accounts, c, SchedulerServiceAccount(c), c.key.name + "-scheduler", faults);
    AccountErrorIsNamed(first.accounts, c, c.spec.workerPool.serviceAccount, c.key.name + "-worker", faults);
  }

  lemma SchedulerStepErrorIsNamed(fleet: Fleet, cached: Option<Pod>, c: Cluster, hash: string, faults: Faults)
    requires Genuine(faults)
    ensures var r := Scheduler.SchedulerStep(fleet, cached, c, hash, faults).result; r.Failed? ==> NamedReason(r.error)
  {
    hide As, ClassifyAPIError, NamedReason, IsNotFound, Scheduler.SchedulerPod, Scheduler.Observed;
    var get := Scheduler.SchedulerGetError(cached, faults);
    if get.Some? { GenuineIsNamed(get.value); }
    if cached.Some? && DeleteError(fleet.pods, cached.value.key, faults).Some? {
      GenuineIsNamed(DeleteError(fleet.pods, cached.value.key, faults).value);
    }
    var create := CreateError(fleet.pods, Scheduler.SchedulerPod(c, hash).key, SchedulerCreate, faults);
    if create.Some? { GenuineIsNamed(create.value); }
  }

  lemma SchedulerErrorsAreNamed(fleet: Fleet, cached: Option<Pod>, c: Cluster, t: Templates, lib: Library,
                                faults: Faults)
    requires Genuine(faults) && NamedTemplates(t)
    ensures var r := Scheduler.SchedulerPass(fleet, cached, c, t.scheduler, lib, faults).result;
            r.Failed? ==> NamedReason(r.error)
  {
    hide NamedReason, Scheduler.SchedulerStep, Genuine;
    if t.scheduler.Ok? {
      SchedulerStepErrorIsNamed(fleet, cached, c, lib.templateHash(t.scheduler.value), faults);
    }
  }

  lemma ServiceErrorIsNamed(store: ServiceStore, cached: map<Key, Service>, c: Cluster, slot: nat, faults: Faults)
    requires Genuine(faults) && slot < Services.SERVICE_COUNT
    ensures NamedReasons(Services.ServiceStep(store, cached, c, slot, faults).err)
  {
    hide As, ClassifyAPIError, NamedReason, IsNotFound, Services.Configured, Services.NewService, Services.Targets;
    var t := Services.Targets(c)[slot];
    var get := Injected(faults(ServiceGet(slot)), if t.key in cached then None else Some(MissingError(t.key.name)));
    if get.Some? {
      GenuineIsNamed(get.value);
      var err := Injected(faults(ServiceCreate(slot)), ServiceCreateError(store, Services.NewService(t, c)));
      if err.Some? { GenuineIsNamed(err.value); }
    } else {
      var err := Injected(faults(ServiceUpdate(slot)),
                          ServiceUpdateError(store, Services.Configured(cached[t.key], t, c)));
      if err.Some? { GenuineIsNamed(err.value); }
    }
  }

  lemma {:induction false} ServiceErrorsAreNamed(store: ServiceStore, cached: map<Key, Service>, c: Cluster,
                                                 order: seq<nat>, faults: Faults)
    requires Genuine(faults) && forall i :: 0 <= i < |order| ==> order[i] < Services.SERVICE_COUNT
    ensures forall i :: 0 <= i < Services.SERVICE_COUNT ==>
              NamedReasons(Services.Fan(store, cached, c, order, faults).errs[i])
  {
    hide NamedReason, Services.ServiceStep, Genuine;
    if order != [] {
      var prior := order[..|order| - 1];
      ServiceErrorsAreNamed(store, cached, c, prior, faults);
      ServiceErrorIsNamed(Services.Fan(store, cached, c, prior, faults).store, cached, c, order[|order| - 1], faults);
    }
  }

  lemma ServicesErrorIsNamed(store: ServiceStore, cached: map<Key, Service>, c: Cluster, order: seq<nat>,
                             faults: Faults)
    requires Genuine(faults) && forall i :: 0 <= i < |order| ==> order[i] < Services.SERVICE_COUNT
    ensures NamedReasons(Services.ServicesPass(store, cached, c, order, faults).err)
  {
    hide NamedReasons, Services.Fan, Reduce, Genuine;
    ServiceErrorsAreNamed(store, cached, c, order, faults);
    ReductionIsNamed(Services.Fan(store, cached, c, order, faults).errs);
  }

  // ---------- Workers ----------

  lemma {:induction false} SiftErrorIsNamed(fleet: Fleet, listing: seq<Pod>, hash: string, faults: Faults)
    requires Genuine(faults)
    ensures NamedReasons(WorkerPool.Sift(fleet, listing, hash, faults).err)
  {
    hide As, NamedReason, IsNotFound;
    if listing != [] {
      SiftErrorIsNamed(fleet, listing[..|listing| - 1], hash, faults);
      DeleteErrorIsNamed(WorkerPool.Sift(fleet, listing[..|listing| - 1], hash, faults).fleet.pods,
                         listing[|listing| - 1].key, faults);
    }
  }

  lemma DeleteErrorIsNamed(pods: Pods, key: Key, faults: Faults)
    requires Genuine(faults)
    ensures NamedReasons(DeleteError(pods, key, faults))
  {
    if DeleteError(pods, key, faults).Some? { GenuineIsNamed(DeleteError(pods, key, faults).value); }
  }

  lemma {:induction false} TrimErrorIsNamed(fleet: Fleet, surplus: seq<Pod>, faults: Faults)
    requires Genuine(faults)
    ensures NamedReasons(WorkerPool.Trim(fleet, surplus, faults).err)
  {
    hide As, NamedReason, IsNotFound;
    if surplus != [] {
      TrimErrorIsNamed(fleet, surplus[..|surplus| - 1], faults);
      DeleteErrorIsNamed(WorkerPool.Trim(fleet, surplus[..|surplus| - 1], faults).fleet.pods,
                         surplus[|surplus| - 1].key, faults);
    }
  }

  ghost predicate NamedSlots(slots: map<nat, Result<Pod, Error>>) {
    forall i :: i in slots && slots[i].Failed? ==> NamedReason(slots[i].error)
  }

  lemma {:induction false} SpawnErrorsAreNamed(fleet: Fleet, order: seq<nat>, b: WorkerPool.Batch)
    requires Genuine(b.faults)
    ensures NamedSlots(WorkerPool.Spawn(fleet, order, b).slots)
  {
    hide As, NamedReason, ClassifyAPIError;
    if order != [] {
      var s, slot := WorkerPool.Spawn(fleet, order[..|order| - 1], b), order[|order| - 1];
      SpawnErrorsAreNamed(fleet, order[..|order| - 1], b);
      var err := CreateError(s.fleet.pods, WorkerPool.SlotPod(b, slot).key, WorkerCreate(slot), b.faults);
      if err.Some? { GenuineIsNamed(err.value); }
    }
  }

  lemma GrowErrorIsNamed(fleet: Fleet, active: seq<Pod>, lacking: nat, c: Cluster, b: WorkerPool.Batch, order: seq<nat>)
    requires Genuine(b.faults)
    ensures var r := WorkerPool.Grow(fleet, active, lacking, c, b, order).result; r.Failed? ==> NamedReason(r.error)
  {
    hide NamedReason, Reduce, WorkerPool.Spawn, WorkerPool.Announce, WorkerPool.ReportOn;
    SpawnErrorsAreNamed(fleet, order, b);
    ReductionIsNamed(WorkerPool.ErrorSlots(WorkerPool.Spawn(fleet, order, b).slots, lacking));
  }

  lemma ResizeErrorIsNamed(fleet: Fleet, listing: seq<Pod>, c: Cluster, b: WorkerPool.Batch, order: seq<nat>)
    requires Genuine(b.faults)
    ensures var r := WorkerPool.Resize(fleet, listing, c, b, order).result; r.Failed? ==> NamedReason(r.error)
  {
    hide NamedReason, WorkerPool.Grow, WorkerPool.Sift, WorkerPool.Trim, WorkerPool.ReportOn, Genuine;
    var s := WorkerPool.Sift(fleet, listing, b.hash, b.faults);
    SiftErrorIsNamed(fleet, listing, b.hash, b.faults);
    var desired := c.spec.workerPool.replicas as int;
    if desired > |s.active| {
      GrowErrorIsNamed(s.fleet, s.active, desired - |s.active|, c, b, order);
    } else {
      TrimErrorIsNamed(s.fleet, s.active[..|s.active| - desired], b.faults);
    }
  }

  lemma WorkerErrorsAreNamed(fleet: Fleet, listing: seq<Pod>, c: Cluster, t: Templates, lib: Library,
                             names: nat -> string, faults: Faults, order: seq<nat>)
    requires Genuine(faults) && NamedTemplates(t)
    ensures var r := WorkerPool.WorkerPass(fleet, listing, c, t.worker, lib, names, faults, order).result;
            r.Failed? ==> NamedReason(r.error)
  {
    if faults(WorkerList).Some? { GenuineIsNamed(faults(WorkerList).value); }
    hide NamedReason, WorkerPool.Resize;
    if t.worker.Ok? {
      ResizeErrorIsNamed(fleet, listing, c, WorkerPool.BatchOf(c, t.worker.value, lib, names, faults), order);
    }
  }
}
