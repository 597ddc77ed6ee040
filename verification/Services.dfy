/** reconcileServices of internal/controller/polarscluster_controller.go: the scheduler, internal and observatory
    services are created or updated in parallel. */
module Services {
  import opened Kube
  import opened Errors
  import opened PolarsCluster
  import opened ApiServer
  import W = WorkerPool

  datatype Target = Target(key: Key, config: Option<ServiceConfig>, ports: seq<nat>)

  const SERVICE_COUNT := 3

  function Exposed(config: Option<ExposedServiceConfig>): Option<ServiceConfig> {
    match config case None => None case Some(e) => Some(e.config)
  }

  function Targets(c: Cluster): (r: seq<Target>)
    ensures |r| == SERVICE_COUNT
  {
    var services, ns := PolarsCluster.Services(c), c.key.namespace;
    [Target(Key(ns, SchedulerServiceName(c)), Exposed(services.scheduler), [5051]),
     Target(Key(ns, SchedulerInternalServiceName(c)), services.internal, [5050, 5049]),
     Target(Key(ns, ObservatoryServiceName(c)), Exposed(services.observatory), [3001])]
  }

  function ServiceSelector(c: Cluster): map<string, string> {
    map["compute.pola.rs/cluster" := c.key.name, "compute.pola.rs/component" := COMPONENT_SCHEDULER]
  }

  function ConfigOf(t: Target): ServiceConfig {
    match t.config
    case None => ServiceConfig(None, map[], None, "")
    case Some(s) => s
  }

  function TypeOf(config: ServiceConfig): string {
    if config.serviceType.Some? && config.serviceType.value != "" then config.serviceType.value else "ClusterIP"
  }

  function PublishOf(config: ServiceConfig): bool {
    config.publishNotReadyAddresses.None? || config.publishNotReadyAddresses.value
  }

  /** The fields every reconcile sets. */
  function Configured(svc: Service, t: Target, c: Cluster): Service {
    svc.(annotations := ConfigOf(t).annotations, serviceType := TypeOf(ConfigOf(t)), ports := t.ports,
         selector := ServiceSelector(c), publishNotReadyAddresses := PublishOf(ConfigOf(t)))
  }

  /** A new service also gets labels, an owner and the configured cluster IP. */
  function NewService(t: Target, c: Cluster): Service {
    Configured(Service(t.key, SchedulerObjectLabels(c), map[], "", ConfigOf(t).clusterIP, [], map[], false,
                       Some(Owner(c)), 0),
               t, c)
  }

  datatype Step = Step(store: ServiceStore, err: Option<Error>)

  function Classified(err: Option<Error>): Option<Error> {
    match err case None => None case Some(e) => Some(ClassifyAPIError("ServiceRejected", e))
  }

  /** reconcileService, for one of the targets; `cached` is what its read sees. */
  function ServiceStep(store: ServiceStore, cached: map<Key, Service>, c: Cluster, slot: nat, faults: Faults): Step
    requires slot < SERVICE_COUNT
  {
    var t := Targets(c)[slot];
    var get := Injected(faults(ServiceGet(slot)), if t.key in cached then None else Some(MissingError(t.key.name)));
    if get.Some? then
      if IsNotFound(get.value) then
        var err := Injected(faults(ServiceCreate(slot)), ServiceCreateError(store, NewService(t, c)));
        Step(if err.Some? then store else StoreService(store, NewService(t, c)), Classified(err))
      else Step(store, get)
    else
      var svc := Configured(cached[t.key], t, c);
      var err := Injected(faults(ServiceUpdate(slot)), ServiceUpdateError(store, svc));
      Step(if err.Some? then store else ServiceUpdated(store, svc), Classified(err))
  }

  method ReconcileService(server: Server, c: Cluster, slot: nat) returns (err: Option<Error>)
    requires slot < SERVICE_COUNT
    modifies server`services
    ensures Step(server.services, err) ==
            ServiceStep(old(server.services), server.cache.services, c, slot, server.faults)
  {
    hide IsNotFound, ClassifyAPIError, SchedulerObjectLabels, ServiceSelector, Targets;
    var t := Targets(c)[slot];
    var serviceType, annotations, publishNotReadyAddresses, clusterIP := "ClusterIP", map[], true, "";
    if t.config.Some? {
      if t.config.value.serviceType.Some? && t.config.value.serviceType.value != "" {
        serviceType := t.config.value.serviceType.value;
      }
      annotations := t.config.value.annotations;
      if t.config.value.publishNotReadyAddresses.Some? {
        publishNotReadyAddresses := t.config.value.publishNotReadyAddresses.value;
      }
      clusterIP := t.config.value.clusterIP;
    }
    var get := Injected(server.faults(ServiceGet(slot)),
                        if t.key in server.cache.services then None else Some(MissingError(t.key.name)));
    if get.Some? && IsNotFound(get.value) {
      var service := Service(t.key, SchedulerObjectLabels(c), annotations, serviceType, clusterIP, t.ports,
                             ServiceSelector(c), publishNotReadyAddresses, Some(Owner(c)), 0);
      err := server.CreateService(service, slot);
    } else if get.Some? {
      return get;
    } else {
      var existing := server.cache.services[t.key].(annotations := annotations, serviceType := serviceType,
        ports := t.ports, selector := ServiceSelector(c), publishNotReadyAddresses := publishNotReadyAddresses);
      err := server.UpdateService(existing, slot);
    }
    if err.Some? {
      return Some(ClassifyAPIError("ServiceRejected", err.value));
    }
  }

  // ---------- The fan-out ----------

  datatype Fanned = Fanned(store: ServiceStore, errs: seq<Option<Error>>)

  /** The tasks in the order they ran; a task that never ran leaves its slot empty. */
  function Fan(store: ServiceStore, cached: map<Key, Service>, c: Cluster, order: seq<nat>, faults: Faults): (r: Fanned)
    requires forall i :: 0 <= i < |order| ==> order[i] < SERVICE_COUNT
    ensures |r.errs| == SERVICE_COUNT
  {
    if order == [] then Fanned(store, [None, None, None])
    else var before, slot := Fan(store, cached, c, order[..|order| - 1], faults), order[|order| - 1];
         var step := ServiceStep(before.store, cached, c, slot, faults);
         Fanned(step.store, before.errs[slot := step.err])
  }

  function ServicesPass(store: ServiceStore, cached: map<Key, Service>, c: Cluster, order: seq<nat>,
                        faults: Faults): Step
    requires forall i :: 0 <= i < |order| ==> order[i] < SERVICE_COUNT
  {
    var fanned := Fan(store, cached, c, order, faults);
    Step(fanned.store, Reduce(fanned.errs).err)
  }

  /** Any subset of the tasks may run, in any order: each makes at most one write, and the context may be cancelled. */
  method ReconcileServices(server: Server, c: Cluster) returns (err: Option<Error>, ghost order: seq<nat>)
    modifies server`services
    ensures W.Schedule(order, SERVICE_COUNT)
    ensures Step(server.services, err) ==
            ServicesPass(old(server.services), server.cache.services, c, order, server.faults)
  {
    var errs := new Option<Error>[SERVICE_COUNT](_ => None);
    var left, cancelled := {0, 1, 2}, false;
    order := [];
    ghost var before := server.services;
    while left != {} && !cancelled
      invariant W.Schedule(order, SERVICE_COUNT) && forall i :: i in left <==> 0 <= i < SERVICE_COUNT && i !in order
      invariant Fanned(server.services, errs[..]) == Fan(before, server.cache.services, c, order, server.faults)
      decreases |left| + if cancelled then 0 else 1
    {
      if
      case true =>
        var slot: nat :| slot in left;
        var failed := ReconcileService(server, c, slot);
        errs[slot] := failed;
        assert (order + [slot])[..|order|] == order;
        order, left := order + [slot], left - {slot};
      case true =>
        cancelled := true;
    }
    var _, reduced := ReducePodErrors(errs[..]);
    err := reduced;
  }

  // ---------- Accounts ----------

  datatype AccountsStep = AccountsStep(accounts: set<Key>, err: Option<Error>)

  /** reconcileServiceAccount of internal/controller/serviceaccount.go. An account that already exists is left alone. */
  function AccountStep(accounts: set<Key>, c: Cluster, spec: Option<ServiceAccountSpec>, defaultName: string,
                       faults: Faults): AccountsStep {
    if spec.None? || !spec.value.create then AccountsStep(accounts, None)
    else
      var key := Key(c.key.namespace, ResolveServiceAccountName(spec, defaultName));
      var err := Injected(faults(AccountCreate(key)), if key in accounts then Some(ExistsError(key.name)) else None);
      if err.None? then AccountsStep(accounts + {key}, None)
      else if HasReason(err.value, AlreadyExists) then AccountsStep(accounts, None)
      else AccountsStep(accounts, Some(ClassifyAPIError("ServiceAccountRejected", err.value)))
  }

  function AccountsPass(accounts: set<Key>, c: Cluster, faults: Faults): AccountsStep {
    var scheduler := AccountStep(accounts, c, SchedulerServiceAccount(c), c.key.name + "-scheduler", faults);
    if scheduler.err.Some? then scheduler
    else AccountStep(scheduler.accounts, c, c.spec.workerPool.serviceAccount, c.key.name + "-worker", faults)
  }

  method ReconcileServiceAccount(server: Server, c: Cluster, spec: Option<ServiceAccountSpec>, defaultName: string)
    returns (err: Option<Error>)
    modifies server`accounts
    ensures AccountsStep(server.accounts, err) == AccountStep(old(server.accounts), c, spec, defaultName, server.faults)
  {
    if spec.None? || !spec.value.create {
      return None;
    }
    var key := Key(c.key.namespace, ResolveServiceAccountName(spec, defaultName));
    err := Injected(server.faults(AccountCreate(key)),
                    if key in server.accounts then Some(ExistsError(key.name)) else None);
    if err.None? {
      server.accounts := server.accounts + {key};
      return None;
    }
    if HasReason(err.value, AlreadyExists) {
      return None;
    }
    return Some(ClassifyAPIError("ServiceAccountRejected", err.value));
  }

  method ReconcileServiceAccounts(server: Server, c: Cluster) returns (err: Option<Error>)
    modifies server`accounts
    ensures AccountsStep(server.accounts, err) == AccountsPass(old(server.accounts), c, server.faults)
  {
    err := ReconcileServiceAccount(server, c, SchedulerServiceAccount(c), c.key.name + "-scheduler");
    if err.Some? {
      return;
    }
    err := ReconcileServiceAccount(server, c, c.spec.workerPool.serviceAccount, c.key.name + "-worker");
  }
}
