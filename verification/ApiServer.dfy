/** The API server the operator talks to, its caches, and the faults it may inject. A failed write changes nothing; a
    write based on an out-of-date version of an object is refused. */
module ApiServer {
  import opened Kube
  import opened Errors
  import opened PolarsCluster

  /** Every call a reconcile can make. Each is made at most once per reconcile. */
  datatype CallSite =
    | ClusterGet
    | AccountCreate(key: Key)
    | SchedulerGet
    | SchedulerCreate
    | PodDelete(key: Key)
    | WorkerList
    | WorkerCreate(slot: nat)
    | ServiceGet(slot: nat)
    | ServiceCreate(slot: nat)
    | ServiceUpdate(slot: nat)
    | RouteGet(id: RouteKey)
    | RouteCreate(id: RouteKey)
    | RouteUpdate(id: RouteKey)
    | RouteDelete(id: RouteKey)
    | StatusUpdate

  /** The error injected into a call, if any. */
  type Faults = CallSite -> Option<Error>

  ghost predicate FaultFree(faults: Faults) {
    forall site :: faults(site) == None
  }

  /** Spec errors are the operator's own: no call to the server returns one. */
  ghost predicate Genuine(faults: Faults) {
    forall site :: faults(site).Some? ==> !Occurs(faults(site).value, SpecKind)
  }

  /** What the reads of one reconcile return. `cluster` is the index of the cached version of the resource. */
  datatype Cache = Cache(
    cluster: Option<nat>,
    scheduler: Option<Pod>,
    workers: seq<Pod>,
    services: map<Key, Service>,
    routes: map<RouteKey, Route>)

  // ---------- Pods ----------

  datatype WriteKind = CreateScheduler | ReplaceScheduler | CreateWorker | ReplaceWorker | ScaleDown

  /** One write the server accepted, with the stored pods around it; it accepts a repeated delete too. */
  datatype PodWrite = PodWrite(kind: WriteKind, key: Key, before: Pods, after: Pods)

  /** The pods, the writes made to them and the events recorded so far. */
  datatype Fleet = Fleet(pods: Pods, writes: seq<PodWrite>, events: seq<Event>)

  /** A deleted pod keeps its name while it terminates. */
  function MarkTerminating(pods: Pods, key: Key): Pods
    requires key in pods
  {
    pods[key := pods[key].(terminating := true)]
  }

  function DeleteError(pods: Pods, key: Key, faults: Faults): Option<Error> {
    if faults(PodDelete(key)).Some? then faults(PodDelete(key))
    else if key !in pods then Some(Api(NotFound, "pods \"" + key.name + "\" not found"))
    else None
  }

  function DeleteFrom(fleet: Fleet, key: Key, kind: WriteKind, faults: Faults): Fleet {
    if DeleteError(fleet.pods, key, faults).Some? || key !in fleet.pods then fleet
    else
      var after := MarkTerminating(fleet.pods, key);
      fleet.(pods := after, writes := fleet.writes + [PodWrite(kind, key, fleet.pods, after)])
  }

  function CreateError(pods: Pods, key: Key, site: CallSite, faults: Faults): Option<Error> {
    if faults(site).Some? then faults(site)
    else if key in pods then Some(Api(AlreadyExists, "pods \"" + key.name + "\" already exists"))
    else None
  }

  function CreateIn(fleet: Fleet, pod: Pod, kind: WriteKind, site: CallSite, faults: Faults): Fleet {
    if CreateError(fleet.pods, pod.key, site, faults).Some? then fleet
    else
      var after := fleet.pods[pod.key := pod];
      fleet.(pods := after, writes := fleet.writes + [PodWrite(kind, pod.key, fleet.pods, after)])
  }

  function Record(fleet: Fleet, event: Event): Fleet {
    fleet.(events := fleet.events + [event])
  }

  // ---------- Versioned objects ----------

  /** Services and routes carry resource versions drawn from one counter. */
  datatype Versioned<K(==), V> = Versioned(items: map<K, V>, revision: nat)

  function Lookup<K(==), V>(m: map<K, V>, k: K): Option<V> {
    if k in m then Some(m[k]) else None
  }

  function MissingError(name: string): Error {
    Api(NotFound, "\"" + name + "\" not found")
  }

  function ConflictError(name: string): Error {
    Api(Conflict, "\"" + name + "\": the object has been modified")
  }

  function ExistsError(name: string): Error {
    Api(AlreadyExists, "\"" + name + "\" already exists")
  }

  /** The error of a write that failed for no injected reason, or of an injected one. */
  function Injected(fault: Option<Error>, otherwise: Option<Error>): Option<Error> {
    if fault.Some? then fault else otherwise
  }

  type ServiceStore = Versioned<Key, Service>

  function StoreService(store: ServiceStore, svc: Service): ServiceStore {
    Versioned(store.items[svc.key := svc.(version := store.revision + 1)], store.revision + 1)
  }

  function ServiceCreateError(store: ServiceStore, svc: Service): Option<Error> {
    if svc.key in store.items then Some(ExistsError(svc.key.name)) else None
  }

  function ServiceUpdateError(store: ServiceStore, svc: Service): Option<Error> {
    if svc.key !in store.items then Some(MissingError(svc.key.name))
    else if store.items[svc.key].version != svc.version then Some(ConflictError(svc.key.name))
    else None
  }

  /** An accepted update that changes nothing makes no new version. */
  function ServiceUpdated(store: ServiceStore, svc: Service): ServiceStore {
    if svc.key in store.items && store.items[svc.key] == svc then store else StoreService(store, svc)
  }

  type RouteStore = Versioned<RouteKey, Route>

  function StoreRoute(store: RouteStore, route: Route): RouteStore {
    Versioned(store.items[route.id := route.(version := store.revision + 1)], store.revision + 1)
  }

  function RouteCreateError(store: RouteStore, route: Route): Option<Error> {
    if route.id in store.items then Some(ExistsError(route.id.key.name)) else None
  }

  function RouteUpdateError(store: RouteStore, route: Route): Option<Error> {
    if route.id !in store.items then Some(MissingError(route.id.key.name))
    else if store.items[route.id].version != route.version then Some(ConflictError(route.id.key.name))
    else None
  }

  function RouteUpdated(store: RouteStore, route: Route): RouteStore {
    if route.id in store.items && store.items[route.id] == route then store else StoreRoute(store, route)
  }

  function RouteDeleteError(store: RouteStore, id: RouteKey): Option<Error> {
    if id !in store.items then Some(MissingError(id.key.name)) else None
  }

  /** A delete is by name; an object with finalizers stays, terminating. */
  function RouteDeleted(store: RouteStore, id: RouteKey): RouteStore
    requires id in store.items
  {
    var route := store.items[id];
    if !route.finalized then Versioned(store.items - {id}, store.revision + 1)
    else if route.terminating then store
    else Versioned(store.items[id := route.(terminating := true, version := store.revision + 1)], store.revision + 1)
  }

  // ---------- The cluster resource ----------

  /** A status update is accepted when the object read is still the current version. */
  function StatusError(history: seq<Cluster>, read: nat, faults: Faults): Option<Error> {
    if faults(StatusUpdate).Some? then faults(StatusUpdate)
    else if read + 1 != |history| then Some(ConflictError("polarscluster"))
    else None
  }

  /** The stored versions after a status update; an accepted update that changes nothing makes no new version. */
  function StatusHistory(history: seq<Cluster>, read: nat, status: Status, faults: Faults): seq<Cluster> {
    if StatusError(history, read, faults).Some? || read >= |history| || history[read].status == status then history
    else history + [history[read].(status := status)]
  }

  class Server {
    /** Every stored version of the PolarsCluster, oldest first; the last one is current. */
    var history: seq<Cluster>
    var pods: Pods
    var accounts: set<Key>
    var services: Versioned<Key, Service>
    var routes: Versioned<RouteKey, Route>
    var events: seq<Event>
    ghost var writes: seq<PodWrite>

    var cache: Cache
    var faults: Faults
    /** The suffix-bearing name the server picks for the pod of each creation slot. */
    var names: nat -> string

    ghost function Snapshot(): Fleet
      reads this
    {
      Fleet(pods, writes, events)
    }

    method Eventf(event: Event)
      modifies this`events
      ensures events == old(events) + [event]
    {
      events := events + [event];
    }

    method DeletePod(key: Key, ghost kind: WriteKind) returns (err: Option<Error>)
      modifies this`pods, this`writes
      ensures err == DeleteError(old(pods), key, faults)
      ensures Snapshot() == DeleteFrom(old(Snapshot()), key, kind, faults)
    {
      err := DeleteError(pods, key, faults);
      if err.None? {
        writes := writes + [PodWrite(kind, key, pods, MarkTerminating(pods, key))];
        pods := MarkTerminating(pods, key);
      }
    }

    method CreatePod(pod: Pod, site: CallSite, ghost kind: WriteKind) returns (err: Option<Error>)
      modifies this`pods, this`writes
      ensures err == CreateError(old(pods), pod.key, site, faults)
      ensures Snapshot() == CreateIn(old(Snapshot()), pod, kind, site, faults)
    {
      err := CreateError(pods, pod.key, site, faults);
      if err.None? {
        writes := writes + [PodWrite(kind, pod.key, pods, pods[pod.key := pod])];
        pods := pods[pod.key := pod];
      }
    }

    method UpdateStatus(read: nat, status: Status) returns (err: Option<Error>)
      requires read < |history|
      modifies this`history
      ensures err == StatusError(old(history), read, faults)
      ensures history == StatusHistory(old(history), read, status, faults)
    {
      err := StatusError(history, read, faults);
      if err.None? && history[read].status != status {
        history := history + [history[read].(status := status)];
      }
    }

    method CreateService(svc: Service, slot: nat) returns (err: Option<Error>)
      modifies this`services
      ensures err == Injected(faults(ServiceCreate(slot)), ServiceCreateError(old(services), svc))
      ensures services == if err.Some? then old(services) else StoreService(old(services), svc)
    {
      err := Injected(faults(ServiceCreate(slot)), ServiceCreateError(services, svc));
      if err.None? {
        services := StoreService(services, svc);
      }
    }

    method UpdateService(svc: Service, slot: nat) returns (err: Option<Error>)
      modifies this`services
      ensures err == Injected(faults(ServiceUpdate(slot)), ServiceUpdateError(old(services), svc))
      ensures services == if err.Some? then old(services) else ServiceUpdated(old(services), svc)
    {
      err := Injected(faults(ServiceUpdate(slot)), ServiceUpdateError(services, svc));
      if err.None? {
        services := ServiceUpdated(services, svc);
      }
    }

    method CreateRoute(route: Route) returns (err: Option<Error>)
      modifies this`routes
      ensures err == Injected(faults(RouteCreate(route.id)), RouteCreateError(old(routes), route))
      ensures routes == if err.Some? then old(routes) else StoreRoute(old(routes), route)
    {
      err := Injected(faults(RouteCreate(route.id)), RouteCreateError(routes, route));
      if err.None? {
        routes := StoreRoute(routes, route);
      }
    }

    method UpdateRoute(route: Route) returns (err: Option<Error>)
      modifies this`routes
      ensures err == Injected(faults(RouteUpdate(route.id)), RouteUpdateError(old(routes), route))
      ensures routes == if err.Some? then old(routes) else RouteUpdated(old(routes), route)
    {
      err := Injected(faults(RouteUpdate(route.id)), RouteUpdateError(routes, route));
      if err.None? {
        routes := RouteUpdated(routes, route);
      }
    }

    method DeleteRoute(id: RouteKey) returns (err: Option<Error>)
      modifies this`routes
      ensures err == Injected(faults(RouteDelete(id)), RouteDeleteError(old(routes), id))
      ensures routes == if err.Some? || id !in old(routes).items then old(routes) else RouteDeleted(old(routes), id)
    {
      err := Injected(faults(RouteDelete(id)), RouteDeleteError(routes, id));
      if err.None? {
        routes := RouteDeleted(routes, id);
      }
    }
  }
}
