/** api/v1alpha1/polarscluster_types.go: the PolarsCluster resource. Unions keep one optional field per alternative, as
    the Go types do, so the code's own precedence among them stays visible. */
module PolarsCluster {
  import opened Kube
  import opened EnvBuilder

  // ---------- Spec ----------

  datatype ObjectStore = ObjectStore(url: string, presignDuration: Option<string>, options: seq<EnvVar>)

  /** A storage location: shuffle data, checkpoint data and anonymous results each use a subset of the fields. */
  datatype Storage = Storage(
    s3: Option<ObjectStore>,
    abs: Option<ObjectStore>,
    gcs: Option<ObjectStore>,
    sharedFilesystem: Option<string>,
    local: Option<string>)

  datatype OnPrem = OnPrem(clientID: ValueOrSource, clientSecret: ValueOrSource, workspaceID: ValueOrSource)

  datatype RegisterNode = RegisterNode(privateAddress: ValueOrSource, publicAddress: Option<ValueOrSource>)

  datatype Cloud = Cloud(registerNode: Option<RegisterNode>)

  datatype License = License(onPrem: Option<OnPrem>, onPremEnterprise: bool, cloud: Option<Cloud>)

  /** `distTag` is empty when unset. */
  datatype ComposedRuntime = ComposedRuntime(polarsExtras: string, requirements: string, distTag: string)

  datatype Checkpoint = Checkpoint(period: Option<string>, data: Storage)

  datatype Lineage = Lineage(http: Option<string>)

  datatype ServiceAccountSpec = ServiceAccountSpec(create: bool, name: string)

  /** The fields of a user's first container that the operator inspects; `body` is everything else. */
  datatype Container = Container(name: string, hasReadinessProbe: bool, cpuRequest: Option<string>, body: string)

  datatype PodTemplate = PodTemplate(containers: seq<Container>, body: string)

  /** `serviceType` is None for an unset or empty type, `publishNotReadyAddresses` None when unset. */
  datatype ServiceConfig = ServiceConfig(
    serviceType: Option<string>,
    annotations: map<string, string>,
    publishNotReadyAddresses: Option<bool>,
    clusterIP: string)

  datatype RouteSpec = RouteSpec(
    parentRefs: seq<string>,
    hostnames: seq<string>,
    labels: map<string, string>,
    annotations: map<string, string>)

  datatype ExposedServiceConfig = ExposedServiceConfig(config: ServiceConfig, route: Option<RouteSpec>)

  datatype SchedulerServices = SchedulerServices(
    scheduler: Option<ExposedServiceConfig>,
    internal: Option<ServiceConfig>,
    observatory: Option<ExposedServiceConfig>)

  datatype SchedulerSpec = SchedulerSpec(
    services: Option<SchedulerServices>,
    podTemplate: Option<PodTemplate>,
    serviceAccount: Option<ServiceAccountSpec>)

  datatype WorkerPoolSpec = WorkerPoolSpec(
    podTemplate: Option<PodTemplate>,
    serviceAccount: Option<ServiceAccountSpec>,
    replicas: Replicas,
    heartBeatInterval: Option<string>,
    shuffleData: Option<Storage>,
    hdfs: bool,
    pyIceberg: bool)

  datatype ClusterSpec = ClusterSpec(
    version: string,
    otlpEndpoint: Option<ValueOrSource>,
    logLevel: Option<string>,
    clusterID: string,
    acceptEula: bool,
    runtime: Option<ComposedRuntime>,
    license: License,
    allowLocalSinks: bool,
    allowLocalScans: bool,
    allowAnonymousUsers: bool,
    anonymousResults: Option<Storage>,
    checkpoint: Option<Checkpoint>,
    lineage: Option<Lineage>,
    maxMetricsBytesTotal: Option<int>,
    hostMetrics: Option<bool>,
    clusterDomain: string,
    scheduler: Option<SchedulerSpec>,
    workerPool: WorkerPoolSpec)

  // ---------- Status ----------

  datatype Condition = Condition(
    ctype: string,
    status: ConditionStatus,
    reason: string,
    message: string,
    observedGeneration: nat)

  datatype SchedulerStatus = SchedulerStatus(ready: bool)

  datatype WorkerPoolStatus = WorkerPoolStatus(replicas: int32, readyReplicas: int32, selector: string)

  datatype Status = Status(
    conditions: seq<Condition>,
    observedGeneration: nat,
    scheduler: SchedulerStatus,
    workerPool: WorkerPoolStatus)

  /** One stored version of the resource. The generation counts spec changes. */
  datatype Cluster = Cluster(
    key: Key,
    uid: string,
    generation: nat,
    metadata: string,
    spec: ClusterSpec,
    status: Status)

  const COMPONENT_SCHEDULER := "scheduler"
  const COMPONENT_WORKER := "worker"

  const READY := "Ready"
  const SCHEDULER_READY := "SchedulerReady"
  const WORKER_POOL_READY := "WorkerPoolReady"
  const ROUTES_READY := "RoutesReady"

  // ---------- Names ----------

  function SchedulerPodKey(c: Cluster): Key {
    Key(c.key.namespace, c.key.name + "-scheduler")
  }

  function SchedulerServiceName(c: Cluster): string {
    c.key.name + "-scheduler"
  }

  function SchedulerInternalServiceName(c: Cluster): string {
    c.key.name + "-scheduler-internal"
  }

  function ObservatoryServiceName(c: Cluster): string {
    c.key.name + "-observatory"
  }

  function ResolveClusterID(c: Cluster): string {
    if c.spec.clusterID != "" then c.spec.clusterID else c.key.namespace + "/" + c.key.name
  }

  /** The controller reference the operator puts on what it creates. */
  function Owner(c: Cluster): OwnerRef {
    OwnerRef("PolarsCluster", c.key.name, c.uid)
  }

  function DistTag(c: Cluster): string {
    match c.spec.runtime
    case None => ""
    case Some(r) => if r.distTag != "" then r.distTag else c.spec.version
  }

  function SchedulerObjectLabels(c: Cluster): map<string, string> {
    var standard := map[
      "app.kubernetes.io/name" := "polars",
      "app.kubernetes.io/instance" := c.key.name,
      "app.kubernetes.io/component" := COMPONENT_SCHEDULER,
      "app.kubernetes.io/managed-by" := "polars-operator"];
    var versioned := if DistTag(c) != "" then standard["app.kubernetes.io/version" := DistTag(c)] else standard;
    versioned["compute.pola.rs/cluster" := c.key.name]
  }

  function Services(c: Cluster): SchedulerServices {
    if c.spec.scheduler.Some? && c.spec.scheduler.value.services.Some?
    then c.spec.scheduler.value.services.value
    else SchedulerServices(None, None, None)
  }

  function ResolveServiceAccountName(spec: Option<ServiceAccountSpec>, defaultName: string): string {
    match spec
    case None => "default"
    case Some(s) => if s.name != "" then s.name else if s.create then defaultName else "default"
  }

  function SchedulerServiceAccount(c: Cluster): Option<ServiceAccountSpec> {
    match c.spec.scheduler
    case None => None
    case Some(s) => s.serviceAccount
  }
}
