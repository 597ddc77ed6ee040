/** The environment the operator computes for scheduler and worker pods: internal/controller/scheduler_pod.go,
    internal/controller/worker_pod.go and the env part of internal/controller/pod_common.go. */
module PodEnv {
  import opened Kube
  import opened EnvBuilder
  import opened PolarsCluster

  const CUBLET := "PC_CUBLET"
  const MONITORING := Qualify(CUBLET, "monitoring")
  const HOST_METRICS := Qualify(MONITORING, "host_metrics")
  const WORKER := Qualify(CUBLET, "worker")
  const EXTRAS := Qualify(WORKER, "extras")
  const SHUFFLE := Qualify(WORKER, "shuffle_location")
  const CHECKPOINT_DATA := Qualify(WORKER, "checkpoint_location")
  const SCHEDULER := Qualify(CUBLET, "scheduler")
  const ANONYMOUS_RESULTS := Qualify(SCHEDULER, "anonymous_result_location")
  const CHECKPOINT := Qualify(SCHEDULER, "checkpoint")
  const OBSERVATORY := Qualify(CUBLET, "observatory")
  const STATIC_LEADER := Qualify(CUBLET, "static_leader")
  const LINEAGE := Qualify(CUBLET, "lineage")
  const LICENSE := Qualify(CUBLET, "license")
  const ON_PREM := Qualify(LICENSE, "on_prem")
  const ON_PREM_ENTERPRISE := Qualify(LICENSE, "on_prem_enterprise")
  const CLOUD := Qualify(LICENSE, "cloud")
  const REGISTER_NODE := Qualify(CLOUD, "register_node")

  const POD_NAME := FieldPath("metadata.name")
  const POD_IP := FieldPath("status.podIP")

  const LICENSE_PATH := "/mnt/license/license.json"
  const DEFAULT_METRICS_BYTES := 104857600

  function HostMetricsDisabled(c: Cluster): bool {
    c.spec.hostMetrics == Some(false)
  }

  function LogLevel(c: Cluster): string {
    if c.spec.logLevel.Some? then c.spec.logLevel.value else "info"
  }

  // ---------- Storage locations ----------

  // Each function below gives the variables collected so far followed by those one part of the code adds.

  /** url, then the presigned lifetime where the location has one, then the user's options. */
  function StoreEnv(vars: seq<EnvVar>, prefix: string, store: ObjectStore, presigned: bool): seq<EnvVar> {
    var located := vars + [Literal(prefix, "url", store.url)];
    var timed := if presigned && store.presignDuration.Some?
                 then located + [Literal(prefix, "presign_duration", store.presignDuration.value)]
                 else located;
    timed + Scoped(prefix, store.options)
  }

  /** The object store a storage location uses, with its section name; S3 wins over ABS over GCS. */
  function ActiveStore(s: Storage): Option<(string, ObjectStore)> {
    if s.s3.Some? then Some(("s3", s.s3.value))
    else if s.abs.Some? then Some(("abs", s.abs.value))
    else if s.gcs.Some? then Some(("gcs", s.gcs.value))
    else None
  }

  const DEFAULT_SHUFFLE_PATH := "/app/shuffle_data/shuffle_data"

  /** Unset shuffle data, and local data without a path, use the operator's own directory. */
  function ShuffleEnv(vars: seq<EnvVar>, prefix: string, data: Option<Storage>): seq<EnvVar> {
    if data.Some? && ActiveStore(data.value).Some? then
      var (section, store) := ActiveStore(data.value).value;
      StoreEnv(vars, Qualify(prefix, section), store, false)
    else if data.Some? && data.value.sharedFilesystem.Some? then
      vars + [Literal(Qualify(prefix, "shared_filesystem"), "path", data.value.sharedFilesystem.value)]
    else if data.Some? && data.value.local.Some? && data.value.local.value != "" then
      vars + [Literal(Qualify(prefix, "local"), "path", data.value.local.value)]
    else
      vars + [Literal(Qualify(prefix, "local"), "path", DEFAULT_SHUFFLE_PATH)]
  }

  function CheckpointEnv(vars: seq<EnvVar>, prefix: string, checkpoint: Option<Checkpoint>): seq<EnvVar> {
    if checkpoint.None? then vars
    else
      var data := checkpoint.value.data;
      if ActiveStore(data).Some? then
        var (section, store) := ActiveStore(data).value;
        StoreEnv(vars, Qualify(prefix, section), store, false)
      else if data.sharedFilesystem.Some? then
        vars + [Literal(Qualify(prefix, "shared_filesystem"), "path", data.sharedFilesystem.value)]
      else vars
  }

  function AnonymousResultsEnv(vars: seq<EnvVar>, prefix: string, results: Option<Storage>): seq<EnvVar> {
    if results.None? then vars
    else if ActiveStore(results.value).Some? then
      var (section, store) := ActiveStore(results.value).value;
      StoreEnv(vars, Qualify(prefix, section), store, true)
    else if results.value.sharedFilesystem.Some? then
      vars + [Literal(Qualify(prefix, "local"), "path", results.value.sharedFilesystem.value)]
    else vars
  }

  method AppendStore(b: Builder, store: ObjectStore, presigned: bool)
    modifies b.list
    ensures b.list.vars == StoreEnv(old(b.list.vars), b.prefix, store, presigned)
  {
    b.String("url", store.url);
    if presigned && store.presignDuration.Some? {
      b.String("presign_duration", store.presignDuration.value);
    }
    b.Options(store.options);
  }

  method ComputedShuffleDataConfig(b: Builder, data: Option<Storage>)
    modifies b.list
    ensures b.list.vars == ShuffleEnv(old(b.list.vars), b.prefix, data)
  {
    if data.Some? {
      var shuffle := data.value;
      if shuffle.s3.Some? {
        var s3 := b.Section("s3");
        AppendStore(s3, shuffle.s3.value, false);
        return;
      } else if shuffle.abs.Some? {
        var abs := b.Section("abs");
        AppendStore(abs, shuffle.abs.value, false);
        return;
      } else if shuffle.gcs.Some? {
        var gcs := b.Section("gcs");
        AppendStore(gcs, shuffle.gcs.value, false);
        return;
      } else if shuffle.sharedFilesystem.Some? {
        var shared := b.Section("shared_filesystem");
        shared.String("path", shuffle.sharedFilesystem.value);
        return;
      }
    }
    var local := b.Section("local");
    if data.Some? && data.value.local.Some? && data.value.local.value != "" {
      local.String("path", data.value.local.value);
      return;
    }
    local.String("path", DEFAULT_SHUFFLE_PATH);
  }

  method ComputedCheckpointDataEnv(b: Builder, checkpoint: Option<Checkpoint>)
    modifies b.list
    ensures b.list.vars == CheckpointEnv(old(b.list.vars), b.prefix, checkpoint)
  {
    if checkpoint.None? {
      return;
    }
    var data := checkpoint.value.data;
    if data.s3.Some? {
      var s3 := b.Section("s3");
      AppendStore(s3, data.s3.value, false);
    } else if data.abs.Some? {
      var abs := b.Section("abs");
      AppendStore(abs, data.abs.value, false);
    } else if data.gcs.Some? {
      var gcs := b.Section("gcs");
      AppendStore(gcs, data.gcs.value, false);
    } else if data.sharedFilesystem.Some? {
      var shared := b.Section("shared_filesystem");
      shared.String("path", data.sharedFilesystem.value);
    }
  }

  method ComputedAnonymousResultsEnv(b: Builder, results: Option<Storage>)
    modifies b.list
    ensures b.list.vars == AnonymousResultsEnv(old(b.list.vars), b.prefix, results)
  {
    if results.None? {
      return;
    }
    var data := results.value;
    if data.s3.Some? {
      var s3 := b.Section("s3");
      AppendStore(s3, data.s3.value, true);
    } else if data.abs.Some? {
      var abs := b.Section("abs");
      AppendStore(abs, data.abs.value, true);
    } else if data.gcs.Some? {
      var gcs := b.Section("gcs");
      AppendStore(gcs, data.gcs.value, true);
    } else if data.sharedFilesystem.Some? {
      var local := b.Section("local");
      local.String("path", data.sharedFilesystem.value);
    }
  }

  // ---------- The composed runtime ----------

  function RuntimeEnv(runtime: Option<ComposedRuntime>): seq<EnvVar> {
    match runtime
    case None => []
    case Some(r) =>
      [EnvVar("POLARS_EXTRAS", if r.polarsExtras == "" then "cloudpickle" else r.polarsExtras, None),
       EnvVar("POLARS_WHL_DIR", "/emptydir/whl", None),
       EnvVar("UV_PATH", "/emptydir/bin/uv", None)]
      + (if r.requirements == "" then []
       else [EnvVar("PYTHON_REQUIREMENTS", "/requirements/requirements.txt", None)])
  }

  // ---------- Workers ----------

  function InternalHostname(c: Cluster): string {
    var service := SchedulerInternalServiceName(c);
    if c.spec.clusterDomain == "" then service
    else service + "." + c.key.namespace + ".svc." + c.spec.clusterDomain + "."
  }

  function WorkerIdentityEnv(vars: seq<EnvVar>, c: Cluster): seq<EnvVar> {
    var monitored := vars
      + [EnvVar("RUST_BACKTRACE", "full", None)]
      + [Literal(MONITORING, "enabled", "true")];
    var measured := if HostMetricsDisabled(c) then monitored + [Literal(HOST_METRICS, "enabled", "false")] else monitored;
    measured
    + [Literal(WORKER, "enabled", "true")]
    + [Literal(CUBLET, "cluster_id", ResolveClusterID(c))]
    + [Sourced(CUBLET, "instance_id", POD_NAME)]
  }

  function WorkerLeaderEnv(vars: seq<EnvVar>, c: Cluster): seq<EnvVar> {
    vars
    + [Literal(STATIC_LEADER, "leader_instance_id", "not-me")]
    + [Literal(STATIC_LEADER, "scheduler_service__public_addr__hostname", InternalHostname(c))]
    + [Literal(STATIC_LEADER, "scheduler_service__public_addr__port", "5050")]
    + [Literal(STATIC_LEADER, "observatory_service__public_addr__hostname", InternalHostname(c))]
    + [Literal(STATIC_LEADER, "observatory_service__public_addr__port", "5049")]
  }

  function HeartBeat(wp: WorkerPoolSpec): string {
    if wp.heartBeatInterval.Some? then wp.heartBeatInterval.value else "5s"
  }

  function WorkerServiceEnv(vars: seq<EnvVar>, wp: WorkerPoolSpec): seq<EnvVar> {
    var services := vars
      + [Sourced(WORKER, "task_service__public_addr__ip", POD_IP)]
      + [Sourced(WORKER, "shuffle_service__public_addr__ip", POD_IP)]
      + [Literal(WORKER, "heartbeat_period", HeartBeat(wp))];
    var hdfs := if wp.hdfs then services + [Literal(Qualify(EXTRAS, "hdfs"), "enabled", "true")] else services;
    if wp.pyIceberg then hdfs + [Literal(Qualify(EXTRAS, "pyiceberg"), "enabled", "true")] else hdfs
  }

  function WorkerProcessEnv(vars: seq<EnvVar>, c: Cluster): seq<EnvVar> {
    var named := vars
      + [EnvVar("POLARS_TEMP_DIR", "/app/temporary_data/temporary_data", None)]
      + [EnvVar("OTEL_SERVICE_NAME", c.key.name + "-worker", None)];
    if c.spec.acceptEula then named + [EnvVar("POLARS_EULA_ACCEPTED", "yes", None)] else named
  }

  function WorkerLicenseEnv(vars: seq<EnvVar>, license: License): seq<EnvVar> {
    if license.onPrem.Some? then vars + [Literal(ON_PREM, "enabled", "true")]
    else if license.onPremEnterprise then vars + [Literal(ON_PREM_ENTERPRISE, "license_path", LICENSE_PATH)]
    else vars
  }

  function TelemetryEnv(vars: seq<EnvVar>, c: Cluster): seq<EnvVar> {
    var endpoint := if c.spec.otlpEndpoint.Some?
                    then vars + [Either("", "OTLP_ENDPOINT", c.spec.otlpEndpoint.value)] else vars;
    endpoint + [EnvVar("PLC_LOG_LEVEL", LogLevel(c), None)]
  }

  function CpuEnv(vars: seq<EnvVar>, cpuRequest: Option<string>): seq<EnvVar> {
    if cpuRequest.Some? then vars + [Literal(CUBLET, "cpu_reserved", cpuRequest.value)] else vars
  }

  function WorkerRoleEnv(vars: seq<EnvVar>, c: Cluster): seq<EnvVar> {
    WorkerServiceEnv(WorkerLeaderEnv(WorkerIdentityEnv(vars, c), c), c.spec.workerPool)
  }

  function WorkerAccessEnv(vars: seq<EnvVar>, c: Cluster): seq<EnvVar> {
    TelemetryEnv(WorkerLicenseEnv(WorkerProcessEnv(vars, c), c.spec.license), c)
  }

  function WorkerPlacementEnv(vars: seq<EnvVar>, c: Cluster, cpuRequest: Option<string>): seq<EnvVar> {
    var shuffled := ShuffleEnv(CpuEnv(vars, cpuRequest), SHUFFLE, c.spec.workerPool.shuffleData);
    CheckpointEnv(shuffled, CHECKPOINT_DATA, c.spec.checkpoint)
  }

  function WorkerEnv(c: Cluster, cpuRequest: Option<string>): seq<EnvVar> {
    WorkerPlacementEnv(WorkerAccessEnv(WorkerRoleEnv([], c), c), c, cpuRequest) + RuntimeEnv(c.spec.runtime)
  }

  /** `root` is the tree's root builder; the four sections under PC_CUBLET are the ones the caller has opened. */
  method AppendWorkerIdentity(root: Builder, cublet: Builder, monitoring: Builder, worker: Builder, c: Cluster)
    requires root.list == cublet.list == monitoring.list == worker.list
    requires root.prefix == "" && cublet.prefix == CUBLET && monitoring.prefix == MONITORING && worker.prefix == WORKER
    modifies root.list
    ensures root.list.vars == WorkerIdentityEnv(old(root.list.vars), c)
  {
    root.String("RUST_BACKTRACE", "full");
    monitoring.Bool("enabled", true);
    if HostMetricsDisabled(c) {
      var hostMetrics := monitoring.Section("host_metrics");
      hostMetrics.Bool("enabled", false);
    }
    worker.Bool("enabled", true);
    cublet.String("cluster_id", ResolveClusterID(c));
    cublet.FieldRef("instance_id", "metadata.name");
  }

  method AppendWorkerLeader(staticLeader: Builder, c: Cluster)
    requires staticLeader.prefix == STATIC_LEADER
    modifies staticLeader.list
    ensures staticLeader.list.vars == WorkerLeaderEnv(old(staticLeader.list.vars), c)
  {
    var internalHostname := InternalHostname(c);
    staticLeader.String("leader_instance_id", "not-me");
    staticLeader.String("scheduler_service__public_addr__hostname", internalHostname);
    staticLeader.String("scheduler_service__public_addr__port", "5050");
    staticLeader.String("observatory_service__public_addr__hostname", internalHostname);
    staticLeader.String("observatory_service__public_addr__port", "5049");
  }

  method AppendWorkerServices(worker: Builder, c: Cluster)
    requires worker.prefix == WORKER
    modifies worker.list
    ensures worker.list.vars == WorkerServiceEnv(old(worker.list.vars), c.spec.workerPool)
  {
    var wp := c.spec.workerPool;
    worker.FieldRef("task_service__public_addr__ip", "status.podIP");
    worker.FieldRef("shuffle_service__public_addr__ip", "status.podIP");
    worker.String("heartbeat_period", HeartBeat(wp));
    var extras := worker.Section("extras");
    if wp.hdfs {
      var hdfs := extras.Section("hdfs");
      hdfs.Bool("enabled", true);
    }
    if wp.pyIceberg {
      var pyIceberg := extras.Section("pyiceberg");
      pyIceberg.Bool("enabled", true);
    }
  }

  method AppendWorkerProcess(root: Builder, c: Cluster)
    requires root.prefix == ""
    modifies root.list
    ensures root.list.vars == WorkerProcessEnv(old(root.list.vars), c)
  {
    root.String("POLARS_TEMP_DIR", "/app/temporary_data/temporary_data");
    root.String("OTEL_SERVICE_NAME", c.key.name + "-worker");
    if c.spec.acceptEula {
      root.String("POLARS_EULA_ACCEPTED", "yes");
    }
  }

  method AppendWorkerLicense(cublet: Builder, c: Cluster)
    requires cublet.prefix == CUBLET
    modifies cublet.list
    ensures cublet.list.vars == WorkerLicenseEnv(old(cublet.list.vars), c.spec.license)
  {
    var license := cublet.Section("license");
    if c.spec.license.onPrem.Some? {
      var onPrem := license.Section("on_prem");
      onPrem.Bool("enabled", true);
    } else if c.spec.license.onPremEnterprise {
      var enterprise := license.Section("on_prem_enterprise");
      enterprise.String("license_path", LICENSE_PATH);
    }
  }

  method AppendTelemetry(root: Builder, c: Cluster)
    requires root.prefix == ""
    modifies root.list
    ensures root.list.vars == TelemetryEnv(old(root.list.vars), c)
  {
    if c.spec.otlpEndpoint.Some? {
      root.ValueOrSource("OTLP_ENDPOINT", c.spec.otlpEndpoint.value);
    }
    root.String("PLC_LOG_LEVEL", LogLevel(c));
  }

  /** The env part of computedWorkerPodSpec. */
  method ComputedWorkerEnv(c: Cluster, cpuRequest: Option<string>) returns (env: seq<EnvVar>)
    ensures env == WorkerEnv(c, cpuRequest)
  {
    var b := new Builder();
    var cublet := b.Section("PC_CUBLET");
    var worker := cublet.Section("worker");
    AppendWorkerRole(b, cublet, worker, c);
    AppendWorkerAccess(b, cublet, c);
    AppendWorkerPlacement(cublet, worker, c, cpuRequest);
    var vars := b.Vars();
    env := vars + RuntimeEnv(c.spec.runtime);
  }

  method AppendWorkerRole(root: Builder, cublet: Builder, worker: Builder, c: Cluster)
    requires root.list == cublet.list == worker.list
    requires root.prefix == "" && cublet.prefix == CUBLET && worker.prefix == WORKER
    modifies root.list
    ensures root.list.vars == WorkerRoleEnv(old(root.list.vars), c)
  {
    var monitoring := cublet.Section("monitoring");
    var staticLeader := cublet.Section("static_leader");
    AppendWorkerIdentity(root, cublet, monitoring, worker, c);
    AppendWorkerLeader(staticLeader, c);
    AppendWorkerServices(worker, c);
  }

  method AppendWorkerAccess(root: Builder, cublet: Builder, c: Cluster)
    requires root.list == cublet.list && root.prefix == "" && cublet.prefix == CUBLET
    modifies root.list
    ensures root.list.vars == WorkerAccessEnv(old(root.list.vars), c)
  {
    AppendWorkerProcess(root, c);
    AppendWorkerLicense(cublet, c);
    AppendTelemetry(root, c);
  }

  method AppendWorkerPlacement(cublet: Builder, worker: Builder, c: Cluster, cpuRequest: Option<string>)
    requires cublet.list == worker.list && cublet.prefix == CUBLET && worker.prefix == WORKER
    modifies cublet.list
    ensures cublet.list.vars == WorkerPlacementEnv(old(cublet.list.vars), c, cpuRequest)
  {
    if cpuRequest.Some? {
      cublet.String("cpu_reserved", cpuRequest.value);
    }
    var shuffle := worker.Section("shuffle_location");
    ComputedShuffleDataConfig(shuffle, c.spec.workerPool.shuffleData);
    var checkpoint := worker.Section("checkpoint_location");
    ComputedCheckpointDataEnv(checkpoint, c.spec.checkpoint);
  }

  // ---------- Scheduler ----------

  function SchedulerIdentityEnv(vars: seq<EnvVar>, c: Cluster): seq<EnvVar> {
    vars
    + [EnvVar("RUST_BACKTRACE", "full", None)]
    + [Literal(SCHEDULER, "enabled", "true")]
    + [Literal(CUBLET, "cluster_id", ResolveClusterID(c))]
    + [Sourced(CUBLET, "instance_id", POD_NAME)]
  }

  function SchedulerLeaderEnv(vars: seq<EnvVar>): seq<EnvVar> {
    vars
    + [Sourced(STATIC_LEADER, "leader_instance_id", POD_NAME)]
    + [Literal(STATIC_LEADER, "scheduler_service__public_addr__ip", "127.0.0.1")]
    + [Literal(STATIC_LEADER, "scheduler_service__public_addr__port", "5050")]
    + [Literal(STATIC_LEADER, "observatory_service__public_addr__ip", "127.0.0.1")]
    + [Literal(STATIC_LEADER, "observatory_service__public_addr__port", "5049")]
  }

  function MaxMetricsBytes(c: Cluster): int {
    match c.spec.maxMetricsBytesTotal
    case None => DEFAULT_METRICS_BYTES
    case Some(n) => if n != 0 then n else DEFAULT_METRICS_BYTES
  }

  function ObservatoryEnv(vars: seq<EnvVar>, c: Cluster): seq<EnvVar> {
    var observed := vars
      + [Literal(OBSERVATORY, "enabled", "true")]
      + [Literal(OBSERVATORY, "max_metrics_bytes_total", FormatInt(MaxMetricsBytes(c)))]
      + [Literal(OBSERVATORY, "database_path", "/app/observatory_data/observatory.db")]
      + [Literal(OBSERVATORY, "cluster_mode", "kubernetes")]
      + [Literal(Qualify(OBSERVATORY, "rest_api"), "enabled", "true")]
      + [Literal(MONITORING, "enabled", "true")];
    if HostMetricsDisabled(c) then observed + [Literal(HOST_METRICS, "enabled", "false")] else observed
  }

  function SchedulerPolicyEnv(vars: seq<EnvVar>, c: Cluster): seq<EnvVar> {
    var policed := vars
      + [Literal(SCHEDULER, "allow_local_sinks", FormatBool(c.spec.allowLocalSinks))]
      + [Literal(SCHEDULER, "allow_local_scans", FormatBool(c.spec.allowLocalScans))]
      + [Literal(SCHEDULER, "deny_anonymous_users", FormatBool(!c.spec.allowAnonymousUsers))]
      + [EnvVar("OTEL_SERVICE_NAME", SchedulerServiceName(c), None)];
    if c.spec.acceptEula then policed + [EnvVar("POLARS_EULA_ACCEPTED", "yes", None)] else policed
  }

  function CloudLicenseEnv(vars: seq<EnvVar>, registerNode: Option<RegisterNode>): seq<EnvVar> {
    var cloud := vars
      + [Literal(CLOUD, "cert_dir", "/mnt/cloud_license/")]
      + [Literal(CLOUD, "notify_query_submitted", "true")]
      + [Literal(CLOUD, "enable_query_polling", "false")];
    match registerNode
    case None => cloud
    case Some(r) =>
      var registered := cloud + [Either(REGISTER_NODE, "private_address", r.privateAddress)];
      if r.publicAddress.Some? then registered + [Either(REGISTER_NODE, "public_address", r.publicAddress.value)]
      else registered
  }

  function SchedulerLicenseEnv(vars: seq<EnvVar>, license: License): seq<EnvVar> {
    if license.onPrem.Some? then
      vars
      + [Either(ON_PREM, "client_id", license.onPrem.value.clientID)]
      + [Either(ON_PREM, "client_secret", license.onPrem.value.clientSecret)]
      + [Either(ON_PREM, "workspace_id", license.onPrem.value.workspaceID)]
      + [Literal(ON_PREM, "cert_dir", "/mnt/license_data")]
    else if license.onPremEnterprise then
      vars + [Literal(ON_PREM_ENTERPRISE, "license_path", LICENSE_PATH)]
    else if license.cloud.Some? then CloudLicenseEnv(vars, license.cloud.value.registerNode)
    else vars
  }

  function WorkerCountEnv(vars: seq<EnvVar>, c: Cluster): seq<EnvVar> {
    vars + [Literal(SCHEDULER, "n_workers", FormatInt(c.spec.workerPool.replicas as int))]
  }

  function CheckpointPolicyEnv(vars: seq<EnvVar>, c: Cluster): seq<EnvVar> {
    match c.spec.checkpoint
    case None => vars
    case Some(cp) =>
      vars
      + [Literal(CHECKPOINT, "enabled", "true")]
      + [Literal(CHECKPOINT, "period", if cp.period.Some? then cp.period.value else "20m")]
  }

  function LineageEnv(vars: seq<EnvVar>, c: Cluster): seq<EnvVar> {
    match c.spec.lineage
    case None => vars
    case Some(l) =>
      var enabled := vars + [Literal(LINEAGE, "enabled", "true")];
      if l.http.Some? then enabled + [Literal(LINEAGE, "transport__http__endpoint", l.http.value)] else enabled
  }

  function SchedulerRoleEnv(vars: seq<EnvVar>, c: Cluster): seq<EnvVar> {
    ObservatoryEnv(SchedulerLeaderEnv(SchedulerIdentityEnv(vars, c)), c)
  }

  function SchedulerAccessEnv(vars: seq<EnvVar>, c: Cluster): seq<EnvVar> {
    SchedulerLicenseEnv(SchedulerPolicyEnv(vars, c), c.spec.license)
  }

  function QueryEnv(vars: seq<EnvVar>, c: Cluster): seq<EnvVar> {
    var results := AnonymousResultsEnv(WorkerCountEnv(vars, c), ANONYMOUS_RESULTS, c.spec.anonymousResults);
    LineageEnv(CheckpointPolicyEnv(results, c), c)
  }

  function SchedulerEnv(c: Cluster): seq<EnvVar> {
    TelemetryEnv(QueryEnv(SchedulerAccessEnv(SchedulerRoleEnv([], c), c), c), c) + RuntimeEnv(c.spec.runtime)
  }

  method AppendSchedulerIdentity(root: Builder, cublet: Builder, scheduler: Builder, c: Cluster)
    requires root.list == cublet.list == scheduler.list
    requires root.prefix == "" && cublet.prefix == CUBLET && scheduler.prefix == SCHEDULER
    modifies root.list
    ensures root.list.vars == SchedulerIdentityEnv(old(root.list.vars), c)
  {
    root.String("RUST_BACKTRACE", "full");
    scheduler.Bool("enabled", true);
    cublet.String("cluster_id", ResolveClusterID(c));
    cublet.FieldRef("instance_id", "metadata.name");
  }

  method AppendSchedulerLeader(staticLeader: Builder)
    requires staticLeader.prefix == STATIC_LEADER
    modifies staticLeader.list
    ensures staticLeader.list.vars == SchedulerLeaderEnv(old(staticLeader.list.vars))
  {
    staticLeader.FieldRef("leader_instance_id", "metadata.name");
    staticLeader.String("scheduler_service__public_addr__ip", "127.0.0.1");
    staticLeader.String("scheduler_service__public_addr__port", "5050");
    staticLeader.String("observatory_service__public_addr__ip", "127.0.0.1");
    staticLeader.String("observatory_service__public_addr__port", "5049");
  }

  method AppendObservatory(observatory: Builder, cublet: Builder, c: Cluster)
    requires observatory.list == cublet.list && observatory.prefix == OBSERVATORY && cublet.prefix == CUBLET
    modifies cublet.list
    ensures cublet.list.vars == ObservatoryEnv(old(cublet.list.vars), c)
  {
    observatory.Bool("enabled", true);
    observatory.Int("max_metrics_bytes_total", MaxMetricsBytes(c));
    observatory.String("database_path", "/app/observatory_data/observatory.db");
    observatory.String("cluster_mode", "kubernetes");
    var restAPI := observatory.Section("rest_api");
    restAPI.Bool("enabled", true);
    var monitoring := cublet.Section("monitoring");
    monitoring.Bool("enabled", true);
    if HostMetricsDisabled(c) {
      var hostMetrics := monitoring.Section("host_metrics");
      hostMetrics.Bool("enabled", false);
    }
  }

  method AppendSchedulerPolicy(root: Builder, scheduler: Builder, c: Cluster)
    requires root.list == scheduler.list && root.prefix == "" && scheduler.prefix == SCHEDULER
    modifies root.list
    ensures root.list.vars == SchedulerPolicyEnv(old(root.list.vars), c)
  {
    scheduler.Bool("allow_local_sinks", c.spec.allowLocalSinks);
    scheduler.Bool("allow_local_scans", c.spec.allowLocalScans);
    scheduler.Bool("deny_anonymous_users", !c.spec.allowAnonymousUsers);
    root.String("OTEL_SERVICE_NAME", SchedulerServiceName(c));
    if c.spec.acceptEula {
      root.String("POLARS_EULA_ACCEPTED", "yes");
    }
  }

  method AppendCloudLicense(license: Builder, registerNode: Option<RegisterNode>)
    requires license.prefix == LICENSE
    modifies license.list
    ensures license.list.vars == CloudLicenseEnv(old(license.list.vars), registerNode)
  {
    var cloud := license.Section("cloud");
    cloud.String("cert_dir", "/mnt/cloud_license/");
    cloud.Bool("notify_query_submitted", true);
    cloud.Bool("enable_query_polling", false);
    if registerNode.None? {
      return;
    }
    var register := cloud.Section("register_node");
    register.ValueOrSource("private_address", registerNode.value.privateAddress);
    if registerNode.value.publicAddress.Some? {
      register.ValueOrSource("public_address", registerNode.value.publicAddress.value);
    }
  }

  method SchedulerLicenseConfig(cublet: Builder, spec: License)
    requires cublet.prefix == CUBLET
    modifies cublet.list
    ensures cublet.list.vars == SchedulerLicenseEnv(old(cublet.list.vars), spec)
  {
    var license := cublet.Section("license");
    if spec.onPrem.Some? {
      var onPrem := license.Section("on_prem");
      onPrem.ValueOrSource("client_id", spec.onPrem.value.clientID);
      onPrem.ValueOrSource("client_secret", spec.onPrem.value.clientSecret);
      onPrem.ValueOrSource("workspace_id", spec.onPrem.value.workspaceID);
      onPrem.String("cert_dir", "/mnt/license_data");
    } else if spec.onPremEnterprise {
      var enterprise := license.Section("on_prem_enterprise");
      enterprise.String("license_path", LICENSE_PATH);
    } else if spec.cloud.Some? {
      AppendCloudLicense(license, spec.cloud.value.registerNode);
    }
  }

  method AppendCheckpointPolicy(scheduler: Builder, c: Cluster)
    requires scheduler.prefix == SCHEDULER
    modifies scheduler.list
    ensures scheduler.list.vars == CheckpointPolicyEnv(old(scheduler.list.vars), c)
  {
    if c.spec.checkpoint.Some? {
      var period := c.spec.checkpoint.value.period;
      var checkpoint := scheduler.Section("checkpoint");
      checkpoint.Bool("enabled", true);
      checkpoint.String("period", if period.Some? then period.value else "20m");
    }
  }

  method AppendLineage(cublet: Builder, c: Cluster)
    requires cublet.prefix == CUBLET
    modifies cublet.list
    ensures cublet.list.vars == LineageEnv(old(cublet.list.vars), c)
  {
    if c.spec.lineage.Some? {
      var lineage := cublet.Section("lineage");
      lineage.Bool("enabled", true);
      if c.spec.lineage.value.http.Some? {
        lineage.String("transport__http__endpoint", c.spec.lineage.value.http.value);
      }
    }
  }

  /** The env part of computedSchedulerPodSpec. */
  method ComputedSchedulerEnv(c: Cluster) returns (env: seq<EnvVar>)
    ensures env == SchedulerEnv(c)
  {
    var b := new Builder();
    var cublet := b.Section("PC_CUBLET");
    var scheduler := cublet.Section("scheduler");
    AppendSchedulerRole(b, cublet, scheduler, c);
    AppendSchedulerAccess(b, cublet, scheduler, c);
    AppendQueryConfig(cublet, scheduler, c);
    AppendTelemetry(b, c);
    var vars := b.Vars();
    env := vars + RuntimeEnv(c.spec.runtime);
  }

  method AppendSchedulerRole(root: Builder, cublet: Builder, scheduler: Builder, c: Cluster)
    requires root.list == cublet.list == scheduler.list
    requires root.prefix == "" && cublet.prefix == CUBLET && scheduler.prefix == SCHEDULER
    modifies root.list
    ensures root.list.vars == SchedulerRoleEnv(old(root.list.vars), c)
  {
    var staticLeader := cublet.Section("static_leader");
    var observatory := cublet.Section("observatory");
    AppendSchedulerIdentity(root, cublet, scheduler, c);
    AppendSchedulerLeader(staticLeader);
    AppendObservatory(observatory, cublet, c);
  }

  method AppendSchedulerAccess(root: Builder, cublet: Builder, scheduler: Builder, c: Cluster)
    requires root.list == cublet.list == scheduler.list
    requires root.prefix == "" && cublet.prefix == CUBLET && scheduler.prefix == SCHEDULER
    modifies root.list
    ensures root.list.vars == SchedulerAccessEnv(old(root.list.vars), c)
  {
    AppendSchedulerPolicy(root, scheduler, c);
    SchedulerLicenseConfig(cublet, c.spec.license);
  }

  method AppendQueryConfig(cublet: Builder, scheduler: Builder, c: Cluster)
    requires cublet.list == scheduler.list && cublet.prefix == CUBLET && scheduler.prefix == SCHEDULER
    modifies cublet.list
    ensures cublet.list.vars == QueryEnv(old(cublet.list.vars), c)
  {
    scheduler.Int("n_workers", c.spec.workerPool.replicas as int);
    var results := scheduler.Section("anonymous_result_location");
    ComputedAnonymousResultsEnv(results, c.spec.anonymousResults);
    AppendCheckpointPolicy(scheduler, c);
    AppendLineage(cublet, c);
  }
}
