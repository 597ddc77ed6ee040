/** The computed environments as tables: which variable a pod carries with which value, and on which field of the spec
    that depends. */
module EnvTables {
  import opened Kube
  import opened EnvBuilder
  import opened PolarsCluster
  import opened PodEnv
  import opened ServiceContents
  import opened ApiServer
  import Services
  import ServiceLaws

  // ---------- Prefixes ----------

  lemma OuterPrefixes()
    ensures MONITORING == "PC_CUBLET__monitoring" && WORKER == "PC_CUBLET__worker" && SCHEDULER == "PC_CUBLET__scheduler"
    ensures OBSERVATORY == "PC_CUBLET__observatory" && STATIC_LEADER == "PC_CUBLET__static_leader"
    ensures LINEAGE == "PC_CUBLET__lineage" && LICENSE == "PC_CUBLET__license"
  {
  }

  lemma LicensePrefixes()
    ensures ON_PREM == "PC_CUBLET__license__on_prem" && CLOUD == "PC_CUBLET__license__cloud"
    ensures ON_PREM_ENTERPRISE == "PC_CUBLET__license__on_prem_enterprise"
  {
    OuterPrefixes();
    hide MONITORING, WORKER, SCHEDULER, OBSERVATORY, STATIC_LEADER, LINEAGE, LICENSE;
  }

  lemma NodePrefix()
    ensures REGISTER_NODE == "PC_CUBLET__license__cloud__register_node"
  {
    LicensePrefixes();
    hide ON_PREM, CLOUD, ON_PREM_ENTERPRISE;
  }

  lemma WorkerPrefixes()
    ensures HOST_METRICS == "PC_CUBLET__monitoring__host_metrics" && EXTRAS == "PC_CUBLET__worker__extras"
    ensures SHUFFLE == "PC_CUBLET__worker__shuffle_location"
  {
    OuterPrefixes();
    hide MONITORING, WORKER, SCHEDULER, OBSERVATORY, STATIC_LEADER, LINEAGE, LICENSE;
  }

  lemma CheckpointPrefixes()
    ensures CHECKPOINT_DATA == "PC_CUBLET__worker__checkpoint_location"
    ensures CHECKPOINT == "PC_CUBLET__scheduler__checkpoint"
  {
    OuterPrefixes();
    hide MONITORING, WORKER, SCHEDULER, OBSERVATORY, STATIC_LEADER, LINEAGE, LICENSE;
  }

  lemma ResultsPrefix()
    ensures ANONYMOUS_RESULTS == "PC_CUBLET__scheduler__anonymous_result_location"
  {
    OuterPrefixes();
    hide MONITORING, WORKER, SCHEDULER, OBSERVATORY, STATIC_LEADER, LINEAGE, LICENSE;
  }

  // ---------- Tables ----------

  /** A row that is there under a condition. */
  function If(condition: bool, v: EnvVar): set<EnvVar> {
    if condition then {v} else {}
  }

  function Bool(b: bool): string {
    if b then "true" else "false"
  }

  /** A value given in the spec, literally or by reference. */
  function Given(prefix: string, leaf: string, v: ValueOrSource): EnvVar {
    if v.valueFrom.Some? then EnvVar(Qualify(prefix, leaf), "", v.valueFrom)
    else EnvVar(Qualify(prefix, leaf), v.value, None)
  }

  function OrElse(value: Option<string>, default: string): string {
    if value.Some? then value.value else default
  }

  /** The rows of an object store: its address, the lifetime of presigned links where these are issued, and the user's
      options. */
  ghost function StoreRows(prefix: string, store: ObjectStore, presigned: bool): set<EnvVar> {
    {EnvVar(Qualify(prefix, "url"), store.url, None)}
    + (if presigned && store.presignDuration.Some?
       then {EnvVar(Qualify(prefix, "presign_duration"), store.presignDuration.value, None)} else {})
    + (set o | o in store.options :: EnvVar(Qualify(prefix, o.name), o.value, o.valueFrom))
  }

  /** The rows of a location that may be one of three object stores, in this order. */
  ghost function ObjectRows(prefix: string, s: Storage, presigned: bool): set<EnvVar>
    requires s.s3.Some? || s.abs.Some? || s.gcs.Some?
  {
    if s.s3.Some? then StoreRows(Qualify(prefix, "s3"), s.s3.value, presigned)
    else if s.abs.Some? then StoreRows(Qualify(prefix, "abs"), s.abs.value, presigned)
    else StoreRows(Qualify(prefix, "gcs"), s.gcs.value, presigned)
  }

  predicate IsObject(s: Storage) {
    s.s3.Some? || s.abs.Some? || s.gcs.Some?
  }

  /** The scheduler leads the cluster: it is the leader it names, and is reached where it runs. */
  ghost function SchedulerRoleTable(c: Cluster): set<EnvVar> {
    {EnvVar("RUST_BACKTRACE", "full", None), EnvVar(Qualify(SCHEDULER, "enabled"), "true", None),
     EnvVar(Qualify(CUBLET, "cluster_id"),
            if c.spec.clusterID != "" then c.spec.clusterID else c.key.namespace + "/" + c.key.name, None),
     EnvVar(Qualify(CUBLET, "instance_id"), "", Some(FieldPath("metadata.name"))),
     EnvVar(Qualify(STATIC_LEADER, "leader_instance_id"), "", Some(FieldPath("metadata.name"))),
     EnvVar(Qualify(STATIC_LEADER, "scheduler_service__public_addr__ip"), "127.0.0.1", None),
     EnvVar(Qualify(STATIC_LEADER, "scheduler_service__public_addr__port"), "5050", None),
     EnvVar(Qualify(STATIC_LEADER, "observatory_service__public_addr__ip"), "127.0.0.1", None),
     EnvVar(Qualify(STATIC_LEADER, "observatory_service__public_addr__port"), "5049", None)}
  }

  /** The observatory, with its limit where the spec gives one, and the host metrics unless they are turned off. */
  ghost function ObservatoryTable(c: Cluster): set<EnvVar> {
    var limit := c.spec.maxMetricsBytesTotal;
    {EnvVar(Qualify(OBSERVATORY, "enabled"), "true", None),
     EnvVar(Qualify(OBSERVATORY, "max_metrics_bytes_total"),
            FormatInt(if limit.Some? && limit.value != 0 then limit.value else 104857600), None),
     EnvVar(Qualify(OBSERVATORY, "database_path"), "/app/observatory_data/observatory.db", None),
     EnvVar(Qualify(OBSERVATORY, "cluster_mode"), "kubernetes", None),
     EnvVar(Qualify(Qualify(OBSERVATORY, "rest_api"), "enabled"), "true", None),
     EnvVar(Qualify(MONITORING, "enabled"), "true", None)}
    + If(c.spec.hostMetrics == Some(false), EnvVar(Qualify(HOST_METRICS, "enabled"), "false", None))
  }

  /** Who may do what: anonymous users are denied unless allowed. */
  ghost function PolicyTable(c: Cluster): set<EnvVar> {
    {EnvVar(Qualify(SCHEDULER, "allow_local_sinks"), Bool(c.spec.allowLocalSinks), None),
     EnvVar(Qualify(SCHEDULER, "allow_local_scans"), Bool(c.spec.allowLocalScans), None),
     EnvVar(Qualify(SCHEDULER, "deny_anonymous_users"), Bool(!c.spec.allowAnonymousUsers), None),
     EnvVar("OTEL_SERVICE_NAME", c.key.name + "-scheduler", None)}
    + If(c.spec.acceptEula, EnvVar("POLARS_EULA_ACCEPTED", "yes", None))
  }

  /** The license: on premises, else enterprise, else cloud. */
  ghost function LicenseTable(license: License): set<EnvVar> {
    if license.onPrem.Some? then
      {Given(ON_PREM, "client_id", license.onPrem.value.clientID),
       Given(ON_PREM, "client_secret", license.onPrem.value.clientSecret),
       Given(ON_PREM, "workspace_id", license.onPrem.value.workspaceID),
       EnvVar(Qualify(ON_PREM, "cert_dir"), "/mnt/license_data", None)}
    else if license.onPremEnterprise then
      {EnvVar(Qualify(ON_PREM_ENTERPRISE, "license_path"), "/mnt/license/license.json", None)}
    else if license.cloud.Some? then
      var node := license.cloud.value.registerNode;
      {EnvVar(Qualify(CLOUD, "cert_dir"), "/mnt/cloud_license/", None),
       EnvVar(Qualify(CLOUD, "notify_query_submitted"), "true", None),
       EnvVar(Qualify(CLOUD, "enable_query_polling"), "false", None)}
      + (if node.Some? then {Given(REGISTER_NODE, "private_address", node.value.privateAddress)} else {})
      + (if node.Some? && node.value.publicAddress.Some?
         then {Given(REGISTER_NODE, "public_address", node.value.publicAddress.value)} else {})
    else {}
  }

  /** Where results go that no user claims, with the lifetime of the links to them. */
  ghost function ResultsTable(results: Option<Storage>): set<EnvVar> {
    if results.None? then {}
    else if IsObject(results.value) then ObjectRows(ANONYMOUS_RESULTS, results.value, true)
    else if results.value.sharedFilesystem.Some? then
      {EnvVar(Qualify(Qualify(ANONYMOUS_RESULTS, "local"), "path"), results.value.sharedFilesystem.value, None)}
    else {}
  }

  /** Checkpoints, if asked for. */
  ghost function CheckpointPolicyTable(checkpoint: Option<Checkpoint>): set<EnvVar> {
    if checkpoint.None? then {}
    else {EnvVar(Qualify(CHECKPOINT, "enabled"), "true", None),
          EnvVar(Qualify(CHECKPOINT, "period"), OrElse(checkpoint.value.period, "20m"), None)}
  }

  /** Lineage, if asked for, and where it is sent. */
  ghost function LineageTable(lineage: Option<Lineage>): set<EnvVar> {
    if lineage.None? then {}
    else {EnvVar(Qualify(LINEAGE, "enabled"), "true", None)}
         + (if lineage.value.http.Some?
            then {EnvVar(Qualify(LINEAGE, "transport__http__endpoint"), lineage.value.http.value, None)} else {})
  }

  ghost function WorkerCountTable(c: Cluster): set<EnvVar> {
    {EnvVar(Qualify(SCHEDULER, "n_workers"), FormatInt(c.spec.workerPool.replicas as int), None)}
  }

  /** Telemetry, and the composed runtime if there is one. */
  ghost function ProcessTable(c: Cluster): set<EnvVar> {
    var runtime := c.spec.runtime;
    {EnvVar("PLC_LOG_LEVEL", OrElse(c.spec.logLevel, "info"), None)}
    + (if c.spec.otlpEndpoint.Some? then {Given("", "OTLP_ENDPOINT", c.spec.otlpEndpoint.value)} else {})
    + (if runtime.Some? then
         {EnvVar("POLARS_EXTRAS",
                 if runtime.value.polarsExtras == "" then "cloudpickle" else runtime.value.polarsExtras, None),
          EnvVar("POLARS_WHL_DIR", "/emptydir/whl", None), EnvVar("UV_PATH", "/emptydir/bin/uv", None)}
         + If(runtime.value.requirements != "",
              EnvVar("PYTHON_REQUIREMENTS", "/requirements/requirements.txt", None))
       else {})
  }

  ghost function SchedulerTable(c: Cluster): set<EnvVar> {
    SchedulerRoleTable(c) + ObservatoryTable(c) + PolicyTable(c) + LicenseTable(c.spec.license)
    + WorkerCountTable(c) + ResultsTable(c.spec.anonymousResults) + CheckpointPolicyTable(c.spec.checkpoint)
    + LineageTable(c.spec.lineage) + ProcessTable(c)
  }

  // ---------- The scheduler carries its table ----------

  lemma ElementsAppend(s: seq<EnvVar>, t: seq<EnvVar>)
    ensures Elements(s + t) == Elements(s) + Elements(t)
  {
  }

  lemma SchedulerRoleRows(vars: seq<EnvVar>, c: Cluster)
    ensures Elements(SchedulerLeaderEnv(SchedulerIdentityEnv(vars, c))) == Elements(vars) + SchedulerRoleTable(c)
  {
    hide Qualify;
    QualifiedRows();
  }

  /** A variable without a prefix is named by its leaf. */
  lemma QualifiedRows()
    ensures forall leaf :: Qualify("", leaf) == leaf
  {
  }

  lemma ObservatoryRows(vars: seq<EnvVar>, c: Cluster)
    ensures Elements(ObservatoryEnv(vars, c)) == Elements(vars) + ObservatoryTable(c)
  {
    hide Qualify, FormatInt;
  }

  lemma PolicyRows(vars: seq<EnvVar>, c: Cluster)
    ensures Elements(SchedulerPolicyEnv(vars, c)) == Elements(vars) + PolicyTable(c)
  {
    hide Qualify;
  }

  lemma LicenseRows(vars: seq<EnvVar>, license: License)
    ensures Elements(SchedulerLicenseEnv(vars, license)) == Elements(vars) + LicenseTable(license)
  {
    hide Qualify;
  }

  lemma ScopedRows(prefix: string, options: seq<EnvVar>)
    ensures Elements(Scoped(prefix, options)) ==
            set o | o in options :: EnvVar(Qualify(prefix, o.name), o.value, o.valueFrom)
  {
    hide Qualify;
    var rows := set o | o in options :: EnvVar(Qualify(prefix, o.name), o.value, o.valueFrom);
    forall v | v in rows ensures v in Scoped(prefix, options) {
      var o :| o in options && v == EnvVar(Qualify(prefix, o.name), o.value, o.valueFrom);
      var k :| 0 <= k < |options| && options[k] == o;
      assert Scoped(prefix, options)[k] == v;
    }
  }

  lemma StoreEnvRows(vars: seq<EnvVar>, prefix: string, store: ObjectStore, presigned: bool)
    ensures Elements(StoreEnv(vars, prefix, store, presigned)) == Elements(vars) + StoreRows(prefix, store, presigned)
  {
    hide Qualify;
    ScopedRows(prefix, store.options);
  }

  lemma ResultsRows(vars: seq<EnvVar>, results: Option<Storage>)
    ensures Elements(AnonymousResultsEnv(vars, ANONYMOUS_RESULTS, results)) == Elements(vars) + ResultsTable(results)
  {
    hide Qualify, StoreEnv, StoreRows;
    if results.Some? && ActiveStore(results.value).Some? {
      var (section, store) := ActiveStore(results.value).value;
      StoreEnvRows(vars, Qualify(ANONYMOUS_RESULTS, section), store, true);
    }
  }

  lemma PolicyOfQueryRows(vars: seq<EnvVar>, c: Cluster)
    ensures Elements(WorkerCountEnv(vars, c)) == Elements(vars) + WorkerCountTable(c)
    ensures Elements(CheckpointPolicyEnv(vars, c)) == Elements(vars) + CheckpointPolicyTable(c.spec.checkpoint)
    ensures Elements(LineageEnv(vars, c)) == Elements(vars) + LineageTable(c.spec.lineage)
  {
    hide Qualify, FormatInt;
  }

  lemma QueryRows(vars: seq<EnvVar>, c: Cluster)
    ensures Elements(QueryEnv(vars, c)) ==
            Elements(vars) + WorkerCountTable(c) + ResultsTable(c.spec.anonymousResults)
            + CheckpointPolicyTable(c.spec.checkpoint) + LineageTable(c.spec.lineage)
  {
    hide AnonymousResultsEnv, ResultsTable, WorkerCountEnv, CheckpointPolicyEnv, LineageEnv, WorkerCountTable,
      CheckpointPolicyTable, LineageTable;
    var counted := WorkerCountEnv(vars, c);
    var results := AnonymousResultsEnv(counted, ANONYMOUS_RESULTS, c.spec.anonymousResults);
    PolicyOfQueryRows(vars, c);
    ResultsRows(counted, c.spec.anonymousResults);
    PolicyOfQueryRows(results, c);
    PolicyOfQueryRows(CheckpointPolicyEnv(results, c), c);
  }

  lemma ProcessRows(vars: seq<EnvVar>, c: Cluster)
    ensures Elements(TelemetryEnv(vars, c) + RuntimeEnv(c.spec.runtime)) == Elements(vars) + ProcessTable(c)
  {
    QualifiedRows();
    hide Qualify;
  }

  /** The scheduler's environment carries exactly its table. */
  lemma SchedulerEnvIsTable(c: Cluster)
    ensures Elements(SchedulerEnv(c)) == SchedulerTable(c)
  {
    hide SchedulerIdentityEnv, SchedulerLeaderEnv, ObservatoryEnv, SchedulerPolicyEnv, SchedulerLicenseEnv, QueryEnv,
      TelemetryEnv, RuntimeEnv, SchedulerRoleTable, ObservatoryTable, PolicyTable, LicenseTable, ResultsTable,
      WorkerCountTable, CheckpointPolicyTable, LineageTable, ProcessTable;
    var leader := SchedulerLeaderEnv(SchedulerIdentityEnv([], c));
    SchedulerRoleRows([], c);
    ObservatoryRows(leader, c);
    PolicyRows(ObservatoryEnv(leader, c), c);
    LicenseRows(SchedulerPolicyEnv(ObservatoryEnv(leader, c), c), c.spec.license);
    QueryRows(SchedulerAccessEnv(SchedulerRoleEnv([], c), c), c);
    ProcessRows(QueryEnv(SchedulerAccessEnv(SchedulerRoleEnv([], c), c), c), c);
  }

  // ---------- The workers' table ----------

  /** The name of the service the workers reach the scheduler by, absolute where the cluster's domain is known. */
  function DialledHost(c: Cluster): string {
    var service := ServiceKey(c, 1);
    if c.spec.clusterDomain == "" then service.name
    else service.name + "." + service.namespace + ".svc." + c.spec.clusterDomain + "."
  }

  /** A worker never leads: it names no leader of its own, and dials the scheduler's internal service on its two
      ports. */
  ghost function WorkerRoleTable(c: Cluster): set<EnvVar> {
    {EnvVar("RUST_BACKTRACE", "full", None), EnvVar(Qualify(MONITORING, "enabled"), "true", None),
     EnvVar(Qualify(WORKER, "enabled"), "true", None),
     EnvVar(Qualify(CUBLET, "cluster_id"),
            if c.spec.clusterID != "" then c.spec.clusterID else c.key.namespace + "/" + c.key.name, None),
     EnvVar(Qualify(CUBLET, "instance_id"), "", Some(FieldPath("metadata.name"))),
     EnvVar(Qualify(STATIC_LEADER, "leader_instance_id"), "not-me", None),
     EnvVar(Qualify(STATIC_LEADER, "scheduler_service__public_addr__hostname"), DialledHost(c), None),
     EnvVar(Qualify(STATIC_LEADER, "scheduler_service__public_addr__port"), Decimal(ServicePorts(1)[0]), None),
     EnvVar(Qualify(STATIC_LEADER, "observatory_service__public_addr__hostname"), DialledHost(c), None),
     EnvVar(Qualify(STATIC_LEADER, "observatory_service__public_addr__port"), Decimal(ServicePorts(1)[1]), None)}
    + If(c.spec.hostMetrics == Some(false), EnvVar(Qualify(HOST_METRICS, "enabled"), "false", None))
  }

  /** Where a worker is reached, how often it reports, and the extras turned on. */
  ghost function WorkerServiceTable(wp: WorkerPoolSpec): set<EnvVar> {
    {EnvVar(Qualify(WORKER, "task_service__public_addr__ip"), "", Some(FieldPath("status.podIP"))),
     EnvVar(Qualify(WORKER, "shuffle_service__public_addr__ip"), "", Some(FieldPath("status.podIP"))),
     EnvVar(Qualify(WORKER, "heartbeat_period"), OrElse(wp.heartBeatInterval, "5s"), None)}
    + If(wp.hdfs, EnvVar(Qualify(Qualify(EXTRAS, "hdfs"), "enabled"), "true", None))
    + If(wp.pyIceberg, EnvVar(Qualify(Qualify(EXTRAS, "pyiceberg"), "enabled"), "true", None))
  }

  ghost function WorkerPolicyTable(c: Cluster): set<EnvVar> {
    {EnvVar("POLARS_TEMP_DIR", "/app/temporary_data/temporary_data", None),
     EnvVar("OTEL_SERVICE_NAME", c.key.name + "-worker", None)}
    + If(c.spec.acceptEula, EnvVar("POLARS_EULA_ACCEPTED", "yes", None))
    + If(c.spec.license.onPrem.Some?, EnvVar(Qualify(ON_PREM, "enabled"), "true", None))
    + If(c.spec.license.onPrem.None? && c.spec.license.onPremEnterprise,
         EnvVar(Qualify(ON_PREM_ENTERPRISE, "license_path"), "/mnt/license/license.json", None))
  }

  /** Shuffle data is always somewhere: in an object store, on a shared or a local file system, or in the operator's own
      directory. Links to it are not presigned. */
  ghost function ShuffleTable(data: Option<Storage>): set<EnvVar> {
    if data.Some? && IsObject(data.value) then ObjectRows(SHUFFLE, data.value, false)
    else if data.Some? && data.value.sharedFilesystem.Some? then
      {EnvVar(Qualify(Qualify(SHUFFLE, "shared_filesystem"), "path"), data.value.sharedFilesystem.value, None)}
    else
      {EnvVar(Qualify(Qualify(SHUFFLE, "local"), "path"),
              if data.Some? && data.value.local.Some? && data.value.local.value != "" then data.value.local.value
              else "/app/shuffle_data/shuffle_data", None)}
  }

  ghost function CheckpointTable(checkpoint: Option<Checkpoint>): set<EnvVar> {
    if checkpoint.None? then {}
    else if IsObject(checkpoint.value.data) then ObjectRows(CHECKPOINT_DATA, checkpoint.value.data, false)
    else if checkpoint.value.data.sharedFilesystem.Some? then
      {EnvVar(Qualify(Qualify(CHECKPOINT_DATA, "shared_filesystem"), "path"),
              checkpoint.value.data.sharedFilesystem.value, None)}
    else {}
  }

  /** The CPU the user's container requests is reserved. */
  ghost function CpuTable(cpuRequest: Option<string>): set<EnvVar> {
    if cpuRequest.Some? then {EnvVar(Qualify(CUBLET, "cpu_reserved"), cpuRequest.value, None)} else {}
  }

  ghost function WorkerTable(c: Cluster, cpuRequest: Option<string>): set<EnvVar> {
    WorkerRoleTable(c) + WorkerServiceTable(c.spec.workerPool) + WorkerPolicyTable(c) + ProcessTable(c)
    + CpuTable(cpuRequest) + ShuffleTable(c.spec.workerPool.shuffleData) + CheckpointTable(c.spec.checkpoint)
  }

  // ---------- The workers carry it ----------

  lemma DialledPorts()
    ensures Decimal(5050) == "5050" && Decimal(5049) == "5049"
  {
    assert Decimal(505) == Decimal(50) + [Digit(5)] && Decimal(504) == Decimal(50) + [Digit(4)];
  }

  lemma WorkerRoleRows(vars: seq<EnvVar>, c: Cluster)
    ensures Elements(WorkerLeaderEnv(WorkerIdentityEnv(vars, c), c)) == Elements(vars) + WorkerRoleTable(c)
  {
    DialledPorts();
    hide Qualify, Decimal;
  }

  lemma WorkerServiceRows(vars: seq<EnvVar>, wp: WorkerPoolSpec)
    ensures Elements(WorkerServiceEnv(vars, wp)) == Elements(vars) + WorkerServiceTable(wp)
  {
    hide Qualify;
  }

  lemma WorkerPolicyRows(vars: seq<EnvVar>, c: Cluster)
    ensures Elements(WorkerLicenseEnv(WorkerProcessEnv(vars, c), c.spec.license)) == Elements(vars) + WorkerPolicyTable(c)
  {
    hide Qualify;
  }

  lemma ShuffleRows(vars: seq<EnvVar>, data: Option<Storage>)
    ensures Elements(ShuffleEnv(vars, SHUFFLE, data)) == Elements(vars) + ShuffleTable(data)
  {
    hide Qualify, StoreEnv, StoreRows;
    if data.Some? && ActiveStore(data.value).Some? {
      var (section, store) := ActiveStore(data.value).value;
      StoreEnvRows(vars, Qualify(SHUFFLE, section), store, false);
    }
  }

  lemma CheckpointRows(vars: seq<EnvVar>, checkpoint: Option<Checkpoint>)
    ensures Elements(CheckpointEnv(vars, CHECKPOINT_DATA, checkpoint)) == Elements(vars) + CheckpointTable(checkpoint)
  {
    hide Qualify, StoreEnv, StoreRows;
    if checkpoint.Some? && ActiveStore(checkpoint.value.data).Some? {
      var (section, store) := ActiveStore(checkpoint.value.data).value;
      StoreEnvRows(vars, Qualify(CHECKPOINT_DATA, section), store, false);
    }
  }

  /** A worker's environment carries exactly its table. */
  lemma WorkerEnvIsTable(c: Cluster, cpuRequest: Option<string>)
    ensures Elements(WorkerEnv(c, cpuRequest)) == WorkerTable(c, cpuRequest)
  {
    hide WorkerIdentityEnv, WorkerLeaderEnv, WorkerServiceEnv, WorkerProcessEnv, WorkerLicenseEnv, TelemetryEnv,
      RuntimeEnv, ShuffleEnv, CheckpointEnv, WorkerRoleTable, WorkerServiceTable, WorkerPolicyTable, ProcessTable,
      ShuffleTable, CheckpointTable, Qualify, CpuEnv, CpuTable;
    var leader := WorkerLeaderEnv(WorkerIdentityEnv([], c), c);
    WorkerRoleRows([], c);
    WorkerServiceRows(leader, c.spec.workerPool);
    var role := WorkerRoleEnv([], c);
    WorkerPolicyRows(role, c);
    var licensed := WorkerLicenseEnv(WorkerProcessEnv(role, c), c.spec.license);
    var access, runtime := TelemetryEnv(licensed, c), RuntimeEnv(c.spec.runtime);
    ProcessRows(licensed, c);
    ElementsAppend(access, runtime);
    CpuRows(access, cpuRequest);
    var placed := CpuEnv(access, cpuRequest);
    ShuffleRows(placed, c.spec.workerPool.shuffleData);
    var shuffled := ShuffleEnv(placed, SHUFFLE, c.spec.workerPool.shuffleData);
    CheckpointRows(shuffled, c.spec.checkpoint);
    ElementsAppend(CheckpointEnv(shuffled, CHECKPOINT_DATA, c.spec.checkpoint), runtime);
  }

  lemma CpuRows(vars: seq<EnvVar>, cpuRequest: Option<string>)
    ensures Elements(CpuEnv(vars, cpuRequest)) == Elements(vars) + CpuTable(cpuRequest)
  {
  }

  // ---------- Workers reach the scheduler ----------

  /** The workers dial a service the operator stores: once its task ends without error, the service they name exists,
      leads to the scheduler and offers the two ports they dial. */
  lemma WorkersReachTheScheduler(c: Cluster, cpuRequest: Option<string>, store: ServiceStore, cached: map<Key, Service>,
                                 faults: Faults)
    requires ServiceLaws.Reads(cached) && Services.ServiceStep(store, cached, c, 1, faults).err.None?
    ensures var after, key := Services.ServiceStep(store, cached, c, 1, faults).store.items, ServiceKey(c, 1);
            var env := WorkerEnv(c, cpuRequest);
            && key in after && LeadsToScheduler(after[key].selector, c) && |after[key].ports| == 2
            && key.name <= DialledHost(c) && (c.spec.clusterDomain == "" ==> key.name == DialledHost(c))
            && EnvVar(Qualify(STATIC_LEADER, "scheduler_service__public_addr__hostname"), DialledHost(c), None) in env
            && EnvVar(Qualify(STATIC_LEADER, "observatory_service__public_addr__hostname"), DialledHost(c), None) in env
            && EnvVar(Qualify(STATIC_LEADER, "scheduler_service__public_addr__port"), Decimal(after[key].ports[0]), None)
               in env
            && EnvVar(Qualify(STATIC_LEADER, "observatory_service__public_addr__port"), Decimal(after[key].ports[1]), None)
               in env
  {
    hide WorkerEnv, Qualify, LeadsToScheduler, Decimal, Services.ServiceStep, WorkerServiceTable, WorkerPolicyTable,
      ProcessTable, CpuTable, ShuffleTable, CheckpointTable;
    TaskServes(store, cached, c, 1, faults);
    WorkerEnvIsTable(c, cpuRequest);
    assert WorkerRoleTable(c) <= Elements(WorkerEnv(c, cpuRequest));
  }
}
