/** No computed pod carries the same environment variable twice, exactly when the user's storage options avoid each
    other and the operator's own keys. */
module EnvNames {
  import opened Kube
  import opened EnvBuilder
  import opened PolarsCluster
  import opened PodEnv

  datatype Role = SchedulerRole | WorkerRole

  ghost predicate UniqueNames(vars: seq<EnvVar>) {
    forall i, j :: 0 <= i < j < |vars| ==> vars[i].name != vars[j].name
  }

  /** The place of a worker variable in the order the operator emits them, read off its length and a few characters.
      All variables of one storage location share a place. */
  function WorkerSlot(s: string): int {
    if |s| > 27 && s[11] == 'w' && s[19] == 's' && s[27] == 'l' then 24
    else if |s| > 27 && s[11] == 'w' && s[19] == 'c' then 25
    else match |s|
         case 7 => 28
         case 13 => if s[0] == 'O' then 21 else if s[1] == 'L' then 22 else 26
         case 14 => if s[0] == 'R' then 0 else 27
         case 15 => 16
         case 17 => 17
         case 19 => 29
         case 20 => 18
         case 21 => 4
         case 22 => 5
         case 23 => 23
         case 26 => 3
         case 30 => 1
         case 35 => 13
         case 36 => 19
         case 40 => 14
         case 44 => if s[11] == 'm' then 2 else 6
         case 45 => 15
         case 48 => 11
         case 51 => 12
         case 52 => 20
         case 62 => 8
         case 64 => 10
         case 66 => 7
         case 68 => 9
         case _ => -1
  }

  function SchedulerSlot(s: string): int {
    if |s| > 23 && s[11] == 's' && s[22] == 'a' && s[23] == 'n' then 32
    else match |s|
         case 7 => 41
         case 13 => if s[0] == 'O' then 37 else if s[1] == 'L' then 38 else 39
         case 14 => if s[0] == 'R' then 0 else 40
         case 17 => 19
         case 19 => 42
         case 20 => 20
         case 21 => 2
         case 22 => 3
         case 27 => 35
         case 29 => 1
         case 30 => 14
         case 31 => if s[11] == 'o' then 9 else 31
         case 35 => 26
         case 36 => 12
         case 37 => if s[11] == 'o' then 11 else 24
         case 38 => 21
         case 39 => if s[35] == 'i' then 16 else 17
         case 40 => 34
         case 41 => if s[11] == 'o' then 13 else if s[11] == 'l' then 23 else 33
         case 42 => if s[11] == 's' then 18 else 22
         case 44 => if s[11] == 's' then 4 else 15
         case 45 => 36
         case 47 => if s[11] == 'o' then 10 else 28
         case 49 => 27
         case 52 => 25
         case 56 => 30
         case 57 => 29
         case 60 => 5
         case 62 => if s[26] == 's' then 6 else 7
         case 64 => 8
         case _ => -1
  }

  function Slot(role: Role, s: string): int {
    match role
    case SchedulerRole => SchedulerSlot(s)
    case WorkerRole => WorkerSlot(s)
  }

  /** The variables are unique and all placed before slot `end`. */
  ghost predicate Placed(role: Role, vars: seq<EnvVar>, end: int) {
    && UniqueNames(vars)
    && forall i :: 0 <= i < |vars| ==> Slot(role, vars[i].name) < end
  }

  lemma Put(role: Role, vars: seq<EnvVar>, v: EnvVar, slot: int) returns (r: seq<EnvVar>)
    requires Placed(role, vars, slot)
    requires Slot(role, v.name) == slot
    ensures r == vars + [v] && Placed(role, r, slot + 1)
  {
    r := vars + [v];
  }

  lemma PutAll(role: Role, vars: seq<EnvVar>, added: seq<EnvVar>, slot: int)
    requires Placed(role, vars, slot)
    requires UniqueNames(added)
    requires forall i :: 0 <= i < |added| ==> Slot(role, added[i].name) == slot
    ensures Placed(role, vars + added, slot + 1)
  {
  }

  // ---------- Storage locations ----------

  /** The operator's own keys of one object store. */
  function OwnKeys(store: ObjectStore, presigned: bool): set<string> {
    {"url"} + if presigned && store.presignDuration.Some? then {"presign_duration"} else {}
  }

  ghost predicate CleanStore(store: ObjectStore, presigned: bool) {
    && (forall i, j :: 0 <= i < j < |store.options| ==> store.options[i].name != store.options[j].name)
    && (forall i :: 0 <= i < |store.options| ==> store.options[i].name !in OwnKeys(store, presigned))
  }

  /** The options of the object store a location uses, if it uses one, are pairwise distinct and avoid its own keys. */
  ghost predicate CleanOptions(data: Option<Storage>, presigned: bool) {
    data.Some? && ActiveStore(data.value).Some? ==> CleanStore(ActiveStore(data.value).value.1, presigned)
  }

  function OwnVars(prefix: string, store: ObjectStore, presigned: bool): seq<EnvVar> {
    [Literal(prefix, "url", store.url)]
    + if presigned && store.presignDuration.Some?
      then [Literal(prefix, "presign_duration", store.presignDuration.value)] else []
  }

  lemma StoreIsOwnThenOptions(vars: seq<EnvVar>, prefix: string, store: ObjectStore, presigned: bool)
    ensures StoreEnv(vars, prefix, store, presigned) ==
            vars + (OwnVars(prefix, store, presigned) + Scoped(prefix, store.options))
  {
  }

  /** The leaf names of one object store, own keys first. */
  function Leaves(store: ObjectStore, presigned: bool): (r: seq<string>)
    ensures |r| == |OwnVars("", store, presigned)| + |store.options|
  {
    ["url"] + (if presigned && store.presignDuration.Some? then ["presign_duration"] else [])
    + seq(|store.options|, i requires 0 <= i < |store.options| => store.options[i].name)
  }

  lemma StoreNamesAreLeaves(prefix: string, store: ObjectStore, presigned: bool)
    ensures var all := OwnVars(prefix, store, presigned) + Scoped(prefix, store.options);
            && |all| == |Leaves(store, presigned)|
            && forall i :: 0 <= i < |all| ==> all[i].name == Qualify(prefix, Leaves(store, presigned)[i])
  {
  }

  lemma LeavesDistinct(store: ObjectStore, presigned: bool)
    ensures Distinct(Leaves(store, presigned)) <==> CleanStore(store, presigned)
  {
    var options, leaves := store.options, Leaves(store, presigned);
    var n := |leaves| - |options|;
    assert forall i :: 0 <= i < |options| ==> leaves[n + i] == options[i].name;
    assert |"url"| != |"presign_duration"|;
    assert forall i :: 0 <= i < n ==> leaves[i] in OwnKeys(store, presigned);
    assert leaves[0] == "url";
    assert n == 2 ==> leaves[1] == "presign_duration";
    if Distinct(leaves) {
      forall i, j | 0 <= i < j < |options|
        ensures options[i].name != options[j].name
      {
        assert leaves[n + i] != leaves[n + j];
      }
    }
    if CleanStore(store, presigned) {
      forall i, j | 0 <= i < j < |leaves|
        ensures leaves[i] != leaves[j]
      {
        if j >= n {
          assert leaves[j] == options[j - n].name;
        }
      }
    }
  }

  /** Within one object store, names repeat exactly when options repeat or shadow an own key. */
  lemma StoreNamesUnique(prefix: string, store: ObjectStore, presigned: bool)
    ensures UniqueNames(OwnVars(prefix, store, presigned) + Scoped(prefix, store.options)) <==>
            CleanStore(store, presigned)
  {
    var all, leaves := OwnVars(prefix, store, presigned) + Scoped(prefix, store.options), Leaves(store, presigned);
    StoreNamesAreLeaves(prefix, store, presigned);
    LeavesDistinct(store, presigned);
    forall i, j | 0 <= i < j < |all|
      ensures all[i].name == all[j].name <==> leaves[i] == leaves[j]
    {
      QualifyInjective(prefix, leaves[i], leaves[j]);
    }
  }

  lemma StorePlaced(role: Role, vars: seq<EnvVar>, prefix: string, store: ObjectStore, presigned: bool, slot: int)
    requires Placed(role, vars, slot)
    requires forall leaf :: Slot(role, Qualify(prefix, leaf)) == slot
    requires CleanStore(store, presigned)
    ensures Placed(role, StoreEnv(vars, prefix, store, presigned), slot + 1)
  {
    var own := OwnVars(prefix, store, presigned);
    var added := own + Scoped(prefix, store.options);
    StoreIsOwnThenOptions(vars, prefix, store, presigned);
    StoreNamesUnique(prefix, store, presigned);
    forall i | 0 <= i < |added|
      ensures Slot(role, added[i].name) == slot
    {
      if i >= |own| { assert added[i].name == Qualify(prefix, store.options[i - |own|].name); }
    }
    PutAll(role, vars, added, slot);
  }

  // ---------- Workers ----------

  lemma WorkerIdentityPlaced(vars: seq<EnvVar>, c: Cluster)
    requires Placed(WorkerRole, vars, 0)
    ensures Placed(WorkerRole, WorkerIdentityEnv(vars, c), 6)
  {
    var r := Put(WorkerRole, vars, EnvVar("RUST_BACKTRACE", "full", None), 0);
    r := Put(WorkerRole, r, Literal(MONITORING, "enabled", "true"), 1);
    if HostMetricsDisabled(c) { r := Put(WorkerRole, r, Literal(HOST_METRICS, "enabled", "false"), 2); }
    r := Put(WorkerRole, r, Literal(WORKER, "enabled", "true"), 3);
    r := Put(WorkerRole, r, Literal(CUBLET, "cluster_id", ResolveClusterID(c)), 4);
    r := Put(WorkerRole, r, Sourced(CUBLET, "instance_id", POD_NAME), 5);
  }

  lemma WorkerLeaderPlaced(vars: seq<EnvVar>, c: Cluster)
    requires Placed(WorkerRole, vars, 6)
    ensures Placed(WorkerRole, WorkerLeaderEnv(vars, c), 11)
  {
    var r := Put(WorkerRole, vars, Literal(STATIC_LEADER, "leader_instance_id", "not-me"), 6);
    r := Put(WorkerRole, r, Literal(STATIC_LEADER, "scheduler_service__public_addr__hostname", InternalHostname(c)), 7);
    r := Put(WorkerRole, r, Literal(STATIC_LEADER, "scheduler_service__public_addr__port", "5050"), 8);
    r := Put(WorkerRole, r, Literal(STATIC_LEADER, "observatory_service__public_addr__hostname", InternalHostname(c)), 9);
    r := Put(WorkerRole, r, Literal(STATIC_LEADER, "observatory_service__public_addr__port", "5049"), 10);
  }

  lemma WorkerServicePlaced(vars: seq<EnvVar>, wp: WorkerPoolSpec)
    requires Placed(WorkerRole, vars, 11)
    ensures Placed(WorkerRole, WorkerServiceEnv(vars, wp), 16)
  {
    var r := Put(WorkerRole, vars, Sourced(WORKER, "task_service__public_addr__ip", POD_IP), 11);
    r := Put(WorkerRole, r, Sourced(WORKER, "shuffle_service__public_addr__ip", POD_IP), 12);
    r := Put(WorkerRole, r, Literal(WORKER, "heartbeat_period", HeartBeat(wp)), 13);
    if wp.hdfs { r := Put(WorkerRole, r, Literal(Qualify(EXTRAS, "hdfs"), "enabled", "true"), 14); }
    if wp.pyIceberg { r := Put(WorkerRole, r, Literal(Qualify(EXTRAS, "pyiceberg"), "enabled", "true"), 15); }
  }

  lemma WorkerProcessPlaced(vars: seq<EnvVar>, c: Cluster)
    requires Placed(WorkerRole, vars, 16)
    ensures Placed(WorkerRole, WorkerProcessEnv(vars, c), 19)
  {
    var r := Put(WorkerRole, vars, EnvVar("POLARS_TEMP_DIR", "/app/temporary_data/temporary_data", None), 16);
    r := Put(WorkerRole, r, EnvVar("OTEL_SERVICE_NAME", c.key.name + "-worker", None), 17);
    if c.spec.acceptEula { r := Put(WorkerRole, r, EnvVar("POLARS_EULA_ACCEPTED", "yes", None), 18); }
  }

  lemma WorkerLicensePlaced(vars: seq<EnvVar>, license: License)
    requires Placed(WorkerRole, vars, 19)
    ensures Placed(WorkerRole, WorkerLicenseEnv(vars, license), 21)
  {
    if license.onPrem.Some? {
      var r := Put(WorkerRole, vars, Literal(ON_PREM, "enabled", "true"), 19);
    } else if license.onPremEnterprise {
      var r := Put(WorkerRole, vars, Literal(ON_PREM_ENTERPRISE, "license_path", LICENSE_PATH), 20);
    }
  }

  lemma WorkerTelemetryPlaced(vars: seq<EnvVar>, c: Cluster)
    requires Placed(WorkerRole, vars, 21)
    ensures Placed(WorkerRole, TelemetryEnv(vars, c), 23)
  {
    var r := vars;
    if c.spec.otlpEndpoint.Some? { r := Put(WorkerRole, r, Either("", "OTLP_ENDPOINT", c.spec.otlpEndpoint.value), 21); }
    r := Put(WorkerRole, r, EnvVar("PLC_LOG_LEVEL", LogLevel(c), None), 22);
  }

  lemma CpuPlaced(vars: seq<EnvVar>, cpuRequest: Option<string>)
    requires Placed(WorkerRole, vars, 23)
    ensures Placed(WorkerRole, CpuEnv(vars, cpuRequest), 24)
  {
    if cpuRequest.Some? {
      var r := Put(WorkerRole, vars, Literal(CUBLET, "cpu_reserved", cpuRequest.value), 23);
    }
  }

  lemma ShuffleSlot(section: string, leaf: string)
    ensures WorkerSlot(Qualify(Qualify(SHUFFLE, section), leaf)) == 24
  {
  }

  lemma CheckpointSlot(section: string, leaf: string)
    ensures WorkerSlot(Qualify(Qualify(CHECKPOINT_DATA, section), leaf)) == 25
  {
  }

  lemma AnonymousResultsSlot(section: string, leaf: string)
    ensures SchedulerSlot(Qualify(Qualify(ANONYMOUS_RESULTS, section), leaf)) == 32
  {
  }

  lemma ShufflePlaced(vars: seq<EnvVar>, data: Option<Storage>)
    requires Placed(WorkerRole, vars, 24)
    requires CleanOptions(data, false)
    ensures Placed(WorkerRole, ShuffleEnv(vars, SHUFFLE, data), 25)
  {
    if data.Some? && ActiveStore(data.value).Some? {
      var (section, store) := ActiveStore(data.value).value;
      forall leaf ensures Slot(WorkerRole, Qualify(Qualify(SHUFFLE, section), leaf)) == 24 {
        ShuffleSlot(section, leaf);
      }
      StorePlaced(WorkerRole, vars, Qualify(SHUFFLE, section), store, false, 24);
    } else if data.Some? && data.value.sharedFilesystem.Some? {
      ShuffleSlot("shared_filesystem", "path");
    } else {
      ShuffleSlot("local", "path");
    }
  }

  lemma CheckpointPlaced(vars: seq<EnvVar>, checkpoint: Option<Checkpoint>)
    requires Placed(WorkerRole, vars, 25)
    requires CleanOptions(CheckpointData(checkpoint), false)
    ensures Placed(WorkerRole, CheckpointEnv(vars, CHECKPOINT_DATA, checkpoint), 26)
  {
    var data := CheckpointData(checkpoint);
    if data.Some? && ActiveStore(data.value).Some? {
      var (section, store) := ActiveStore(data.value).value;
      forall leaf ensures Slot(WorkerRole, Qualify(Qualify(CHECKPOINT_DATA, section), leaf)) == 25 {
        CheckpointSlot(section, leaf);
      }
      StorePlaced(WorkerRole, vars, Qualify(CHECKPOINT_DATA, section), store, false, 25);
    } else if data.Some? && data.value.sharedFilesystem.Some? {
      CheckpointSlot("shared_filesystem", "path");
    }
  }

  lemma AnonymousResultsPlaced(vars: seq<EnvVar>, data: Option<Storage>)
    requires Placed(SchedulerRole, vars, 32)
    requires CleanOptions(data, true)
    ensures Placed(SchedulerRole, AnonymousResultsEnv(vars, ANONYMOUS_RESULTS, data), 33)
  {
    if data.Some? && ActiveStore(data.value).Some? {
      var (section, store) := ActiveStore(data.value).value;
      forall leaf ensures Slot(SchedulerRole, Qualify(Qualify(ANONYMOUS_RESULTS, section), leaf)) == 32 {
        AnonymousResultsSlot(section, leaf);
      }
      StorePlaced(SchedulerRole, vars, Qualify(ANONYMOUS_RESULTS, section), store, true, 32);
    } else if data.Some? && data.value.sharedFilesystem.Some? {
      AnonymousResultsSlot("local", "path");
    }
  }

  lemma WorkerRuntimePlaced(vars: seq<EnvVar>, runtime: Option<ComposedRuntime>)
    requires Placed(WorkerRole, vars, 26)
    ensures Placed(WorkerRole, vars + RuntimeEnv(runtime), 30)
  {
    if runtime.Some? {
      var env := RuntimeEnv(runtime);
      var r := Put(WorkerRole, vars, env[0], 26);
      r := Put(WorkerRole, r, env[1], 27);
      r := Put(WorkerRole, r, env[2], 28);
      if |env| == 4 { r := Put(WorkerRole, r, env[3], 29); }
      assert r == vars + env;
    } else {
      assert vars + RuntimeEnv(runtime) == vars;
    }
  }

  function CheckpointData(checkpoint: Option<Checkpoint>): Option<Storage> {
    if checkpoint.Some? then Some(checkpoint.value.data) else None
  }

  lemma WorkerNamesUnique(c: Cluster, cpuRequest: Option<string>)
    requires CleanOptions(c.spec.workerPool.shuffleData, false)
    requires CleanOptions(CheckpointData(c.spec.checkpoint), false)
    ensures UniqueNames(WorkerEnv(c, cpuRequest))
  {
    WorkerIdentityPlaced([], c);
    var identity := WorkerIdentityEnv([], c);
    WorkerLeaderPlaced(identity, c);
    var leader := WorkerLeaderEnv(identity, c);
    WorkerServicePlaced(leader, c.spec.workerPool);
    WorkerTailUnique(WorkerServiceEnv(leader, c.spec.workerPool), c, cpuRequest);
  }

  lemma WorkerTailUnique(role: seq<EnvVar>, c: Cluster, cpuRequest: Option<string>)
    requires Placed(WorkerRole, role, 16)
    requires CleanOptions(c.spec.workerPool.shuffleData, false)
    requires CleanOptions(CheckpointData(c.spec.checkpoint), false)
    ensures UniqueNames(WorkerPlacementEnv(WorkerAccessEnv(role, c), c, cpuRequest) + RuntimeEnv(c.spec.runtime))
  {
    WorkerProcessPlaced(role, c);
    var process := WorkerProcessEnv(role, c);
    WorkerLicensePlaced(process, c.spec.license);
    var license := WorkerLicenseEnv(process, c.spec.license);
    WorkerTelemetryPlaced(license, c);
    var telemetry := TelemetryEnv(license, c);
    CpuPlaced(telemetry, cpuRequest);
    var cpu := CpuEnv(telemetry, cpuRequest);
    ShufflePlaced(cpu, c.spec.workerPool.shuffleData);
    var shuffled := ShuffleEnv(cpu, SHUFFLE, c.spec.workerPool.shuffleData);
    CheckpointPlaced(shuffled, c.spec.checkpoint);
    WorkerRuntimePlaced(CheckpointEnv(shuffled, CHECKPOINT_DATA, c.spec.checkpoint), c.spec.runtime);
  }

  // ---------- Scheduler ----------

  lemma SchedulerIdentityPlaced(vars: seq<EnvVar>, c: Cluster)
    requires Placed(SchedulerRole, vars, 0)
    ensures Placed(SchedulerRole, SchedulerIdentityEnv(vars, c), 4)
  {
    var r := Put(SchedulerRole, vars, EnvVar("RUST_BACKTRACE", "full", None), 0);
    r := Put(SchedulerRole, r, Literal(SCHEDULER, "enabled", "true"), 1);
    r := Put(SchedulerRole, r, Literal(CUBLET, "cluster_id", ResolveClusterID(c)), 2);
    r := Put(SchedulerRole, r, Sourced(CUBLET, "instance_id", POD_NAME), 3);
  }

  lemma SchedulerLeaderPlaced(vars: seq<EnvVar>)
    requires Placed(SchedulerRole, vars, 4)
    ensures Placed(SchedulerRole, SchedulerLeaderEnv(vars), 9)
  {
    var r := Put(SchedulerRole, vars, Sourced(STATIC_LEADER, "leader_instance_id", POD_NAME), 4);
    r := Put(SchedulerRole, r, Literal(STATIC_LEADER, "scheduler_service__public_addr__ip", "127.0.0.1"), 5);
    r := Put(SchedulerRole, r, Literal(STATIC_LEADER, "scheduler_service__public_addr__port", "5050"), 6);
    r := Put(SchedulerRole, r, Literal(STATIC_LEADER, "observatory_service__public_addr__ip", "127.0.0.1"), 7);
    r := Put(SchedulerRole, r, Literal(STATIC_LEADER, "observatory_service__public_addr__port", "5049"), 8);
  }

  lemma ObservatoryPlaced(vars: seq<EnvVar>, c: Cluster)
    requires Placed(SchedulerRole, vars, 9)
    ensures Placed(SchedulerRole, ObservatoryEnv(vars, c), 16)
  {
    var r := Put(SchedulerRole, vars, Literal(OBSERVATORY, "enabled", "true"), 9);
    r := Put(SchedulerRole, r, Literal(OBSERVATORY, "max_metrics_bytes_total", FormatInt(MaxMetricsBytes(c))), 10);
    r := Put(SchedulerRole, r, Literal(OBSERVATORY, "database_path", "/app/observatory_data/observatory.db"), 11);
    r := Put(SchedulerRole, r, Literal(OBSERVATORY, "cluster_mode", "kubernetes"), 12);
    r := Put(SchedulerRole, r, Literal(Qualify(OBSERVATORY, "rest_api"), "enabled", "true"), 13);
    r := Put(SchedulerRole, r, Literal(MONITORING, "enabled", "true"), 14);
    if HostMetricsDisabled(c) { r := Put(SchedulerRole, r, Literal(HOST_METRICS, "enabled", "false"), 15); }
  }

  lemma SchedulerPolicyPlaced(vars: seq<EnvVar>, c: Cluster)
    requires Placed(SchedulerRole, vars, 16)
    ensures Placed(SchedulerRole, SchedulerPolicyEnv(vars, c), 21)
  {
    var r := Put(SchedulerRole, vars, Literal(SCHEDULER, "allow_local_sinks", FormatBool(c.spec.allowLocalSinks)), 16);
    r := Put(SchedulerRole, r, Literal(SCHEDULER, "allow_local_scans", FormatBool(c.spec.allowLocalScans)), 17);
    r := Put(SchedulerRole, r, Literal(SCHEDULER, "deny_anonymous_users", FormatBool(!c.spec.allowAnonymousUsers)), 18);
    r := Put(SchedulerRole, r, EnvVar("OTEL_SERVICE_NAME", SchedulerServiceName(c), None), 19);
    if c.spec.acceptEula { r := Put(SchedulerRole, r, EnvVar("POLARS_EULA_ACCEPTED", "yes", None), 20); }
  }

  lemma OnPremLicensePlaced(vars: seq<EnvVar>, onPrem: OnPrem)
    requires Placed(SchedulerRole, vars, 21)
    ensures Placed(SchedulerRole, SchedulerLicenseEnv(vars, License(Some(onPrem), false, None)), 25)
  {
    var r := Put(SchedulerRole, vars, Either(ON_PREM, "client_id", onPrem.clientID), 21);
    r := Put(SchedulerRole, r, Either(ON_PREM, "client_secret", onPrem.clientSecret), 22);
    r := Put(SchedulerRole, r, Either(ON_PREM, "workspace_id", onPrem.workspaceID), 23);
    r := Put(SchedulerRole, r, Literal(ON_PREM, "cert_dir", "/mnt/license_data"), 24);
  }

  lemma CloudLicensePlaced(vars: seq<EnvVar>, registerNode: Option<RegisterNode>)
    requires Placed(SchedulerRole, vars, 26)
    ensures Placed(SchedulerRole, CloudLicenseEnv(vars, registerNode), 31)
  {
    var r := Put(SchedulerRole, vars, Literal(CLOUD, "cert_dir", "/mnt/cloud_license/"), 26);
    r := Put(SchedulerRole, r, Literal(CLOUD, "notify_query_submitted", "true"), 27);
    r := Put(SchedulerRole, r, Literal(CLOUD, "enable_query_polling", "false"), 28);
    if registerNode.Some? {
      r := Put(SchedulerRole, r, Either(REGISTER_NODE, "private_address", registerNode.value.privateAddress), 29);
      if registerNode.value.publicAddress.Some? {
        r := Put(SchedulerRole, r, Either(REGISTER_NODE, "public_address", registerNode.value.publicAddress.value), 30);
      }
    }
  }

  lemma SchedulerLicensePlaced(vars: seq<EnvVar>, license: License)
    requires Placed(SchedulerRole, vars, 21)
    ensures Placed(SchedulerRole, SchedulerLicenseEnv(vars, license), 31)
  {
    if license.onPrem.Some? {
      OnPremLicensePlaced(vars, license.onPrem.value);
    } else if license.onPremEnterprise {
      var r := Put(SchedulerRole, vars, Literal(ON_PREM_ENTERPRISE, "license_path", LICENSE_PATH), 25);
    } else if license.cloud.Some? {
      CloudLicensePlaced(vars, license.cloud.value.registerNode);
    }
  }

  lemma WorkerCountPlaced(vars: seq<EnvVar>, c: Cluster)
    requires Placed(SchedulerRole, vars, 31)
    ensures Placed(SchedulerRole, WorkerCountEnv(vars, c), 32)
  {
    var r := Put(SchedulerRole, vars, Literal(SCHEDULER, "n_workers", FormatInt(c.spec.workerPool.replicas as int)), 31);
  }

  lemma CheckpointPolicyPlaced(vars: seq<EnvVar>, c: Cluster)
    requires Placed(SchedulerRole, vars, 33)
    ensures Placed(SchedulerRole, CheckpointPolicyEnv(vars, c), 35)
  {
    if c.spec.checkpoint.Some? {
      var period := c.spec.checkpoint.value.period;
      var r := Put(SchedulerRole, vars, Literal(CHECKPOINT, "enabled", "true"), 33);
      r := Put(SchedulerRole, r, Literal(CHECKPOINT, "period", if period.Some? then period.value else "20m"), 34);
    }
  }

  lemma LineagePlaced(vars: seq<EnvVar>, c: Cluster)
    requires Placed(SchedulerRole, vars, 35)
    ensures Placed(SchedulerRole, LineageEnv(vars, c), 37)
  {
    if c.spec.lineage.Some? {
      var r := Put(SchedulerRole, vars, Literal(LINEAGE, "enabled", "true"), 35);
      if c.spec.lineage.value.http.Some? {
        r := Put(SchedulerRole, r, Literal(LINEAGE, "transport__http__endpoint", c.spec.lineage.value.http.value), 36);
      }
    }
  }

  lemma SchedulerTelemetryPlaced(vars: seq<EnvVar>, c: Cluster)
    requires Placed(SchedulerRole, vars, 37)
    ensures Placed(SchedulerRole, TelemetryEnv(vars, c), 39)
  {
    var r := vars;
    if c.spec.otlpEndpoint.Some? {
      r := Put(SchedulerRole, r, Either("", "OTLP_ENDPOINT", c.spec.otlpEndpoint.value), 37);
    }
    r := Put(SchedulerRole, r, EnvVar("PLC_LOG_LEVEL", LogLevel(c), None), 38);
  }

  lemma SchedulerRuntimePlaced(vars: seq<EnvVar>, runtime: Option<ComposedRuntime>)
    requires Placed(SchedulerRole, vars, 39)
    ensures Placed(SchedulerRole, vars + RuntimeEnv(runtime), 43)
  {
    if runtime.Some? {
      var env := RuntimeEnv(runtime);
      var r := Put(SchedulerRole, vars, env[0], 39);
      r := Put(SchedulerRole, r, env[1], 40);
      r := Put(SchedulerRole, r, env[2], 41);
      if |env| == 4 { r := Put(SchedulerRole, r, env[3], 42); }
      assert r == vars + env;
    } else {
      assert vars + RuntimeEnv(runtime) == vars;
    }
  }

  lemma SchedulerNamesUnique(c: Cluster)
    requires CleanOptions(c.spec.anonymousResults, true)
    ensures UniqueNames(SchedulerEnv(c))
  {
    SchedulerIdentityPlaced([], c);
    var identity := SchedulerIdentityEnv([], c);
    SchedulerLeaderPlaced(identity);
    var leader := SchedulerLeaderEnv(identity);
    ObservatoryPlaced(leader, c);
    var role := ObservatoryEnv(leader, c);
    SchedulerPolicyPlaced(role, c);
    var policy := SchedulerPolicyEnv(role, c);
    SchedulerLicensePlaced(policy, c.spec.license);
    SchedulerTailUnique(SchedulerLicenseEnv(policy, c.spec.license), c);
  }

  lemma SchedulerTailUnique(access: seq<EnvVar>, c: Cluster)
    requires Placed(SchedulerRole, access, 31)
    requires CleanOptions(c.spec.anonymousResults, true)
    ensures UniqueNames(TelemetryEnv(QueryEnv(access, c), c) + RuntimeEnv(c.spec.runtime))
  {
    WorkerCountPlaced(access, c);
    var counted := WorkerCountEnv(access, c);
    AnonymousResultsPlaced(counted, c.spec.anonymousResults);
    var results := AnonymousResultsEnv(counted, ANONYMOUS_RESULTS, c.spec.anonymousResults);
    CheckpointPolicyPlaced(results, c);
    var checkpoint := CheckpointPolicyEnv(results, c);
    LineagePlaced(checkpoint, c);
    var lineage := LineageEnv(checkpoint, c);
    SchedulerTelemetryPlaced(lineage, c);
    SchedulerRuntimePlaced(TelemetryEnv(lineage, c), c.spec.runtime);
  }

  // ---------- The exact condition ----------

  lemma UniquePrefix(vars: seq<EnvVar>, more: seq<EnvVar>)
    requires UniqueNames(vars + more)
    ensures UniqueNames(vars) && UniqueNames(more)
  {
    assert forall i :: 0 <= i < |vars| ==> (vars + more)[i] == vars[i];
    assert forall i :: 0 <= i < |more| ==> (vars + more)[|vars| + i] == more[i];
  }

  lemma UniqueStoreIsClean(vars: seq<EnvVar>, prefix: string, store: ObjectStore, presigned: bool)
    requires UniqueNames(StoreEnv(vars, prefix, store, presigned))
    ensures UniqueNames(vars) && CleanStore(store, presigned)
  {
    StoreIsOwnThenOptions(vars, prefix, store, presigned);
    UniquePrefix(vars, OwnVars(prefix, store, presigned) + Scoped(prefix, store.options));
    StoreNamesUnique(prefix, store, presigned);
  }

  lemma UniqueShuffleIsClean(vars: seq<EnvVar>, data: Option<Storage>)
    requires UniqueNames(ShuffleEnv(vars, SHUFFLE, data))
    ensures CleanOptions(data, false)
  {
    if data.Some? && ActiveStore(data.value).Some? {
      var (section, store) := ActiveStore(data.value).value;
      UniqueStoreIsClean(vars, Qualify(SHUFFLE, section), store, false);
    }
  }

  lemma UniqueCheckpointIsClean(vars: seq<EnvVar>, checkpoint: Option<Checkpoint>)
    requires UniqueNames(CheckpointEnv(vars, CHECKPOINT_DATA, checkpoint))
    ensures UniqueNames(vars) && CleanOptions(CheckpointData(checkpoint), false)
  {
    var data := CheckpointData(checkpoint);
    if data.Some? && ActiveStore(data.value).Some? {
      var (section, store) := ActiveStore(data.value).value;
      UniqueStoreIsClean(vars, Qualify(CHECKPOINT_DATA, section), store, false);
    } else if data.Some? && data.value.sharedFilesystem.Some? {
      var path := Literal(Qualify(CHECKPOINT_DATA, "shared_filesystem"), "path", data.value.sharedFilesystem.value);
      UniquePrefix(vars, [path]);
    }
  }

  /** A worker pod's computed environment has no duplicate names exactly when the options of the shuffle and checkpoint
      stores it uses are pairwise distinct and none of them is "url". */
  lemma WorkerEnvNames(c: Cluster, cpuRequest: Option<string>)
    ensures UniqueNames(WorkerEnv(c, cpuRequest)) <==>
            CleanOptions(c.spec.workerPool.shuffleData, false) && CleanOptions(CheckpointData(c.spec.checkpoint), false)
  {
    if CleanOptions(c.spec.workerPool.shuffleData, false) && CleanOptions(CheckpointData(c.spec.checkpoint), false) {
      WorkerNamesUnique(c, cpuRequest);
    }
    if UniqueNames(WorkerEnv(c, cpuRequest)) {
      var cpu := CpuEnv(WorkerAccessEnv(WorkerRoleEnv([], c), c), cpuRequest);
      var shuffled := ShuffleEnv(cpu, SHUFFLE, c.spec.workerPool.shuffleData);
      UniquePrefix(CheckpointEnv(shuffled, CHECKPOINT_DATA, c.spec.checkpoint), RuntimeEnv(c.spec.runtime));
      UniqueCheckpointIsClean(shuffled, c.spec.checkpoint);
      UniqueShuffleIsClean(cpu, c.spec.workerPool.shuffleData);
    }
  }

  lemma QueryTailUnique(results: seq<EnvVar>, c: Cluster)
    requires UniqueNames(TelemetryEnv(LineageEnv(CheckpointPolicyEnv(results, c), c), c) + RuntimeEnv(c.spec.runtime))
    ensures UniqueNames(results)
  {
    var checkpoint := CheckpointPolicyEnv(results, c);
    var lineage := LineageEnv(checkpoint, c);
    var telemetry := TelemetryEnv(lineage, c);
    UniquePrefix(telemetry, RuntimeEnv(c.spec.runtime));
    assert telemetry[..|lineage|] == lineage;
    UniquePrefix(lineage, telemetry[|lineage|..]);
    assert lineage == checkpoint + lineage[|checkpoint|..];
    UniquePrefix(checkpoint, lineage[|checkpoint|..]);
    assert checkpoint == results + checkpoint[|results|..];
    UniquePrefix(results, checkpoint[|results|..]);
  }

  /** A scheduler pod's computed environment has no duplicate names exactly when the options of the anonymous-results
      store it uses are pairwise distinct and none of them is "url", nor "presign_duration" when that is set. */
  lemma SchedulerEnvNames(c: Cluster)
    ensures UniqueNames(SchedulerEnv(c)) <==> CleanOptions(c.spec.anonymousResults, true)
  {
    if CleanOptions(c.spec.anonymousResults, true) {
      SchedulerNamesUnique(c);
    }
    if UniqueNames(SchedulerEnv(c)) {
      var counted := WorkerCountEnv(SchedulerAccessEnv(SchedulerRoleEnv([], c), c), c);
      var data := c.spec.anonymousResults;
      QueryTailUnique(AnonymousResultsEnv(counted, ANONYMOUS_RESULTS, data), c);
      if data.Some? && ActiveStore(data.value).Some? {
        var (section, store) := ActiveStore(data.value).value;
        UniqueStoreIsClean(counted, Qualify(ANONYMOUS_RESULTS, section), store, true);
      }
    }
  }
}
