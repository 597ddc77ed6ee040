/** The pod templates the operator computes: BuildSchedulerPodTemplate, BuildWorkerPodTemplate and their hash. */
module PodTemplates {
  import opened Kube
  import opened Errors
  import opened EnvBuilder
  import opened PolarsCluster
  import opened PodEnv

  /** The part of the computed patch that is modelled: its first container's name, environment and probe. */
  datatype Patch = Patch(containerName: string, env: seq<EnvVar>, injectProbe: bool)

  /** A merged pod spec; `merged` is the merge's canonical result. */
  datatype PodSpec = PodSpec(merged: string, serviceAccountName: string)

  /** Library code the operator calls: the strategic merge, the template hash and the version check. Nothing is assumed
      about any of them, in particular not that the hash is injective. */
  datatype Library = Library(
    mergePodSpec: (PodTemplate, Patch) -> Result<string, Error>,
    templateHash: PodSpec -> string,
    versionError: (string, bool) -> Option<string>)

  const NO_TEMPLATE := PodTemplate([], "")

  const INVALID_POD_TEMPLATE := "InvalidPodTemplate"

  function MissingContainer(component: string): Error {
    Spec(INVALID_POD_TEMPLATE,
         Plain(component + ".podTemplate must include at least one container when no runtime is configured"))
  }

  function MergeFailure(component: string, cause: Error): Error {
    Spec(INVALID_POD_TEMPLATE, Wrapped(component + ".podTemplate: " + Text(cause), cause))
  }

  function WorkerBase(c: Cluster): PodTemplate {
    if c.spec.workerPool.podTemplate.Some? then c.spec.workerPool.podTemplate.value else NO_TEMPLATE
  }

  function SchedulerBase(c: Cluster): PodTemplate {
    if c.spec.scheduler.Some? && c.spec.scheduler.value.podTemplate.Some?
    then c.spec.scheduler.value.podTemplate.value else NO_TEMPLATE
  }

  function WorkerPatch(c: Cluster): Patch {
    var base := WorkerBase(c);
    if |base.containers| > 0
    then Patch(base.containers[0].name, WorkerEnv(c, base.containers[0].cpuRequest), !base.containers[0].hasReadinessProbe)
    else Patch(COMPONENT_WORKER, WorkerEnv(c, None), true)
  }

  function SchedulerPatch(c: Cluster): Patch {
    var base := SchedulerBase(c);
    if |base.containers| > 0
    then Patch(base.containers[0].name, SchedulerEnv(c), !base.containers[0].hasReadinessProbe)
    else Patch(COMPONENT_SCHEDULER, SchedulerEnv(c), true)
  }

  function WorkerTemplate(c: Cluster, lib: Library): Result<PodSpec, Error> {
    var base := WorkerBase(c);
    if |base.containers| == 0 && c.spec.runtime.None? then Failed(MissingContainer("workerPool"))
    else match lib.mergePodSpec(base, WorkerPatch(c))
         case Failed(e) => Failed(MergeFailure("workerPool", e))
         case Ok(merged) =>
           Ok(PodSpec(merged, ResolveServiceAccountName(c.spec.workerPool.serviceAccount, c.key.name + "-worker")))
  }

  function SchedulerTemplate(c: Cluster, lib: Library): Result<PodSpec, Error> {
    var base := SchedulerBase(c);
    if |base.containers| == 0 && c.spec.runtime.None? then Failed(MissingContainer("scheduler"))
    else match lib.mergePodSpec(base, SchedulerPatch(c))
         case Failed(e) => Failed(MergeFailure("scheduler", e))
         case Ok(merged) =>
           Ok(PodSpec(merged, ResolveServiceAccountName(SchedulerServiceAccount(c), c.key.name + "-scheduler")))
  }

  /** What building the two templates gives. */
  datatype Templates = Templates(worker: Result<PodSpec, Error>, scheduler: Result<PodSpec, Error>)

  function TemplatesOf(c: Cluster, lib: Library): Templates {
    Templates(WorkerTemplate(c, lib), SchedulerTemplate(c, lib))
  }

  /** A library and the templates it makes of a valid spec. */
  datatype Plan = Plan(lib: Library, worker: PodSpec, scheduler: PodSpec)

  method BuildWorkerPodTemplate(c: Cluster, lib: Library) returns (r: Result<PodSpec, Error>)
    ensures r == WorkerTemplate(c, lib)
  {
    var base := WorkerBase(c);
    var containerName, userProbe, cpuRequest := COMPONENT_WORKER, false, None;
    if |base.containers| > 0 {
      containerName := base.containers[0].name;
      userProbe := base.containers[0].hasReadinessProbe;
      cpuRequest := base.containers[0].cpuRequest;
    } else if c.spec.runtime.None? {
      return Failed(MissingContainer("workerPool"));
    }
    var env := ComputedWorkerEnv(c, cpuRequest);
    var merged := lib.mergePodSpec(base, Patch(containerName, env, !userProbe));
    if merged.Failed? {
      return Failed(MergeFailure("workerPool", merged.error));
    }
    var account := ResolveServiceAccountName(c.spec.workerPool.serviceAccount, c.key.name + "-worker");
    return Ok(PodSpec(merged.value, account));
  }

  method BuildSchedulerPodTemplate(c: Cluster, lib: Library) returns (r: Result<PodSpec, Error>)
    ensures r == SchedulerTemplate(c, lib)
  {
    var base := SchedulerBase(c);
    var containerName, userProbe := COMPONENT_SCHEDULER, false;
    if |base.containers| > 0 {
      containerName := base.containers[0].name;
      userProbe := base.containers[0].hasReadinessProbe;
    } else if c.spec.runtime.None? {
      return Failed(MissingContainer("scheduler"));
    }
    var env := ComputedSchedulerEnv(c);
    var merged := lib.mergePodSpec(base, Patch(containerName, env, !userProbe));
    if merged.Failed? {
      return Failed(MergeFailure("scheduler", merged.error));
    }
    var account := ResolveServiceAccountName(SchedulerServiceAccount(c), c.key.name + "-scheduler");
    return Ok(PodSpec(merged.value, account));
  }

  // ---------- Scaling ----------

  function Scaled(c: Cluster, replicas: Replicas): Cluster {
    c.(spec := c.spec.(workerPool := c.spec.workerPool.(replicas := replicas)))
  }

  /** The worker template, and so its hash, does not depend on the replica count. */
  lemma WorkerTemplateIgnoresReplicas(c: Cluster, replicas: Replicas, lib: Library)
    ensures WorkerTemplate(Scaled(c, replicas), lib) == WorkerTemplate(c, lib)
  {
    var base := WorkerBase(c);
    WorkerEnvIgnoresReplicas(c, replicas, if |base.containers| > 0 then base.containers[0].cpuRequest else None);
    assert WorkerPatch(Scaled(c, replicas)) == WorkerPatch(c);
  }

  lemma WorkerEnvIgnoresReplicas(c: Cluster, replicas: Replicas, cpuRequest: Option<string>)
    ensures WorkerEnv(Scaled(c, replicas), cpuRequest) == WorkerEnv(c, cpuRequest)
  {
    WorkerRoleIgnoresReplicas([], c, replicas);
    var role := WorkerRoleEnv([], c);
    WorkerAccessIgnoresReplicas(role, c, replicas);
    WorkerPlacementIgnoresReplicas(WorkerAccessEnv(role, c), c, replicas, cpuRequest);
  }

  lemma WorkerAccessIgnoresReplicas(vars: seq<EnvVar>, c: Cluster, replicas: Replicas)
    ensures WorkerAccessEnv(vars, Scaled(c, replicas)) == WorkerAccessEnv(vars, c)
  {
  }

  lemma WorkerPlacementIgnoresReplicas(vars: seq<EnvVar>, c: Cluster, replicas: Replicas, cpuRequest: Option<string>)
    ensures WorkerPlacementEnv(vars, Scaled(c, replicas), cpuRequest) == WorkerPlacementEnv(vars, c, cpuRequest)
  {
  }

  lemma WorkerRoleIgnoresReplicas(vars: seq<EnvVar>, c: Cluster, replicas: Replicas)
    ensures WorkerRoleEnv(vars, Scaled(c, replicas)) == WorkerRoleEnv(vars, c)
  {
    var s := Scaled(c, replicas);
    assert WorkerIdentityEnv(vars, s) == WorkerIdentityEnv(vars, c);
    forall vs ensures WorkerLeaderEnv(vs, s) == WorkerLeaderEnv(vs, c) {}
    forall vs ensures WorkerServiceEnv(vs, s.spec.workerPool) == WorkerServiceEnv(vs, c.spec.workerPool) {}
  }

  /** The scheduler's environment does: it carries the worker count, so scaling changes the scheduler's template. */
  lemma SchedulerEnvTracksReplicas(c: Cluster, a: Replicas, b: Replicas)
    ensures SchedulerEnv(Scaled(c, a)) == SchedulerEnv(Scaled(c, b)) <==> a == b
  {
    if SchedulerEnv(Scaled(c, a)) == SchedulerEnv(Scaled(c, b)) {
      var before := SchedulerAccessEnv(SchedulerRoleEnv([], c), c);
      WorkerCountPosition(c, a, before);
      WorkerCountPosition(c, b, before);
      FormatIntInjective(a as int, b as int);
    }
  }

  lemma WorkerCountPosition(c: Cluster, a: Replicas, before: seq<EnvVar>)
    requires before == SchedulerAccessEnv(SchedulerRoleEnv([], c), c)
    ensures |before| < |SchedulerEnv(Scaled(c, a))|
    ensures SchedulerEnv(Scaled(c, a))[|before|].value == FormatInt(a as int)
  {
    var s := Scaled(c, a);
    SchedulerAccessIgnoresReplicas(c, a);
    var counted := WorkerCountEnv(before, s);
    var results := AnonymousResultsEnv(counted, ANONYMOUS_RESULTS, s.spec.anonymousResults);
    AnonymousResultsExtend(counted, s.spec.anonymousResults);
    var checkpoint := CheckpointPolicyEnv(results, s);
    assert checkpoint[|before|] == results[|before|];
    var lineage := LineageEnv(checkpoint, s);
    assert lineage[|before|] == checkpoint[|before|];
    var telemetry := TelemetryEnv(lineage, s);
    assert telemetry[|before|] == lineage[|before|];
  }

  lemma AnonymousResultsExtend(vars: seq<EnvVar>, results: Option<Storage>)
    ensures vars <= AnonymousResultsEnv(vars, ANONYMOUS_RESULTS, results)
  {
  }

  lemma SchedulerAccessIgnoresReplicas(c: Cluster, a: Replicas)
    ensures SchedulerAccessEnv(SchedulerRoleEnv([], Scaled(c, a)), Scaled(c, a)) ==
            SchedulerAccessEnv(SchedulerRoleEnv([], c), c)
  {
    var s := Scaled(c, a);
    assert SchedulerIdentityEnv([], s) == SchedulerIdentityEnv([], c);
    var leader := SchedulerLeaderEnv(SchedulerIdentityEnv([], c));
    assert ObservatoryEnv(leader, s) == ObservatoryEnv(leader, c);
    var role := ObservatoryEnv(leader, c);
    assert SchedulerPolicyEnv(role, s) == SchedulerPolicyEnv(role, c);
  }
}
