/** The templates, and so their hashes, depend on the identity and the spec of the resource only: neither its status nor
    its metadata makes the operator replace a pod. */
module TemplateFrame {
  import opened Kube
  import opened EnvBuilder
  import opened PolarsCluster
  import opened PodEnv
  import opened PodTemplates

  predicate SameSpec(c: Cluster, d: Cluster) {
    c.key == d.key && c.spec == d.spec
  }

  lemma WorkerRoleFollowsSpec(vars: seq<EnvVar>, c: Cluster, d: Cluster)
    requires SameSpec(c, d)
    ensures WorkerRoleEnv(vars, c) == WorkerRoleEnv(vars, d)
  {
    assert WorkerIdentityEnv(vars, c) == WorkerIdentityEnv(vars, d);
    var identity := WorkerIdentityEnv(vars, c);
    assert WorkerLeaderEnv(identity, c) == WorkerLeaderEnv(identity, d);
  }

  lemma WorkerEnvFollowsSpec(c: Cluster, d: Cluster, cpuRequest: Option<string>)
    requires SameSpec(c, d)
    ensures WorkerEnv(c, cpuRequest) == WorkerEnv(d, cpuRequest)
  {
    WorkerRoleFollowsSpec([], c, d);
    hide WorkerRoleEnv;
    var role := WorkerRoleEnv([], c);
    assert WorkerAccessEnv(role, c) == WorkerAccessEnv(role, d);
    var access := WorkerAccessEnv(role, c);
    assert WorkerPlacementEnv(access, c, cpuRequest) == WorkerPlacementEnv(access, d, cpuRequest);
  }

  lemma WorkerTemplateFollowsSpec(c: Cluster, d: Cluster, lib: Library)
    requires SameSpec(c, d)
    ensures WorkerTemplate(c, lib) == WorkerTemplate(d, lib)
  {
    hide WorkerEnv;
    var base := WorkerBase(c);
    WorkerEnvFollowsSpec(c, d, if |base.containers| > 0 then base.containers[0].cpuRequest else None);
    assert WorkerPatch(c) == WorkerPatch(d);
  }

  lemma SchedulerRoleFollowsSpec(vars: seq<EnvVar>, c: Cluster, d: Cluster)
    requires SameSpec(c, d)
    ensures SchedulerRoleEnv(vars, c) == SchedulerRoleEnv(vars, d)
  {
    assert SchedulerIdentityEnv(vars, c) == SchedulerIdentityEnv(vars, d);
    var leader := SchedulerLeaderEnv(SchedulerIdentityEnv(vars, c));
    assert ObservatoryEnv(leader, c) == ObservatoryEnv(leader, d);
  }

  lemma SchedulerEnvFollowsSpec(c: Cluster, d: Cluster)
    requires SameSpec(c, d)
    ensures SchedulerEnv(c) == SchedulerEnv(d)
  {
    SchedulerRoleFollowsSpec([], c, d);
    hide SchedulerRoleEnv;
    var role := SchedulerRoleEnv([], c);
    assert SchedulerAccessEnv(role, c) == SchedulerAccessEnv(role, d);
    var access := SchedulerAccessEnv(role, c);
    assert QueryEnv(access, c) == QueryEnv(access, d);
    var query := QueryEnv(access, c);
    assert TelemetryEnv(query, c) == TelemetryEnv(query, d);
  }

  lemma SchedulerTemplateFollowsSpec(c: Cluster, d: Cluster, lib: Library)
    requires SameSpec(c, d)
    ensures SchedulerTemplate(c, lib) == SchedulerTemplate(d, lib)
  {
    hide SchedulerEnv;
    SchedulerEnvFollowsSpec(c, d);
    assert SchedulerPatch(c) == SchedulerPatch(d);
  }

  // ---------- The presigned lifetime ----------

  function TimedStore(store: Option<ObjectStore>, duration: Option<string>): Option<ObjectStore> {
    if store.Some? then Some(store.value.(presignDuration := duration)) else None
  }

  /** The same location with another presigned lifetime. */
  function Timed(s: Storage, duration: Option<string>): Storage {
    s.(s3 := TimedStore(s.s3, duration), abs := TimedStore(s.abs, duration), gcs := TimedStore(s.gcs, duration))
  }

  function TimedShuffle(c: Cluster, data: Storage, duration: Option<string>): Cluster {
    c.(spec := c.spec.(workerPool := c.spec.workerPool.(shuffleData := Some(Timed(data, duration)))))
  }

  /** The presigned lifetime of shuffle data reaches no pod: whatever it is, the worker template is the same. */
  lemma ShuffleLifetimeIsIgnored(c: Cluster, data: Storage, a: Option<string>, b: Option<string>, lib: Library)
    ensures WorkerTemplate(TimedShuffle(c, data, a), lib) == WorkerTemplate(TimedShuffle(c, data, b), lib)
  {
    hide WorkerEnv;
    var was, now := TimedShuffle(c, data, a), TimedShuffle(c, data, b);
    var base := WorkerBase(was);
    WorkerEnvIgnoresLifetime(c, data, a, b, if |base.containers| > 0 then base.containers[0].cpuRequest else None);
    assert WorkerPatch(was) == WorkerPatch(now);
  }

  lemma ShuffleEnvIgnoresLifetime(vars: seq<EnvVar>, prefix: string, data: Storage, a: Option<string>,
                                  b: Option<string>)
    ensures ShuffleEnv(vars, prefix, Some(Timed(data, a))) == ShuffleEnv(vars, prefix, Some(Timed(data, b)))
  {
  }

  lemma WorkerRoleIgnoresLifetime(vars: seq<EnvVar>, c: Cluster, data: Storage, a: Option<string>, b: Option<string>)
    ensures WorkerRoleEnv(vars, TimedShuffle(c, data, a)) == WorkerRoleEnv(vars, TimedShuffle(c, data, b))
  {
    var was, now := TimedShuffle(c, data, a), TimedShuffle(c, data, b);
    assert WorkerIdentityEnv(vars, was) == WorkerIdentityEnv(vars, now);
    var identity := WorkerIdentityEnv(vars, was);
    hide WorkerIdentityEnv;
    assert WorkerLeaderEnv(identity, was) == WorkerLeaderEnv(identity, now);
    var leader := WorkerLeaderEnv(identity, was);
    hide WorkerLeaderEnv;
    assert WorkerServiceEnv(leader, was.spec.workerPool) == WorkerServiceEnv(leader, now.spec.workerPool);
  }

  lemma WorkerEnvIgnoresLifetime(c: Cluster, data: Storage, a: Option<string>, b: Option<string>,
                                 cpuRequest: Option<string>)
    ensures WorkerEnv(TimedShuffle(c, data, a), cpuRequest) == WorkerEnv(TimedShuffle(c, data, b), cpuRequest)
  {
    WorkerRoleIgnoresLifetime([], c, data, a, b);
    var was, now := TimedShuffle(c, data, a), TimedShuffle(c, data, b);
    hide WorkerRoleEnv, ShuffleEnv, CheckpointEnv, CpuEnv, RuntimeEnv;
    var role := WorkerRoleEnv([], was);
    assert WorkerAccessEnv(role, was) == WorkerAccessEnv(role, now);
    hide WorkerAccessEnv;
    ShuffleEnvIgnoresLifetime(CpuEnv(WorkerAccessEnv(role, was), cpuRequest), SHUFFLE, data, a, b);
  }

  /** That of anonymous results does: the variables are the same exactly when the lifetimes are, or when the location is
      no object store. */
  lemma ResultsLifetimeIsEmitted(vars: seq<EnvVar>, prefix: string, data: Storage, a: Option<string>,
                                 b: Option<string>)
    ensures var was := AnonymousResultsEnv(vars, prefix, Some(Timed(data, a)));
            var now := AnonymousResultsEnv(vars, prefix, Some(Timed(data, b)));
            was == now <==> a == b || ActiveStore(data).None?
  {
    if ActiveStore(data).Some? {
      var (section, store) := ActiveStore(data).value;
      var place, at := Qualify(prefix, section), |vars| + 1;
      var was := StoreEnv(vars, place, store.(presignDuration := a), true);
      var now := StoreEnv(vars, place, store.(presignDuration := b), true);
      if a.Some? { assert was[at] == Literal(place, "presign_duration", a.value); }
      if b.Some? { assert now[at] == Literal(place, "presign_duration", b.value); }
    }
  }
}
