/** reconcileScheduler of internal/controller/polarscluster_controller.go: the scheduler is a singleton pod under a
    stable name, recreated over two reconciles when its template changes. */
module Scheduler {
  import opened Kube
  import opened Errors
  import opened PolarsCluster
  import opened PodTemplates
  import opened ApiServer
  import opened Readiness

  datatype Observation = Observation(ready: bool, message: string)

  datatype SchedulerOutcome = SchedulerOutcome(fleet: Fleet, result: Result<Observation, Error>)

  const JUST_CREATED := Observation(false, "scheduler pod was just created")
  const RECREATING := Observation(false, "scheduler pod is being recreated for a template change")

  function SchedulerPod(c: Cluster, hash: string): Pod {
    Pod(SchedulerPodKey(c), Labels(c.key.name, COMPONENT_SCHEDULER, hash), false, [], [])
  }

  function SchedulerCreated(key: Key): Event {
    Event(Normal, "SchedulerPodCreated", "Created scheduler pod " + key.name)
  }

  function SchedulerRecreating(key: Key): Event {
    Event(Normal, "SchedulerPodRecreating", "Deleted scheduler pod " + key.name + " for a template change")
  }

  function SchedulerGetError(cached: Option<Pod>, faults: Faults): Option<Error> {
    if faults(SchedulerGet).Some? then faults(SchedulerGet)
    else if cached.None? then Some(MissingError("pod"))
    else None
  }

  /** The read says there is no scheduler pod. */
  function CreateScheduler(fleet: Fleet, c: Cluster, hash: string, faults: Faults): SchedulerOutcome {
    var pod := SchedulerPod(c, hash);
    match CreateError(fleet.pods, pod.key, SchedulerCreate, faults)
    case Some(e) => SchedulerOutcome(fleet, Failed(ClassifyAPIError("SchedulerPodRejected", e)))
    case None =>
      SchedulerOutcome(Record(CreateIn(fleet, pod, WriteKind.CreateScheduler, SchedulerCreate, faults),
                              SchedulerCreated(pod.key)), Ok(JUST_CREATED))
  }

  /** The read shows a live pod of another template. */
  function ReplaceOldScheduler(fleet: Fleet, pod: Pod, faults: Faults): SchedulerOutcome {
    var err := DeleteError(fleet.pods, pod.key, faults);
    if err.Some? && !IsNotFound(err.value) then SchedulerOutcome(fleet, Failed(err.value))
    else SchedulerOutcome(Record(DeleteFrom(fleet, pod.key, ReplaceScheduler, faults), SchedulerRecreating(pod.key)),
                          Ok(RECREATING))
  }

  function Observed(pod: Pod): Observation {
    if PodIsReady(pod) then Observation(true, "") else Observation(false, PodNotReadyMessage(pod))
  }

  /** `cached` is the pod the read returns, if any. */
  function SchedulerStep(fleet: Fleet, cached: Option<Pod>, c: Cluster, hash: string,
                         faults: Faults): SchedulerOutcome {
    var err := SchedulerGetError(cached, faults);
    if err.Some? then
      if IsNotFound(err.value) then CreateScheduler(fleet, c, hash, faults)
      else SchedulerOutcome(fleet, Failed(err.value))
    else if cached.None? then assert false; SchedulerOutcome(fleet, Ok(JUST_CREATED))
    else
      var pod := cached.value;
      if !pod.terminating && pod.labels.templateHash != hash then ReplaceOldScheduler(fleet, pod, faults)
      else SchedulerOutcome(fleet, Ok(Observed(pod)))
  }

  function SchedulerPass(fleet: Fleet, cached: Option<Pod>, c: Cluster, template: Result<PodSpec, Error>, lib: Library,
                         faults: Faults): SchedulerOutcome {
    match template
    case Failed(e) => SchedulerOutcome(fleet, Failed(e))
    case Ok(spec) => SchedulerStep(fleet, cached, c, lib.templateHash(spec), faults)
  }

  method ReconcileScheduler(server: Server, c: Cluster, lib: Library) returns (result: Result<Observation, Error>)
    modifies server`pods, server`writes, server`events
    ensures SchedulerOutcome(server.Snapshot(), result) ==
            SchedulerPass(old(server.Snapshot()), server.cache.scheduler, c, SchedulerTemplate(c, lib), lib, server.faults)
  {
    hide SchedulerTemplate;
    var podTemplate := BuildSchedulerPodTemplate(c, lib);
    if podTemplate.Failed? {
      return Failed(podTemplate.error);
    }
    var hash := lib.templateHash(podTemplate.value);
    var err := SchedulerGetError(server.cache.scheduler, server.faults);
    if err.Some? {
      if !IsNotFound(err.value) {
        return Failed(err.value);
      }
      var pod := SchedulerPod(c, hash);
      var rejected := server.CreatePod(pod, SchedulerCreate, WriteKind.CreateScheduler);
      if rejected.Some? {
        return Failed(ClassifyAPIError("SchedulerPodRejected", rejected.value));
      }
      server.Eventf(SchedulerCreated(pod.key));
      return Ok(JUST_CREATED);
    }
    var existing := server.cache.scheduler.value;
    if !existing.terminating && existing.labels.templateHash != hash {
      var failed := server.DeletePod(existing.key, ReplaceScheduler);
      if failed.Some? && !IsNotFound(failed.value) {
        return Failed(failed.value);
      }
      server.Eventf(SchedulerRecreating(existing.key));
      return Ok(RECREATING);
    }
    var ready := CheckPodIsReady(existing);
    if ready {
      return Ok(Observation(true, ""));
    }
    var why := ExplainPodNotReady(existing);
    return Ok(Observation(false, why));
  }
}
