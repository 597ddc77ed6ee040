/** What one scheduler pass may do, for any read, current or not, and any failures. */
module SchedulerLaws {
  import opened Kube
  import opened Errors
  import opened PolarsCluster
  import opened ApiServer
  import opened Readiness
  import opened Scheduler

  /** A read of the scheduler pod, possibly out of date: it is found by name. */
  predicate NamedRead(cached: Option<Pod>, c: Cluster) {
    cached.Some? ==> cached.value.key == SchedulerPodKey(c)
  }

  predicate UpToDateRead(cached: Option<Pod>, pods: Pods, c: Cluster) {
    cached == Lookup(pods, SchedulerPodKey(c))
  }

  /** A live pod of another template, the only kind the operator means to delete. */
  predicate Outdated(pod: Pod, hash: string) {
    !pod.terminating && pod.labels.templateHash != hash
  }

  /** What a scheduler write does to the store. */
  ghost predicate SchedulerWrite(w: PodWrite, c: Cluster, hash: string) {
    && w.key == SchedulerPodKey(c)
    && match w.kind
       case CreateScheduler => w.key !in w.before && w.after == w.before[w.key := SchedulerPod(c, hash)]
       case ReplaceScheduler => w.key in w.before && w.after == MarkTerminating(w.before, w.key)
       case _ => false
  }

  /** A pass makes at most one write, and that only to the pod of the scheduler's name. A Create takes effect only when
      no pod has that name, a terminating one included; a Delete keeps the name taken. */
  lemma AtMostOneWrite(fleet: Fleet, cached: Option<Pod>, c: Cluster, hash: string, faults: Faults)
    requires NamedRead(cached, c)
    ensures var out := SchedulerStep(fleet, cached, c, hash, faults).fleet;
            || (out.pods == fleet.pods && out.writes == fleet.writes)
            || (|out.writes| == |fleet.writes| + 1 && fleet.writes <= out.writes
                && var w := out.writes[|fleet.writes|];
                   w.before == fleet.pods && w.after == out.pods && SchedulerWrite(w, c, hash))
  {
    hide PodIsReady, PodNotReadyMessage, IsNotFound, ClassifyAPIError;
  }

  /** The report and the event say what was done: "just created" and SchedulerPodCreated when a pod was created; "being
      recreated" and SchedulerPodRecreating when the read showed an outdated pod and its deletion did not fail, a pod
      already gone included; otherwise the observed pod's state, no event, and no pod is touched. */
  lemma TellsWhatItDid(fleet: Fleet, cached: Option<Pod>, c: Cluster, hash: string, faults: Faults)
    requires NamedRead(cached, c)
    ensures var out := SchedulerStep(fleet, cached, c, hash, faults);
            var created := |out.fleet.writes| > |fleet.writes| && out.fleet.writes[|fleet.writes|].kind.CreateScheduler?;
            var recreating := faults(SchedulerGet).None? && cached.Some? && Outdated(cached.value, hash)
              && (DeleteError(fleet.pods, SchedulerPodKey(c), faults).None?
                  || IsNotFound(DeleteError(fleet.pods, SchedulerPodKey(c), faults).value));
            && (created ==> out.result == Ok(JUST_CREATED))
            && (recreating ==> out.result == Ok(RECREATING))
            && (!created && !recreating && out.result.Ok? ==> cached.Some? && out.result == Ok(Observed(cached.value)))
            && out.fleet.events ==
               fleet.events + (if created then [SchedulerCreated(SchedulerPodKey(c))]
                               else if recreating then [SchedulerRecreating(SchedulerPodKey(c))] else [])
            && (!created && !recreating ==> out.fleet.pods == fleet.pods)
  {
    hide PodIsReady, PodNotReadyMessage, ClassifyAPIError;
  }

  /** Ready is reported exactly when the read succeeds and shows a Ready pod that either carries the current template or
      is already terminating, whatever its template. A ready report has no message, any other has one. */
  lemma ReadyTruth(fleet: Fleet, cached: Option<Pod>, c: Cluster, hash: string, faults: Faults)
    ensures var r := SchedulerStep(fleet, cached, c, hash, faults).result;
            && (r.Ok? && r.value.ready <==>
                  faults(SchedulerGet).None? && cached.Some? && PodIsReady(cached.value)
                  && (cached.value.terminating || cached.value.labels.templateHash == hash))
            && (r.Ok? ==> (r.value.message == "" <==> r.value.ready))
  {
  }

  // ---------- Which pods a Delete reaches ----------

  /** The pass deletes a pod that is current or already terminating. */
  ghost predicate DeletesWrongly(fleet: Fleet, cached: Option<Pod>, c: Cluster, hash: string, faults: Faults) {
    var out := SchedulerStep(fleet, cached, c, hash, faults).fleet;
    && |out.writes| > |fleet.writes|
    && out.writes[|fleet.writes|].kind == ReplaceScheduler
    && SchedulerPodKey(c) in fleet.pods
    && !Outdated(fleet.pods[SchedulerPodKey(c)], hash)
  }

  /** The exact condition under which a Delete reaches a pod it was not meant for: the read showed an outdated pod, and
      by then another one, current or terminating, had its name. */
  lemma WrongDeletes(fleet: Fleet, cached: Option<Pod>, c: Cluster, hash: string, faults: Faults)
    requires NamedRead(cached, c)
    ensures DeletesWrongly(fleet, cached, c, hash, faults) <==>
            && faults(SchedulerGet).None? && faults(PodDelete(SchedulerPodKey(c))).None?
            && cached.Some? && Outdated(cached.value, hash)
            && SchedulerPodKey(c) in fleet.pods && !Outdated(fleet.pods[SchedulerPodKey(c)], hash)
  {
    hide PodIsReady, PodNotReadyMessage, IsNotFound, ClassifyAPIError;
  }

  /** So with an up-to-date read a Delete is never issued on a terminating or current scheduler. */
  lemma UpToDateReadDeletesRightly(fleet: Fleet, cached: Option<Pod>, c: Cluster, hash: string, faults: Faults)
    requires UpToDateRead(cached, fleet.pods, c) && WellKeyed(fleet.pods)
    ensures !DeletesWrongly(fleet, cached, c, hash, faults)
  {
    WrongDeletes(fleet, cached, c, hash, faults);
  }

  /** A read that lags behind a completed recreation deletes the new, current pod. */
  lemma LaggingReadDeletesCurrent(c: Cluster, hash: string, previous: string)
    requires previous != hash
    ensures var key := SchedulerPodKey(c);
            var fleet := Fleet(map[key := SchedulerPod(c, hash)], [], []);
            var cached := SchedulerPod(c, previous);
            && NamedRead(Some(cached), c) && DeletesWrongly(fleet, Some(cached), c, hash, _ => None)
  {
    var fleet := Fleet(map[SchedulerPodKey(c) := SchedulerPod(c, hash)], [], []);
    WrongDeletes(fleet, Some(SchedulerPod(c, previous)), c, hash, _ => None);
  }

  // ---------- The phases of a recreation ----------

  datatype Phase = Superseded | Terminating | Absent | UpToDate

  function PhaseOf(pods: Pods, c: Cluster, hash: string): Phase {
    var key := SchedulerPodKey(c);
    if key !in pods then Absent
    else if pods[key].terminating then Terminating
    else if pods[key].labels.templateHash != hash then Superseded
    else UpToDate
  }

  /** The number of steps left until the scheduler runs the current template. */
  function Rank(p: Phase): nat {
    match p
    case Superseded => 3
    case Terminating => 2
    case Absent => 1
    case UpToDate => 0
  }

  function NextPhase(p: Phase): Phase {
    match p
    case Superseded => Terminating
    case Terminating => Terminating
    case Absent => UpToDate
    case UpToDate => UpToDate
  }

  /** A fault-free pass on an up-to-date read moves one phase on, except that it waits for a terminating pod and leaves
      a current one alone; it writes exactly in the phases it moves on from. */
  lemma PhaseStep(fleet: Fleet, cached: Option<Pod>, c: Cluster, hash: string, faults: Faults)
    requires UpToDateRead(cached, fleet.pods, c) && WellKeyed(fleet.pods) && FaultFree(faults)
    ensures var out := SchedulerStep(fleet, cached, c, hash, faults);
            var phase := PhaseOf(fleet.pods, c, hash);
            && out.result.Ok?
            && PhaseOf(out.fleet.pods, c, hash) == NextPhase(phase)
            && (out.fleet.pods == fleet.pods <==> phase in {Terminating, UpToDate})
            && WellKeyed(out.fleet.pods)
            && forall k :: k != SchedulerPodKey(c) ==> Lookup(out.fleet.pods, k) == Lookup(fleet.pods, k)
  {
    hide PodIsReady, PodNotReadyMessage, ClassifyAPIError;
  }
}
