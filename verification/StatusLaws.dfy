/** What every status the operator persists satisfies, on the regular exit and on the spec-error exit. */
module StatusLaws {
  import opened Kube
  import opened Errors
  import opened PolarsCluster
  import opened ApiServer
  import opened Conditions
  import opened Reconcile
  import opened SpecReasons
  import Scheduler
  import SchedulerLaws
  import WorkerPool
  import WorkerPoolReports
  import Services
  import Routes
  import RouteLaws

  // ---------- The conditions of a status ----------

  function ConditionOf(s: Status, ctype: string): Option<Condition> {
    Find(s.conditions, ctype)
  }

  predicate Holds(s: Status, ctype: string) {
    IsTrue(s.conditions, ctype)
  }

  /** The four condition types are different. */
  lemma PartsDistinct()
    ensures READY != SCHEDULER_READY && READY != WORKER_POOL_READY && READY != ROUTES_READY
    ensures SCHEDULER_READY != WORKER_POOL_READY && SCHEDULER_READY != ROUTES_READY && WORKER_POOL_READY != ROUTES_READY
  {
    assert |READY| == 5 && |SCHEDULER_READY| == 14 && |WORKER_POOL_READY| == 15 && |ROUTES_READY| == 11;
  }

  /** The conditions of a status the regular exit computes. */
  lemma FullConditions(c: Cluster, s: Scheduler.Observation, w: WorkerPool.Report, r: Routes.RoutesReport)
    ensures var status := FullStatus(c, s, w, r);
            && ConditionOf(status, SCHEDULER_READY) ==
               Some(ReadyCondition(c, SCHEDULER_READY, s.ready, NOT_READY, s.message))
            && ConditionOf(status, WORKER_POOL_READY) ==
                 Some(ReadyCondition(c, WORKER_POOL_READY, PoolReady(c, w.status), NOT_READY, w.message))
            && ConditionOf(status, ROUTES_READY) ==
                 (if r.requested then Some(ReadyCondition(c, ROUTES_READY, r.ready, r.reason, r.message)) else None)
            && ConditionOf(status, READY) ==
                 Some(ReadyCondition(c, READY, AllReady(c, s, w, r), NOT_READY, ReadyMessage(c, s, w, r)))
            && status.scheduler.ready == s.ready && status.workerPool == w.status
            && status.observedGeneration == c.generation
  {
    hide Find, Set, Remove;
    PartsDistinct();
    ConditionThroughStages(c, s, w, r, SCHEDULER_READY);
    ConditionThroughStages(c, s, w, r, WORKER_POOL_READY);
    ConditionThroughStages(c, s, w, r, ROUTES_READY);
    ConditionThroughStages(c, s, w, r, READY);
  }

  /** The stage that sets a condition decides it; the later ones leave it alone. */
  lemma ConditionThroughStages(c: Cluster, s: Scheduler.Observation, w: WorkerPool.Report, r: Routes.RoutesReport,
                               t: string)
    ensures ConditionOf(FullStatus(c, s, w, r), t) ==
            if t == READY then Some(ReadyCondition(c, READY, AllReady(c, s, w, r), NOT_READY, ReadyMessage(c, s, w, r)))
            else if t == ROUTES_READY then
              if r.requested then Some(ReadyCondition(c, ROUTES_READY, r.ready, r.reason, r.message)) else None
            else if t == WORKER_POOL_READY then
              Some(ReadyCondition(c, WORKER_POOL_READY, PoolReady(c, w.status), NOT_READY, w.message))
            else if t == SCHEDULER_READY then Some(ReadyCondition(c, SCHEDULER_READY, s.ready, NOT_READY, s.message))
            else ConditionOf(c.status, t)
  {
    hide Find, Set, Remove, AllReady, ReadyMessage;
    var c1 := WithScheduler(c, s);
    var c2 := WithWorkers(c1, w);
    var c3 := WithRoutes(c2, r);
    FindAfterSet(c.status.conditions, ReadyCondition(c, SCHEDULER_READY, s.ready, NOT_READY, s.message), t);
    FindAfterSet(c1.status.conditions,
                 ReadyCondition(c1, WORKER_POOL_READY, PoolReady(c1, w.status), NOT_READY, w.message), t);
    FindAfterSet(c2.status.conditions, ReadyCondition(c2, ROUTES_READY, r.ready, r.reason, r.message), t);
    FindAfterRemove(c2.status.conditions, ROUTES_READY, t);
    FindAfterSet(c3.status.conditions,
                 ReadyCondition(c3, READY, AllReady(c, s, w, r), NOT_READY, ReadyMessage(c, s, w, r)), t);
  }

  // ---------- What the stages hand to the status ----------

  /** The facts about findings the status rests on: counts in order, and explanations where they are due. */
  predicate Sound(c: Cluster, f: Findings) {
    match f
    case Unexpected(_) => true
    case SpecFailure(condition, se, s) =>
      && condition in {READY, SCHEDULER_READY, WORKER_POOL_READY}
      && se.Spec? && se.reason != ""
      && (s.Some? ==> (s.value.message == "" <==> s.value.ready))
    case Full(s, w, r) =>
      && (s.message == "" <==> s.ready)
      && 0 <= w.status.readyReplicas <= w.status.replicas <= c.spec.workerPool.replicas
      && (w.message == "" <==> PoolReady(c, w.status))
      && (if r.ready then r.reason == "" && r.message == "" && !r.conflict
          else r.requested && r.reason != "" && r.message != "")
  }

  lemma RouteIsSound(c: Cluster, e: Error, condition: string, s: Option<Scheduler.Observation>)
    requires NamedReason(e) && condition in {READY, SCHEDULER_READY, WORKER_POOL_READY}
    requires s.Some? ==> (s.value.message == "" <==> s.value.ready)
    ensures Sound(c, ReportUnder(e, condition, s))
  {
  }

  lemma WorkerReportIsSound(fleet: Fleet, listing: seq<Pod>, c: Cluster, i: Inputs, order: seq<nat>)
    ensures var r := WorkerPool.WorkerPass(fleet, listing, c, i.templates.worker, i.lib, i.names, i.faults, order).result;
            r.Ok? ==> 0 <= r.value.status.readyReplicas <= r.value.status.replicas <= c.spec.workerPool.replicas
                      && (r.value.message == "" <==> PoolReady(c, r.value.status))
  {
    hide WorkerPool.Resize, WorkerPool.ReportOn;
    if i.templates.worker.Ok? && i.faults(WorkerList).None? {
      var b := WorkerPool.BatchOf(c, i.templates.worker.value, i.lib, i.names, i.faults);
      var active := WorkerPoolReports.PassReports(fleet, listing, c, b, order);
      if WorkerPool.Resize(fleet, listing, c, b, order).result.Ok? {
        WorkerPoolReports.ReportTruth(c, active);
      }
    }
  }

  lemma SchedulerReportIsSound(fleet: Fleet, c: Cluster, i: Inputs)
    ensures var r := Scheduler.SchedulerPass(fleet, i.cache.scheduler, c, i.templates.scheduler, i.lib, i.faults).result;
            r.Ok? ==> (r.value.message == "" <==> r.value.ready)
  {
    hide Scheduler.SchedulerStep;
    if i.templates.scheduler.Ok? {
      SchedulerLaws.ReadyTruth(fleet, i.cache.scheduler, c, i.lib.templateHash(i.templates.scheduler.value), i.faults);
    }
  }

  lemma RestIsSound(w: World, c: Cluster, i: Inputs, choice: Choice, s: Scheduler.Observation)
    requires Genuine(i.faults) && NamedTemplates(i.templates)
    requires WorkerPool.Schedule(choice.services, Services.SERVICE_COUNT)
    requires s.message == "" <==> s.ready
    ensures Sound(c, GatherRest(w, c, i, choice, s).findings)
  {
    hide Services.ServicesPass, WorkerPool.WorkerPass, Routes.RoutesPass, NamedReason, ReportUnder, PoolReady, Genuine;
    var services := Services.ServicesPass(w.services, i.cache.services, c, choice.services, i.faults);
    ServicesErrorIsNamed(w.services, i.cache.services, c, choice.services, i.faults);
    if services.err.Some? {
      RouteIsSound(c, services.err.value, READY, Some(s));
    } else {
      var workers := WorkerPool.WorkerPass(w.fleet, i.cache.workers, c, i.templates.worker, i.lib, i.names, i.faults,
                                           choice.workers);
      WorkerErrorsAreNamed(w.fleet, i.cache.workers, c, i.templates, i.lib, i.names, i.faults, choice.workers);
      if workers.result.Failed? {
        RouteIsSound(c, workers.result.error, WORKER_POOL_READY, Some(s));
      } else {
        WorkerReportIsSound(w.fleet, i.cache.workers, c, i, choice.workers);
        RouteLaws.ReportsExplain(w.routes, i.cache.routes, c, Routes.RouteTargets(c), i.gatewayAPIEnabled, i.faults);
      }
    }
  }

  /** Whatever is read and whatever fails, the findings of the stages are sound. */
  lemma GatherIsSound(w: World, c: Cluster, i: Inputs, choice: Choice)
    requires Genuine(i.faults) && NamedTemplates(i.templates)
    requires WorkerPool.Schedule(choice.services, Services.SERVICE_COUNT)
    ensures Sound(c, Gather(w, c, i, choice).findings)
  {
    hide Services.AccountsPass, Scheduler.SchedulerPass, GatherRest, NamedReason, ReportUnder, PoolReady, Genuine;
    var accounts := Services.AccountsPass(w.accounts, c, i.faults);
    AccountErrorsAreNamed(w.accounts, c, i.faults);
    if VersionError(c, i.lib).None? {
      if accounts.err.Some? {
        RouteIsSound(c, accounts.err.value, READY, None);
      } else {
        var scheduler := Scheduler.SchedulerPass(w.fleet, i.cache.scheduler, c, i.templates.scheduler, i.lib, i.faults);
        SchedulerErrorsAreNamed(w.fleet, i.cache.scheduler, c, i.templates, i.lib, i.faults);
        if scheduler.result.Failed? {
          RouteIsSound(c, scheduler.result.error, SCHEDULER_READY, None);
        } else {
          SchedulerReportIsSound(w.fleet, c, i);
          RestIsSound(w.(accounts := accounts.accounts, fleet := scheduler.fleet), c, i, choice, scheduler.result.value);
        }
      }
    }
  }

  // ---------- The invariant of persisted statuses ----------

  /** A True condition says Reconciled and nothing else; any other has a reason. */
  predicate Explained(k: Option<Condition>) {
    k.Some? ==>
      if k.value.status == True then k.value.reason == RECONCILED && k.value.message == "" else k.value.reason != ""
  }

  /** The conditions of the parts agree with the counts and flags beside them. */
  predicate GoodParts(s: Status) {
    && (Holds(s, SCHEDULER_READY) ==> s.scheduler.ready)
    && (Holds(s, WORKER_POOL_READY) ==> s.workerPool.readyReplicas == s.workerPool.replicas)
    && 0 <= s.workerPool.readyReplicas <= s.workerPool.replicas
    && Explained(ConditionOf(s, SCHEDULER_READY))
    && Explained(ConditionOf(s, WORKER_POOL_READY)) && Explained(ConditionOf(s, ROUTES_READY))
  }

  /** Moreover Ready is True only when every part is. */
  predicate GoodStatus(s: Status) {
    && GoodParts(s)
    && (Holds(s, READY) ==> Holds(s, SCHEDULER_READY) && Holds(s, WORKER_POOL_READY)
                            && (ConditionOf(s, ROUTES_READY).None? || Holds(s, ROUTES_READY)))
    && Explained(ConditionOf(s, READY))
  }

  /** The status speaks of a generation no newer than the given one; Ready speaks of the status's own, no condition of a
      newer one. */
  ghost predicate Tracks(s: Status, generation: nat) {
    && s.observedGeneration <= generation
    && (ConditionOf(s, READY).Some? ==> ConditionOf(s, READY).value.observedGeneration == s.observedGeneration)
    && (forall k :: k in s.conditions ==> k.observedGeneration <= s.observedGeneration)
  }

  lemma FullIsGood(c: Cluster, s: Scheduler.Observation, w: WorkerPool.Report, r: Routes.RoutesReport)
    requires Sound(c, Full(s, w, r))
    ensures GoodStatus(FullStatus(c, s, w, r))
  {
    hide Find, FullStatus;
    FullConditions(c, s, w, r);
  }

  ghost predicate UpTo(conditions: seq<Condition>, generation: nat) {
    forall k :: k in conditions ==> k.observedGeneration <= generation
  }

  lemma SetUpTo(conditions: seq<Condition>, condition: Condition, removed: string, generation: nat)
    requires UpTo(conditions, generation) && condition.observedGeneration <= generation
    ensures UpTo(Set(conditions, condition), generation) && UpTo(Remove(conditions, removed), generation)
  {
  }

  lemma FullTracks(c: Cluster, s: Scheduler.Observation, w: WorkerPool.Report, r: Routes.RoutesReport)
    requires Tracks(c.status, c.generation)
    ensures Tracks(FullStatus(c, s, w, r), c.generation)
  {
    hide Find, Set, Remove;
    FullConditions(c, s, w, r);
    assert UpTo(c.status.conditions, c.generation);
    hide UpTo;
    var c1 := WithScheduler(c, s);
    var c2 := WithWorkers(c1, w);
    var c3 := WithRoutes(c2, r);
    SetUpTo(c.status.conditions, ReadyCondition(c, SCHEDULER_READY, s.ready, NOT_READY, s.message), "", c.generation);
    SetUpTo(c1.status.conditions,
            ReadyCondition(c1, WORKER_POOL_READY, PoolReady(c1, w.status), NOT_READY, w.message), "", c.generation);
    SetUpTo(c2.status.conditions,
            ReadyCondition(c2, ROUTES_READY, r.ready, r.reason, r.message), ROUTES_READY, c.generation);
    SetUpTo(c3.status.conditions,
            ReadyCondition(c3, READY, AllReady(c, s, w, r), NOT_READY, ReadyMessage(c, s, w, r)), "", c.generation);
  }

  // ---------- Diagnosis ----------

  /** A True condition needs no words, a False one has a reason and a message. */
  predicate Diagnosed(k: Condition) {
    || (k.status == True && k.reason == RECONCILED && k.message == "")
    || (k.status == False && k.reason != "" && k.message != "")
  }

  /** After the regular exit every condition explains itself, and Ready is True exactly when all parts are; otherwise it
      repeats the message of the first failing part, in the order scheduler, workers, routes. */
  lemma DiagnosisCoherence(c: Cluster, s: Scheduler.Observation, w: WorkerPool.Report, r: Routes.RoutesReport)
    requires Sound(c, Full(s, w, r))
    ensures var status := FullStatus(c, s, w, r);
            var ready, scheduler, workers, routes := ConditionOf(status, READY), ConditionOf(status, SCHEDULER_READY),
              ConditionOf(status, WORKER_POOL_READY), ConditionOf(status, ROUTES_READY);
            && ready.Some? && Diagnosed(ready.value)
            && scheduler.Some? && Diagnosed(scheduler.value)
            && workers.Some? && Diagnosed(workers.value)
            && (routes.Some? ==> Diagnosed(routes.value))
            && (Holds(status, READY) <==>
                  Holds(status, SCHEDULER_READY) && Holds(status, WORKER_POOL_READY)
                  && (routes.None? || Holds(status, ROUTES_READY)))
            && (!Holds(status, READY) ==>
                  ready.value.message ==
                    if !Holds(status, SCHEDULER_READY) then scheduler.value.message
                    else if !Holds(status, WORKER_POOL_READY) then workers.value.message
                    else if routes.Some? then routes.value.message else "")
  {
    hide Find, FullStatus;
    FullConditions(c, s, w, r);
  }

  // ---------- The spec-error exit ----------

  lemma SpecErrorConditions(c: Cluster, condition: string, se: Error, t: string)
    requires se.Spec?
    ensures ConditionOf(WithSpecError(c, condition, se).status, t) ==
            if t == READY || t == condition then Some(SpecErrorCondition(c, t, se)) else ConditionOf(c.status, t)
  {
    hide Find, Set, Text;
    FindAfterSet(c.status.conditions, SpecErrorCondition(c, condition, se), t);
    FindAfterSet(WithCondition(c, SpecErrorCondition(c, condition, se)).status.conditions,
                 SpecErrorCondition(c, READY, se), t);
  }

  /** The converse of GoodParts fails: a spec error met by the scheduler stage turns SchedulerReady False and leaves the
      scheduler's ready flag as it was. */
  lemma FlagSurvivesSpecError(c: Cluster, se: Error)
    requires se.Spec?
    ensures var status := SpecErrorStatus(c, SCHEDULER_READY, se, None);
            && !Holds(status, SCHEDULER_READY) && !Holds(status, READY)
            && status.scheduler == c.status.scheduler && status.workerPool == c.status.workerPool
  {
    hide Find, Set, Text;
    SpecErrorConditions(c, SCHEDULER_READY, se, SCHEDULER_READY);
    SpecErrorConditions(c, SCHEDULER_READY, se, READY);
  }

  lemma WithSchedulerKeepsParts(c: Cluster, s: Scheduler.Observation)
    requires (s.message == "" <==> s.ready) && GoodParts(c.status)
    ensures GoodParts(WithScheduler(c, s).status)
  {
    hide Find, Set;
    PartsDistinct();
    var k := ReadyCondition(c, SCHEDULER_READY, s.ready, NOT_READY, s.message);
    FindAfterSet(c.status.conditions, k, WORKER_POOL_READY);
    FindAfterSet(c.status.conditions, k, ROUTES_READY);
    FindAfterSet(c.status.conditions, k, SCHEDULER_READY);
  }

  lemma WithSpecErrorIsGood(c: Cluster, condition: string, se: Error)
    requires se.Spec? && se.reason != "" && condition in {READY, SCHEDULER_READY, WORKER_POOL_READY} && GoodParts(c.status)
    ensures GoodStatus(WithSpecError(c, condition, se).status)
    ensures !Holds(WithSpecError(c, condition, se).status, READY)
  {
    hide Find, Set, Text;
    PartsDistinct();
    SpecErrorConditions(c, condition, se, READY);
    SpecErrorConditions(c, condition, se, SCHEDULER_READY);
    SpecErrorConditions(c, condition, se, WORKER_POOL_READY);
    SpecErrorConditions(c, condition, se, ROUTES_READY);
  }

  lemma SpecErrorTracks(c: Cluster, condition: string, se: Error, s: Option<Scheduler.Observation>)
    requires se.Spec? && Tracks(c.status, c.generation)
    ensures Tracks(SpecErrorStatus(c, condition, se, s), c.generation)
    ensures SpecErrorStatus(c, condition, se, s).observedGeneration == c.generation
  {
    hide Find, Set, Remove, Text;
    assert UpTo(c.status.conditions, c.generation);
    hide UpTo;
    var c1 := if s.Some? then WithScheduler(c, s.value) else c;
    if s.Some? {
      SetUpTo(c.status.conditions,
              ReadyCondition(c, SCHEDULER_READY, s.value.ready, NOT_READY, s.value.message), "", c.generation);
    }
    SpecErrorConditions(c1, condition, se, READY);
    var k := SpecErrorCondition(c1, condition, se);
    SetUpTo(c1.status.conditions, k, "", c.generation);
    SetUpTo(Set(c1.status.conditions, k), SpecErrorCondition(c1, READY, se), "", c.generation);
  }

  // ---------- Both exits ----------

  /** The status an exit asks to persist; an unexpected error asks for none. */
  function AskedStatus(c: Cluster, f: Findings): Option<Status>
    requires Sound(c, f)
  {
    match f
    case Unexpected(_) => None
    case SpecFailure(condition, se, s) => Some(SpecErrorStatus(c, condition, se, s))
    case Full(s, w, r) => Some(FullStatus(c, s, w, r))
  }

  /** Whatever the stages find, the status asked for meets the invariant and speaks of the generation it was computed
      for; on the spec-error exit Ready is not True. */
  lemma AskedStatusIsGood(c: Cluster, f: Findings)
    requires Sound(c, f) && GoodStatus(c.status) && Tracks(c.status, c.generation)
    ensures var status := AskedStatus(c, f);
            status.Some? ==>
              && GoodStatus(status.value) && Tracks(status.value, c.generation)
              && status.value.observedGeneration == c.generation
              && (f.SpecFailure? ==> !Holds(status.value, READY))
  {
    hide GoodStatus, Tracks, FullStatus, WithSpecError, WithScheduler, Holds;
    match f
    case Unexpected(_) =>
    case SpecFailure(condition, se, s) =>
      PartsOf(c.status);
      if s.Some? { WithSchedulerKeepsParts(c, s.value); }
      WithSpecErrorIsGood(if s.Some? then WithScheduler(c, s.value) else c, condition, se);
      SpecErrorTracks(c, condition, se, s);
    case Full(s, w, r) =>
      FullIsGood(c, s, w, r);
      FullTracks(c, s, w, r);
      FullConditions(c, s, w, r);
  }

  lemma PartsOf(s: Status)
    requires GoodStatus(s)
    ensures GoodParts(s)
  {
  }

  // ---------- The regular exit is idempotent ----------

  /** Observing the same things again asks for the same status. */
  lemma FullStatusIdempotent(c: Cluster, s: Scheduler.Observation, w: WorkerPool.Report, r: Routes.RoutesReport)
    ensures var again := c.(status := FullStatus(c, s, w, r)); FullStatus(again, s, w, r) == again.status
  {
    FullConditions(c, s, w, r);
    hide Find, Set, Remove;
    var d := c.(status := FullStatus(c, s, w, r));
    SetSame(d.status.conditions, ReadyCondition(d, SCHEDULER_READY, s.ready, NOT_READY, s.message));
    assert WithScheduler(d, s) == d;
    SetSame(d.status.conditions, ReadyCondition(d, WORKER_POOL_READY, PoolReady(d, w.status), NOT_READY, w.message));
    assert WithWorkers(d, w) == d;
    if r.requested {
      SetSame(d.status.conditions, ReadyCondition(d, ROUTES_READY, r.ready, r.reason, r.message));
    } else {
      RemoveAbsent(d.status.conditions, ROUTES_READY);
    }
    assert WithRoutes(d, r) == d;
    SetSame(d.status.conditions, ReadyCondition(d, READY, AllReady(d, s, w, r), NOT_READY, ReadyMessage(d, s, w, r)));
  }
}
