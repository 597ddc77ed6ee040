/** What becomes of a call the API server refuses, stage by stage and for a whole reconcile: a rejection of an object's
    content is reported as a spec error with the stage's reason, and every other error is handed on as it is. */
module Rejections {
  import opened Kube
  import opened Errors
  import opened PolarsCluster
  import opened ApiServer
  import opened Reconcile
  import opened Runs
  import opened Diagnoses
  import opened PoolOutcomes
  import Scheduler
  import SchedulerLaws
  import WorkerPool
  import opened ServiceContents
  import Services
  import Routes

  // ---------- Errors ----------

  /** The server refused the content of the object. */
  predicate ContentRefused(e: Error) {
    var a := As(e, ApiKind);
    a.Some? && a.value.status in {Invalid, Forbidden}
  }

  /** `shown` is what a stage makes of the error `e` of a write: a spec error with this reason around it, with its text,
      if the content was refused; otherwise the error itself, in which no spec error occurs. */
  ghost predicate Routed(shown: Error, e: Error, reason: string) {
    if ContentRefused(e) then As(shown, SpecKind) == Some(Spec(reason, e)) && Text(shown) == Text(e)
    else shown == e && !Occurs(e, SpecKind)
  }

  lemma ClassifyRoutes(reason: string, e: Error)
    requires !Occurs(e, SpecKind)
    ensures Routed(ClassifyAPIError(reason, e), e, reason)
  {
    ClassifyRouting(reason, e);
  }

  lemma GenuineFault(faults: Faults, site: CallSite)
    requires Genuine(faults) && faults(site).Some?
    ensures !Occurs(faults(site).value, SpecKind)
  {
  }

  // ---------- The scheduler ----------

  /** The read finds no scheduler. */
  predicate SchedulerMissing(cached: Option<Pod>, faults: Faults) {
    if faults(SchedulerGet).Some? then IsNotFound(faults(SchedulerGet).value) else cached.None?
  }

  /** The scheduler stage fails exactly when the read fails, a needed deletion is refused or a needed creation fails.
      Errors of the read and of the deletion are handed on; that of the creation is routed. */
  lemma SchedulerFailures(fleet: Fleet, cached: Option<Pod>, c: Cluster, hash: string, faults: Faults)
    requires Genuine(faults) && SchedulerLaws.NamedRead(cached, c)
    ensures var r := Scheduler.SchedulerStep(fleet, cached, c, hash, faults).result;
            var key := SchedulerPodKey(c);
            if SchedulerMissing(cached, faults) then
              match CreateError(fleet.pods, key, SchedulerCreate, faults)
              case None => r.Ok?
              case Some(e) => r.Failed? && Routed(r.error, e, "SchedulerPodRejected")
            else if faults(SchedulerGet).Some? then r == Failed(faults(SchedulerGet).value)
            else if SchedulerLaws.Outdated(cached.value, hash) && Refuses(faults, key) then
              r == Failed(faults(PodDelete(key)).value)
            else r.Ok?
  {
    hide Text, Scheduler.Observed, Occurs, Routed, ClassifyAPIError;
    var key := SchedulerPodKey(c);
    var err := CreateError(fleet.pods, key, SchedulerCreate, faults);
    if err.Some? {
      CreateErrorIsGenuine(fleet.pods, key, SchedulerCreate, faults);
      ClassifyRoutes("SchedulerPodRejected", err.value);
    }
    DeleteOutcome(fleet, key, ReplaceScheduler, faults);
  }

  lemma CreateErrorIsGenuine(pods: Pods, key: Key, site: CallSite, faults: Faults)
    requires Genuine(faults)
    ensures var err := CreateError(pods, key, site, faults); err.Some? ==> !Occurs(err.value, SpecKind)
  {
  }

  // ---------- The workers ----------

  /** A creation the server refuses fails its slot, with the error routed; otherwise a slot fails only because its name
      is taken, which is no spec error. */
  ghost predicate SlotRouted(r: Result<Pod, Error>, slot: nat, faults: Faults) {
    match faults(WorkerCreate(slot))
    case Some(e) => r.Failed? && Routed(r.error, e, "WorkerPodRejected")
    case None => r.Failed? ==> !Occurs(r.error, SpecKind)
  }

  lemma {:induction false} WorkerRejections(fleet: Fleet, order: seq<nat>, b: WorkerPool.Batch)
    requires Genuine(b.faults)
    ensures var slots := WorkerPool.Spawn(fleet, order, b).slots;
            slots.Keys == Elements(order) && forall i :: i in slots ==> SlotRouted(slots[i], i, b.faults)
  {
    hide SlotRouted, WorkerPool.SlotResult, Genuine;
    if order != [] {
      var slot := order[|order| - 1];
      WorkerRejections(fleet, order[..|order| - 1], b);
      SlotIsRouted(WorkerPool.Spawn(fleet, order[..|order| - 1], b).fleet.pods, slot, b);
      assert order == order[..|order| - 1] + [slot];
    }
  }

  lemma SlotIsRouted(pods: Pods, slot: nat, b: WorkerPool.Batch)
    requires Genuine(b.faults)
    ensures SlotRouted(WorkerPool.SlotResult(pods, b, slot), slot, b.faults)
  {
    hide As, Text, Routed, Occurs;
    var err := CreateError(pods, WorkerPool.SlotPod(b, slot).key, WorkerCreate(slot), b.faults);
    if err.Some? {
      CreateErrorIsGenuine(pods, WorkerPool.SlotPod(b, slot).key, WorkerCreate(slot), b.faults);
      ClassifyRoutes("WorkerPodRejected", err.value);
      hide ClassifyAPIError;
      NotRefused(err.value, ClassifyAPIError("WorkerPodRejected", err.value), "WorkerPodRejected");
      TakenIsNotRefused(pods, WorkerPool.SlotPod(b, slot).key, WorkerCreate(slot), b.faults);
    }
  }

  lemma NotRefused(e: Error, shown: Error, reason: string)
    requires Routed(shown, e, reason)
    ensures !ContentRefused(e) ==> !Occurs(shown, SpecKind)
  {
  }

  lemma TakenIsNotRefused(pods: Pods, key: Key, site: CallSite, faults: Faults)
    ensures var err := CreateError(pods, key, site, faults);
            err.Some? && faults(site).None? ==> !ContentRefused(err.value)
  {
  }

  // ---------- The services ----------

  /** The read of the service finds none. */
  predicate ServiceMissing(cached: map<Key, Service>, c: Cluster, slot: nat, faults: Faults)
    requires slot < Services.SERVICE_COUNT
  {
    if faults(ServiceGet(slot)).Some? then IsNotFound(faults(ServiceGet(slot)).value) else ServiceKey(c, slot) !in cached
  }

  /** An error of the read is handed on, one the server answers the write with is routed; a task whose calls all reach
      the server fails at most for the object's version, which is no spec error. */
  ghost predicate ServiceRouted(err: Option<Error>, cached: map<Key, Service>, c: Cluster, slot: nat, faults: Faults)
    requires slot < Services.SERVICE_COUNT
  {
    var missing := ServiceMissing(cached, c, slot, faults);
    if faults(ServiceGet(slot)).Some? && !missing then err == faults(ServiceGet(slot))
    else
      match faults(if missing then ServiceCreate(slot) else ServiceUpdate(slot))
      case Some(e) => err.Some? && Routed(err.value, e, "ServiceRejected")
      case None => err.Some? ==> !Occurs(err.value, SpecKind)
  }

  lemma ServiceRejections(store: ServiceStore, cached: map<Key, Service>, c: Cluster, slot: nat, faults: Faults)
    requires slot < Services.SERVICE_COUNT && Genuine(faults)
    ensures ServiceRouted(Services.ServiceStep(store, cached, c, slot, faults).err, cached, c, slot, faults)
  {
    hide Text, Routed, Occurs, ClassifyAPIError, Services.Configured, Services.NewService, Services.Targets, ServiceKey;
    TargetMeans(c, slot);
    var site := if ServiceMissing(cached, c, slot, faults) then ServiceCreate(slot) else ServiceUpdate(slot);
    if faults(site).Some? {
      GenuineFault(faults, site);
      ClassifyRoutes("ServiceRejected", faults(site).value);
    }
    ServerErrorsPass("ServiceRejected");
  }

  /** The server's own answers about existence and versions are no spec errors and stay what they are. */
  lemma ServerErrorsPass(reason: string)
    ensures forall name :: ClassifyAPIError(reason, MissingError(name)) == MissingError(name)
                           && !Occurs(MissingError(name), SpecKind)
    ensures forall name :: ClassifyAPIError(reason, ConflictError(name)) == ConflictError(name)
                           && !Occurs(ConflictError(name), SpecKind)
    ensures forall name :: ClassifyAPIError(reason, ExistsError(name)) == ExistsError(name)
                           && !Occurs(ExistsError(name), SpecKind)
  {
  }

  // ---------- The fan-outs ----------

  /** A stage's error is what the errors of its tasks reduce to: none without any, a spec error with this reason exactly
      when all of them are spec errors, and otherwise one in which no spec error occurs. */
  ghost predicate ReducesTo(err: Option<Error>, errs: seq<Option<Error>>, reason: string) {
    && (err.None? <==> forall k :: 0 <= k < |errs| ==> errs[k].None?)
    && (err.Some? ==>
          if forall k :: 0 <= k < |errs| && errs[k].Some? ==> IsSpecError(errs[k].value)
          then IsSpecError(err.value) && As(err.value, SpecKind).value.reason == reason
          else !Occurs(err.value, SpecKind))
  }

  lemma ReducedReason(errs: seq<Option<Error>>, reason: string)
    requires forall k :: 0 <= k < |errs| && errs[k].Some? && IsSpecError(errs[k].value) ==>
               As(errs[k].value, SpecKind).value.reason == reason
    ensures ReducesTo(Reduce(errs).err, errs, reason)
  {
    ReduceConserves(errs);
    ReduceRouting(errs);
    SideIsPure(errs, false);
    var at := SpecSide(errs);
    var rest := TransientSide(errs);
    hide Reduce, As, Occurs, Side;
    var err := Reduce(errs).err;
    if err.Some? && IsSpecError(err.value) {
      assert errs[at[0]] == Some(Side(errs, true)[0]);
    } else if err.Some? {
      if Side(errs, false) != [] {
        assert errs[rest[0]] == Some(Side(errs, false)[0]);
      }
    }
  }

  lemma SpecSide(errs: seq<Option<Error>>) returns (at: seq<int>)
    ensures InSlotOrder(Side(errs, true), at, errs)
    ensures forall k :: 0 <= k < |errs| && errs[k].Some? && IsSpecError(errs[k].value) ==> k in at
  {
    at := SideKeepsOrder(errs, true);
  }

  lemma TransientSide(errs: seq<Option<Error>>) returns (at: seq<int>)
    ensures InSlotOrder(Side(errs, false), at, errs)
    ensures forall k :: 0 <= k < |errs| && errs[k].Some? && !IsSpecError(errs[k].value) ==> k in at
  {
    at := SideKeepsOrder(errs, false);
  }

  lemma {:induction false} FanRejections(store: ServiceStore, cached: map<Key, Service>, c: Cluster, order: seq<nat>,
                                         faults: Faults)
    requires WorkerPool.Schedule(order, Services.SERVICE_COUNT) && Genuine(faults)
    ensures var errs := Services.Fan(store, cached, c, order, faults).errs;
            && (forall slot :: 0 <= slot < Services.SERVICE_COUNT && slot in order ==>
                  ServiceRouted(errs[slot], cached, c, slot, faults))
            && (forall slot :: 0 <= slot < Services.SERVICE_COUNT && slot !in order ==> errs[slot].None?)
  {
    hide ServiceRouted, Services.ServiceStep, Genuine;
    if order != [] {
      var prior, slot := order[..|order| - 1], order[|order| - 1];
      FanRejections(store, cached, c, prior, faults);
      assert order == prior + [slot];
      ServiceRejections(Services.Fan(store, cached, c, prior, faults).store, cached, c, slot, faults);
    }
  }

  lemma RoutedReason(err: Option<Error>, cached: map<Key, Service>, c: Cluster, slot: nat, faults: Faults)
    requires slot < Services.SERVICE_COUNT && Genuine(faults) && ServiceRouted(err, cached, c, slot, faults)
    ensures err.Some? && IsSpecError(err.value) ==> As(err.value, SpecKind).value.reason == "ServiceRejected"
  {
    if err.Some? { AsFindsEveryOccurrence(err.value, SpecKind); }
  }

  /** The services stage, for any subset of the tasks: each that ran fails as routed, each that did not fails not at
      all. The stage's error is a spec error, "ServiceRejected", exactly when all failures are; otherwise it has none in
      it. */
  lemma ServicesOutcome(store: ServiceStore, cached: map<Key, Service>, c: Cluster, order: seq<nat>, faults: Faults)
    requires WorkerPool.Schedule(order, Services.SERVICE_COUNT) && Genuine(faults)
    ensures var err, errs := Services.ServicesPass(store, cached, c, order, faults).err,
              Services.Fan(store, cached, c, order, faults).errs;
            && (forall slot :: 0 <= slot < Services.SERVICE_COUNT && slot in order ==>
                  ServiceRouted(errs[slot], cached, c, slot, faults))
            && (forall slot :: 0 <= slot < Services.SERVICE_COUNT && slot !in order ==> errs[slot].None?)
            && ReducesTo(err, errs, "ServiceRejected")
  {
    hide ServiceRouted, Services.Fan, Reduce, Genuine, As;
    var errs := Services.Fan(store, cached, c, order, faults).errs;
    FanRejections(store, cached, c, order, faults);
    forall k | 0 <= k < |errs| && errs[k].Some? && IsSpecError(errs[k].value)
      ensures As(errs[k].value, SpecKind).value.reason == "ServiceRejected"
    {
      assert k in order;
      RoutedReason(errs[k], cached, c, k, faults);
    }
    ReducedReason(errs, "ServiceRejected");
  }

  // ---------- The worker stage ----------

  lemma SlotReason(r: Result<Pod, Error>, slot: nat, faults: Faults)
    requires SlotRouted(r, slot, faults)
    ensures r.Failed? && IsSpecError(r.error) ==> As(r.error, SpecKind).value.reason == "WorkerPodRejected"
  {
    if r.Failed? { AsFindsEveryOccurrence(r.error, SpecKind); }
  }

  /** A growth fails exactly with its slots' failures, in the same way. */
  lemma GrowthOutcome(fleet: Fleet, active: seq<Pod>, lacking: nat, c: Cluster, b: WorkerPool.Batch, order: seq<nat>)
    requires WorkerPool.Schedule(order, lacking) && Genuine(b.faults)
    ensures var r := WorkerPool.Grow(fleet, active, lacking, c, b, order).result;
            var slots := WorkerPool.Spawn(fleet, order, b).slots;
            && slots.Keys == Elements(order)
            && (forall i :: i in slots ==> SlotRouted(slots[i], i, b.faults))
            && ReducesTo(if r.Ok? then None else Some(r.error), WorkerPool.ErrorSlots(slots, lacking),
                         "WorkerPodRejected")
  {
    hide SlotRouted, WorkerPool.Spawn, WorkerPool.Announce, WorkerPool.ReportOn, Reduce, Genuine, As;
    var slots := WorkerPool.Spawn(fleet, order, b).slots;
    var errs := WorkerPool.ErrorSlots(slots, lacking);
    WorkerRejections(fleet, order, b);
    forall k | 0 <= k < |errs| && errs[k].Some? && IsSpecError(errs[k].value)
      ensures As(errs[k].value, SpecKind).value.reason == "WorkerPodRejected"
    {
      assert errs[k] == WorkerPool.ErrorAt(slots, k);
      SlotReason(slots[k], k, b.faults);
    }
    ReducedReason(errs, "WorkerPodRejected");
  }

  // ---------- The accounts ----------

  /** An account that exists already is no error; any other is routed. */
  lemma AccountRejections(accounts: set<Key>, c: Cluster, spec: Option<ServiceAccountSpec>, defaultName: string,
                          faults: Faults)
    requires Genuine(faults)
    ensures var err := Services.AccountStep(accounts, c, spec, defaultName, faults).err;
            if spec.None? || !spec.value.create then err.None?
            else
              var name := if spec.value.name != "" then spec.value.name else defaultName;
              match faults(AccountCreate(Key(c.key.namespace, name)))
              case None => err.None?
              case Some(e) => if HasReason(e, AlreadyExists) then err.None?
                              else err.Some? && Routed(err.value, e, "ServiceAccountRejected")
  {
    hide Text, Routed, Occurs, ClassifyAPIError;
    if spec.Some? && spec.value.create {
      var key := Key(c.key.namespace, ResolveServiceAccountName(spec, defaultName));
      if faults(AccountCreate(key)).Some? {
        GenuineFault(faults, AccountCreate(key));
        ClassifyRoutes("ServiceAccountRejected", faults(AccountCreate(key)).value);
      }
    }
  }

  // ---------- The routes ----------

  /** What applying a requested route makes of an error of its write: a conflict if the object has another owner, a
      rejection if its content was refused, and otherwise the error itself. */
  ghost predicate RouteRouted(v: Result<Routes.Verdict, Error>, e: Error) {
    if Occurs(e, OwnedKind) then v == Ok(Routes.Refused("RouteConflict", Text(e)))
    else if ContentRefused(e) then v == Ok(Routes.Refused("RouteRejected", Text(e)))
    else v == Failed(e)
  }

  lemma ClassifiedRoute(e: Error)
    requires !Occurs(e, SpecKind)
    ensures var shown := Routes.ClassifyRoute(e);
            RouteRouted(match As(shown, SpecKind)
                        case None => Failed(shown)
                        case Some(se) => Ok(Routes.Refused(se.reason, Text(se))), e)
  {
    AsFindsEveryOccurrence(e, SpecKind);
    AsFindsEveryOccurrence(e, OwnedKind);
  }

  predicate RouteMissing(cached: map<RouteKey, Route>, id: RouteKey, faults: Faults) {
    if faults(RouteGet(id)).Some? then IsNotFound(faults(RouteGet(id)).value) else id !in cached
  }

  // ---------- Whole reconciles ----------

  /** A spec error of a stage that the status update then records: it is shown, warned about, and not retried. */
  ghost predicate ShownAndDone(w: World, i: Inputs, r: Reconciled, under: string, se: Error)
    requires i.cache.cluster.Some? && i.cache.cluster.value < |w.history| && se.Spec?
  {
    && r.outcome == Done && r.world.history != []
    && Says(Last(r.world).status, under, false, se.reason, Text(se), w.history[i.cache.cluster.value].generation)
    && Says(Last(r.world).status, READY, false, se.reason, Text(se), w.history[i.cache.cluster.value].generation)
    && r.world.fleet.events != []
    && r.world.fleet.events[|r.world.fleet.events| - 1] == Event(Warning, se.reason, Text(se))
  }

  lemma EndsShown(w: World, left: World, i: Inputs, r: Reconciled, e: Error, under: string,
                  s: Option<Scheduler.Observation>)
    requires i.cache.cluster.Some? && i.cache.cluster.value < |w.history| && w.history != []
    requires EndsWith(w, left, i, r, e, under, s) && left.history == w.history
    ensures match As(e, SpecKind)
            case None => r == Reconciled(left, Retry(e))
            case Some(se) =>
              StatusError(w.history, i.cache.cluster.value, i.faults).None? ==> ShownAndDone(w, i, r, under, se)
  {
    hide Text, Says;
  }

  /** The scheduler cannot be created. If its content was refused, SchedulerReady and Ready say so, and the reconcile is
      not retried; any other error is retried, with nothing persisted. */
  lemma SchedulerRejectionAnswer(w: World, i: Inputs, choice: Choice, e: Error)
    requires AccountsDone(w, i, choice) && i.templates.scheduler.Ok? && SchedulerMissing(i.cache.scheduler, i.faults)
    requires SchedulerLaws.NamedRead(i.cache.scheduler, VersionRead(w, i))
    requires CreateError(w.fleet.pods, SchedulerPodKey(VersionRead(w, i)), SchedulerCreate, i.faults) == Some(e)
    ensures var r := ReconcileOnce(w, i, choice);
            if ContentRefused(e) then
              StatusError(w.history, i.cache.cluster.value, i.faults).None? ==>
                ShownAndDone(w, i, r, SCHEDULER_READY, Spec("SchedulerPodRejected", e))
            else r.outcome == Retry(e) && r.world.history == w.history && r.world.fleet.pods == w.fleet.pods
  {
    hide ReconcileOnce, VersionRead, EndsWith, Scheduler.SchedulerStep, Text, Occurs, ShownAndDone, Services.AccountsPass,
      AccountsOf, SchedulerMissing, WorkerPool.Schedule;
    var c, hash := VersionRead(w, i), i.lib.templateHash(i.templates.scheduler.value);
    SchedulerFailures(w.fleet, i.cache.scheduler, c, hash, i.faults);
    FailureLeavesPods(w.fleet, i.cache.scheduler, c, hash, i.faults);
    SchedulerAnswer(w, i, choice);
    EndsShown(w, w.(accounts := AccountsOf(w, i).accounts, fleet := SchedulerOf(w, i).fleet), i,
              ReconcileOnce(w, i, choice), SchedulerOf(w, i).result.error, SCHEDULER_READY, None);
    if !ContentRefused(e) { AsFindsEveryOccurrence(e, SpecKind); }
  }

  lemma FailureLeavesPods(fleet: Fleet, cached: Option<Pod>, c: Cluster, hash: string, faults: Faults)
    ensures var s := Scheduler.SchedulerStep(fleet, cached, c, hash, faults); s.result.Failed? ==> s.fleet == fleet
  {
    hide IsNotFound, ClassifyAPIError;
  }

  /** The scheduler's template cannot be built: SchedulerReady and Ready say why, and no pod is touched. */
  lemma SchedulerTemplateAnswer(w: World, i: Inputs, choice: Choice)
    requires AccountsDone(w, i, choice) && i.templates.scheduler.Failed?
    requires i.templates.scheduler.error.Spec? && StatusError(w.history, i.cache.cluster.value, i.faults).None?
    ensures var r := ReconcileOnce(w, i, choice);
            ShownAndDone(w, i, r, SCHEDULER_READY, i.templates.scheduler.error) && r.world.fleet.pods == w.fleet.pods
  {
    hide ReconcileOnce, VersionRead, EndsWith, Scheduler.SchedulerStep, Text, Occurs, ShownAndDone, Services.AccountsPass,
      AccountsOf, WorkerPool.Schedule;
    SchedulerAnswer(w, i, choice);
    EndsShown(w, w.(accounts := AccountsOf(w, i).accounts, fleet := SchedulerOf(w, i).fleet), i,
              ReconcileOnce(w, i, choice), i.templates.scheduler.error, SCHEDULER_READY, None);
    EndsFleet(w, w.(accounts := AccountsOf(w, i).accounts, fleet := SchedulerOf(w, i).fleet), i,
              ReconcileOnce(w, i, choice), i.templates.scheduler.error, SCHEDULER_READY, None);
  }

  lemma EndsFleet(w: World, left: World, i: Inputs, r: Reconciled, e: Error, under: string,
                  s: Option<Scheduler.Observation>)
    requires i.cache.cluster.Some? && i.cache.cluster.value < |w.history|
    requires EndsWith(w, left, i, r, e, under, s)
    ensures r.world.fleet.pods == left.fleet.pods && r.world.services == left.services && r.world.routes == left.routes
  {
    hide Text, Shows;
  }

  /** A service is refused for its content, and no task fails for another reason: Ready says so, with the reason
      "ServiceRejected", and the reconcile is not retried. */
  lemma ServicesRejectionAnswer(w: World, i: Inputs, choice: Choice, slot: nat) returns (se: Error)
    requires SchedulerDone(w, i, choice) && StatusError(w.history, i.cache.cluster.value, i.faults).None?
    requires slot < Services.SERVICE_COUNT && slot in choice.services
    requires var errs := Services.Fan(w.services, i.cache.services, VersionRead(w, i), choice.services, i.faults).errs;
             errs[slot].Some? && forall k :: 0 <= k < |errs| && errs[k].Some? ==> IsSpecError(errs[k].value)
    ensures w.history != [] && i.cache.cluster.Some? && i.cache.cluster.value < |w.history|
    ensures se.Spec? && se.reason == "ServiceRejected"
    ensures ShownAndDone(w, i, ReconcileOnce(w, i, choice), READY, se)
  {
    hide ReconcileOnce, VersionRead, EndsWith, Text, Occurs, ShownAndDone, Services.AccountsPass, Services.Fan, Reduce,
      AccountsOf, SchedulerOf, ServiceRouted, As;
    var c := VersionRead(w, i);
    ServicesOutcome(w.services, i.cache.services, c, choice.services, i.faults);
    ServicesAnswer(w, i, choice);
    var e := ServicesOf(w, i, choice).err.value;
    se := As(e, SpecKind).value;
    EndsShown(w, w.(accounts := AccountsOf(w, i).accounts, fleet := SchedulerOf(w, i).fleet,
                    services := ServicesOf(w, i, choice).store), i, ReconcileOnce(w, i, choice), e, READY,
              Some(SchedulerOf(w, i).result.value));
  }

  /** A worker is refused for its content, and no creation fails for another reason: WorkerPoolReady and Ready say so,
      with the reason "WorkerPodRejected", and the reconcile is not retried. */
  lemma WorkersRejectionAnswer(w: World, i: Inputs, choice: Choice, b: WorkerPool.Batch,
                               slots: map<nat, Result<Pod, Error>>)
    returns (se: Error)
    requires ServicesDone(w, i, choice) && StatusError(w.history, i.cache.cluster.value, i.faults).None?
    requires i.templates.worker.Ok? && i.faults(WorkerList).None?
    requires b == WorkerPool.BatchOf(VersionRead(w, i), i.templates.worker.value, i.lib, i.names, i.faults)
    requires Growing(w, i, choice, b) && slots == SlotsOf(w, i, choice, b)
    requires exists k :: k in slots && slots[k].Failed?
    requires forall k :: k in slots && slots[k].Failed? ==> IsSpecError(slots[k].error)
    ensures w.history != [] && i.cache.cluster.Some? && i.cache.cluster.value < |w.history|
    ensures se.Spec? && se.reason == "WorkerPodRejected"
    ensures ShownAndDone(w, i, ReconcileOnce(w, i, choice), WORKER_POOL_READY, se)
  {
    hide ReconcileOnce, VersionRead, EndsWith, Text, Occurs, ShownAndDone, Services.AccountsPass, Services.ServicesPass,
      WorkerPool.Spawn, WorkerPool.Grow, WorkerPool.Sift, AccountsOf, SchedulerOf, ServicesOf, SlotRouted, As,
      WorkerPool.Actives, WorkerPool.Shrink;
    var e := GrowthError(w, i, choice, b, slots);
    WorkersAnswer(w, i, choice);
    se := As(e, SpecKind).value;
    EndsShown(w, w.(accounts := AccountsOf(w, i).accounts, fleet := WorkersOf(w, i, choice).fleet,
                    services := ServicesOf(w, i, choice).store), i, ReconcileOnce(w, i, choice), e, WORKER_POOL_READY,
              Some(SchedulerOf(w, i).result.value));
  }

  /** No stale worker's deletion is refused, and workers are missing. */
  ghost predicate Growing(w: World, i: Inputs, choice: Choice, b: WorkerPool.Batch)
    requires w.history != [] && CachedVersion(w.history, i.cache)
  {
    var c := VersionRead(w, i);
    && !StaleRefused(i.cache.workers, b.hash, i.faults)
    && c.spec.workerPool.replicas as int > |WorkerPool.Actives(i.cache.workers, b.hash)|
    && WorkerPool.Schedule(choice.workers, WorkerPool.Missing(i.cache.workers, c, b.hash))
  }

  /** What the creation tasks that ran came to. */
  ghost function SlotsOf(w: World, i: Inputs, choice: Choice, b: WorkerPool.Batch): map<nat, Result<Pod, Error>>
    requires w.history != [] && CachedVersion(w.history, i.cache)
  {
    WorkerPool.Spawn(WorkerPool.Sift(SchedulerOf(w, i).fleet, i.cache.workers, b.hash, b.faults).fleet, choice.workers,
                     b).slots
  }

  lemma GrowthError(w: World, i: Inputs, choice: Choice, b: WorkerPool.Batch, slots: map<nat, Result<Pod, Error>>)
    returns (e: Error)
    requires ServicesDone(w, i, choice) && i.templates.worker.Ok? && i.faults(WorkerList).None?
    requires b == WorkerPool.BatchOf(VersionRead(w, i), i.templates.worker.value, i.lib, i.names, i.faults)
    requires Growing(w, i, choice, b) && slots == SlotsOf(w, i, choice, b)
    requires exists k :: k in slots && slots[k].Failed?
    requires forall k :: k in slots && slots[k].Failed? ==> IsSpecError(slots[k].error)
    ensures WorkersOf(w, i, choice).result == Failed(e)
    ensures IsSpecError(e) && As(e, SpecKind).value.reason == "WorkerPodRejected"
  {
    hide VersionRead, Text, Occurs, Services.AccountsPass, Services.ServicesPass, WorkerPool.Spawn, WorkerPool.Grow,
      WorkerPool.Sift, AccountsOf, SchedulerOf, ServicesOf, SlotRouted, As, WorkerPool.Actives, WorkerPool.Shrink,
      StaleRefused;
    var c, s := VersionRead(w, i), SchedulerOf(w, i).fleet;
    var active := WorkerPool.Actives(i.cache.workers, b.hash);
    var lacking: nat := c.spec.workerPool.replicas as int - |active|;
    SiftOutcome(s, i.cache.workers, b.hash, b.faults);
    WorkerPool.SiftKeepsActives(s, i.cache.workers, b.hash, b.faults);
    var sifted := WorkerPool.Sift(s, i.cache.workers, b.hash, b.faults).fleet;
    GrowthOutcome(sifted, active, lacking, c, b, choice.workers);
    var errs := WorkerPool.ErrorSlots(slots, lacking);
    SomeSlotFails(slots, choice.workers, lacking);
    forall k | 0 <= k < |errs| && errs[k].Some? ensures IsSpecError(errs[k].value) {
      assert errs[k] == WorkerPool.ErrorAt(slots, k);
    }
    e := WorkersOf(w, i, choice).result.error;
  }

  lemma SomeSlotFails(slots: map<nat, Result<Pod, Error>>, order: seq<nat>, n: nat)
    requires WorkerPool.Schedule(order, n) && slots.Keys == Elements(order)
    requires exists k :: k in slots && slots[k].Failed?
    ensures exists k :: 0 <= k < n && WorkerPool.ErrorSlots(slots, n)[k].Some?
  {
    var k :| k in slots && slots[k].Failed?;
    assert k in Elements(order);
    assert WorkerPool.ErrorSlots(slots, n)[k] == WorkerPool.ErrorAt(slots, k);
  }
}
