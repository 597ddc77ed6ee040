/** internal/controller/routes.go: the Gateway API routes in front of the scheduler and observatory services. */
module Routes {
  import opened Kube
  import opened Errors
  import opened PolarsCluster
  import opened ApiServer

  const REASON_NOT_ACCEPTED := "NotAccepted"
  const REASON_ROUTE_CONFLICT := "RouteConflict"
  const REASON_ROUTE_REJECTED := "RouteRejected"

  datatype Target = Target(id: RouteKey, spec: Option<RouteSpec>, port: nat)

  function RouteSpecOf(config: Option<ExposedServiceConfig>): Option<RouteSpec> {
    match config case None => None case Some(e) => e.route
  }

  function RouteTargets(c: Cluster): seq<Target> {
    var ns := c.key.namespace;
    [Target(RouteKey(GRPCRoute, Key(ns, SchedulerServiceName(c))), RouteSpecOf(Services(c).scheduler), 5051),
     Target(RouteKey(HTTPRoute, Key(ns, ObservatoryServiceName(c))), RouteSpecOf(Services(c).observatory), 3001)]
  }

  // ---------- Acceptance ----------

  /** meta.IsStatusConditionTrue: the first condition of the type decides. */
  predicate ConditionTrue(conditions: seq<RouteCondition>, ctype: string) {
    if conditions == [] then false
    else if conditions[0].ctype == ctype then conditions[0].status == True
    else ConditionTrue(conditions[1..], ctype)
  }

  /** One and the same parent accepts the route and resolves its references. */
  predicate RouteAccepted(parents: seq<Parent>) {
    exists i :: 0 <= i < |parents|
      && ConditionTrue(parents[i].conditions, "Accepted") && ConditionTrue(parents[i].conditions, "ResolvedRefs")
  }

  // ---------- Applying a route ----------

  /** controllerutil compares the owner's group, kind and name, not its uid. */
  predicate SameOwner(a: OwnerRef, b: OwnerRef) {
    a.kind == b.kind && a.name == b.name
  }

  /** metav1.IsControlledBy compares the uid only. */
  predicate IsControlledBy(route: Route, c: Cluster) {
    route.controller.Some? && route.controller.value.uid == c.uid
  }

  predicate OwnedByAnother(route: Route, c: Cluster) {
    route.controller.Some? && !SameOwner(route.controller.value, Owner(c))
  }

  function BlankRoute(id: RouteKey): Route {
    Route(id, map[], map[], [], [], [], None, [], false, false, 0)
  }

  /** The mutation applyRoute passes to CreateOrUpdate, when the route's owner permits it. */
  function Mutated(route: Route, t: Target, c: Cluster): Route
    requires t.spec.Some?
  {
    route.(labels := t.spec.value.labels + SchedulerObjectLabels(c), annotations := t.spec.value.annotations,
           parentRefs := t.spec.value.parentRefs, hostnames := t.spec.value.hostnames,
           rules := [Backend(route.id.key.name, t.port)], controller := Some(Owner(c)))
  }

  function OwnedError(id: RouteKey): Error {
    AlreadyOwned("Object " + id.key.namespace + "/" + id.key.name + " is already owned by another controller")
  }

  function GetRouteError(cached: map<RouteKey, Route>, id: RouteKey, faults: Faults): Option<Error> {
    Injected(faults(RouteGet(id)), if id in cached then None else Some(MissingError(id.key.name)))
  }

  /** `parents` is what the route object in hand says about its gateways afterwards. */
  datatype Applied = Applied(store: RouteStore, err: Option<Error>, parents: seq<Parent>)

  /** controllerutil.CreateOrUpdate with that mutation. */
  function CreateOrUpdate(store: RouteStore, cached: map<RouteKey, Route>, c: Cluster, t: Target,
                          faults: Faults): Applied
    requires t.spec.Some?
  {
    var get := GetRouteError(cached, t.id, faults);
    if get.Some? && !IsNotFound(get.value) then Applied(store, get, [])
    else if get.Some? then
      var route := Mutated(BlankRoute(t.id), t, c);
      var err := Injected(faults(RouteCreate(route.id)), RouteCreateError(store, route));
      Applied(if err.Some? then store else StoreRoute(store, route), err, [])
    else
      var existing := cached[t.id];
      if OwnedByAnother(existing, c) then Applied(store, Some(OwnedError(t.id)), existing.parents)
      else
        var route := Mutated(existing, t, c);
        if route == existing then Applied(store, None, existing.parents)
        else
          var err := Injected(faults(RouteUpdate(route.id)), RouteUpdateError(store, route));
          Applied(if err.Some? then store else RouteUpdated(store, route), err, existing.parents)
  }

  function ClassifyRoute(e: Error): Error {
    if As(e, OwnedKind).Some? then Spec(REASON_ROUTE_CONFLICT, e) else ClassifyAPIError(REASON_ROUTE_REJECTED, e)
  }

  function ApplyRoute(store: RouteStore, cached: map<RouteKey, Route>, c: Cluster, t: Target, faults: Faults): Applied
    requires t.spec.Some?
  {
    var r := CreateOrUpdate(store, cached, c, t, faults);
    match r.err
    case None => r
    case Some(e) => r.(err := Some(ClassifyRoute(e)))
  }

  method ApplyRouteTo(server: Server, c: Cluster, t: Target) returns (err: Option<Error>, parents: seq<Parent>)
    requires t.spec.Some?
    modifies server`routes
    ensures Applied(server.routes, err, parents) ==
            ApplyRoute(old(server.routes), server.cache.routes, c, t, server.faults)
  {
    hide As, ClassifyAPIError, SchedulerObjectLabels, IsNotFound;
    var route := BlankRoute(t.id);
    var get := GetRouteError(server.cache.routes, t.id, server.faults);
    if get.None? {
      route := server.cache.routes[t.id];
    }
    err, parents := None, route.parents;
    if get.Some? && !IsNotFound(get.value) {
      err := get;
    } else if OwnedByAnother(route, c) {
      err := Some(OwnedError(t.id));
    } else {
      var before := route;
      route := route.(labels := t.spec.value.labels + SchedulerObjectLabels(c), annotations := t.spec.value.annotations);
      route := route.(parentRefs := t.spec.value.parentRefs, hostnames := t.spec.value.hostnames);
      route := route.(rules := [Backend(route.id.key.name, t.port)], controller := Some(Owner(c)));
      if get.Some? {
        err := server.CreateRoute(route);
      } else if route != before {
        err := server.UpdateRoute(route);
      }
    }
    if err.Some? {
      return Some(ClassifyRoute(err.value)), parents;
    }
  }

  // ---------- Removing a route ----------

  function IgnoreNotFound(err: Option<Error>): Option<Error> {
    if err.Some? && IsNotFound(err.value) then None else err
  }

  datatype Removed = Removed(store: RouteStore, err: Option<Error>)

  function DeleteOwnedRoute(store: RouteStore, cached: map<RouteKey, Route>, c: Cluster, id: RouteKey,
                            faults: Faults): Removed {
    var get := GetRouteError(cached, id, faults);
    if get.Some? then Removed(store, IgnoreNotFound(get))
    else if !IsControlledBy(cached[id], c) then Removed(store, None)
    else
      var err := Injected(faults(RouteDelete(id)), RouteDeleteError(store, id));
      Removed(if err.Some? || id !in store.items then store else RouteDeleted(store, id), IgnoreNotFound(err))
  }

  method DeleteOwnedRouteFrom(server: Server, c: Cluster, id: RouteKey) returns (err: Option<Error>)
    modifies server`routes
    ensures Removed(server.routes, err) == DeleteOwnedRoute(old(server.routes), server.cache.routes, c, id, server.faults)
  {
    var get := GetRouteError(server.cache.routes, id, server.faults);
    if get.Some? {
      return IgnoreNotFound(get);
    }
    if !IsControlledBy(server.cache.routes[id], c) {
      return None;
    }
    var failed := server.DeleteRoute(id);
    return IgnoreNotFound(failed);
  }

  // ---------- The status ----------

  datatype RoutesReport = RoutesReport(requested: bool, ready: bool, reason: string, message: string, conflict: bool)

  const INITIAL := RoutesReport(false, true, "", "", false)

  const UNAVAILABLE := RoutesReport(true, false, "GatewayAPIUnavailable",
    "the Gateway API v1 GRPCRoute and HTTPRoute CRDs were not installed when the operator started", false)

  function NotReadyReport(s: RoutesReport, reason: string, message: string): RoutesReport {
    if s.ready || (s.reason == REASON_NOT_ACCEPTED && reason != REASON_NOT_ACCEPTED)
    then s.(ready := false, reason := reason, message := message) else s
  }

  /** routesStatus. */
  class RoutesStatus {
    var requested: bool
    var ready: bool
    var reason: string
    var message: string
    var conflict: bool

    constructor ()
      ensures Value() == INITIAL
    {
      requested, ready, reason, message, conflict := false, true, "", "", false;
    }

    function Value(): RoutesReport
      reads this
    {
      RoutesReport(requested, ready, reason, message, conflict)
    }

    /** A failure other than NotAccepted displaces a NotAccepted; otherwise the first failure stays. */
    method NotReady(why: string, explanation: string)
      modifies this
      ensures Value() == NotReadyReport(old(Value()), why, explanation)
    {
      if ready || (reason == REASON_NOT_ACCEPTED && why != REASON_NOT_ACCEPTED) {
        ready := false;
        reason := why;
        message := explanation;
      }
    }
  }

  /** What became of one target: it is not requested; or its route was applied, and is accepted or not yet; or applying
      it met an error caused by the spec. */
  datatype Verdict = Unrequested | InPlace(accepted: bool) | Refused(reason: string, detail: string)

  function RouteMessage(t: Target, detail: string): string {
    (match t.id.kind case GRPCRoute => "GRPCRoute" case HTTPRoute => "HTTPRoute")
      + " " + t.id.key.name + ": " + detail
  }

  function Judge(s: RoutesReport, t: Target, v: Verdict): RoutesReport {
    match v
    case Unrequested => s
    case InPlace(accepted) =>
      var r := s.(requested := true);
      if accepted then r else NotReadyReport(r, REASON_NOT_ACCEPTED, RouteMessage(t, "no parent has accepted it yet"))
    case Refused(reason, detail) =>
      var r := NotReadyReport(s.(requested := true), reason, RouteMessage(t, detail));
      r.(conflict := r.conflict || reason == REASON_ROUTE_CONFLICT)
  }

  // ---------- The pass ----------

  datatype TargetOutcome = TargetOutcome(store: RouteStore, verdict: Result<Verdict, Error>)

  /** One target, with the Gateway API enabled. */
  function TargetStep(store: RouteStore, cached: map<RouteKey, Route>, c: Cluster, t: Target,
                      faults: Faults): TargetOutcome {
    if t.spec.None? then
      var r := DeleteOwnedRoute(store, cached, c, t.id, faults);
      TargetOutcome(r.store, if r.err.Some? then Failed(r.err.value) else Ok(Unrequested))
    else
      var r := ApplyRoute(store, cached, c, t, faults);
      TargetOutcome(r.store,
        match r.err
        case None => Ok(InPlace(RouteAccepted(r.parents)))
        case Some(e) =>
          var se := As(e, SpecKind);
          if se.None? then Failed(e) else Ok(Refused(se.value.reason, Text(se.value))))
  }

  /** The targets done so far: their verdicts, or the error that ended the pass. */
  datatype Walk = Walk(store: RouteStore, verdicts: seq<Verdict>, err: Option<Error>)

  function WalkTargets(store: RouteStore, cached: map<RouteKey, Route>, c: Cluster, targets: seq<Target>,
                       faults: Faults): (w: Walk)
    ensures w.err.None? ==> |w.verdicts| == |targets|
  {
    if targets == [] then Walk(store, [], None)
    else
      var w, t := WalkTargets(store, cached, c, targets[..|targets| - 1], faults), targets[|targets| - 1];
      if w.err.Some? then w
      else
        var o := TargetStep(w.store, cached, c, t, faults);
        match o.verdict
        case Failed(e) => Walk(o.store, w.verdicts, Some(e))
        case Ok(v) => Walk(o.store, w.verdicts + [v], None)
  }

  /** The report the verdicts add up to. */
  function Fold(targets: seq<Target>, verdicts: seq<Verdict>): RoutesReport
    requires |verdicts| == |targets|
  {
    if targets == [] then INITIAL
    else var n := |targets| - 1; Judge(Fold(targets[..n], verdicts[..n]), targets[n], verdicts[n])
  }

  datatype RoutesOutcome = RoutesOutcome(store: RouteStore, result: Result<RoutesReport, Error>)

  predicate AnyRequested(targets: seq<Target>) {
    exists i :: 0 <= i < |targets| && targets[i].spec.Some?
  }

  function RoutesPass(store: RouteStore, cached: map<RouteKey, Route>, c: Cluster, targets: seq<Target>, enabled: bool,
                      faults: Faults): RoutesOutcome {
    if !enabled then RoutesOutcome(store, Ok(if AnyRequested(targets) then UNAVAILABLE else INITIAL))
    else
      var w := WalkTargets(store, cached, c, targets, faults);
      RoutesOutcome(w.store, if w.err.Some? then Failed(w.err.value) else Ok(Fold(targets, w.verdicts)))
  }

  lemma {:induction false} WalkStops(store: RouteStore, cached: map<RouteKey, Route>, c: Cluster, targets: seq<Target>,
                                     i: nat, faults: Faults)
    requires i <= |targets| && WalkTargets(store, cached, c, targets[..i], faults).err.Some?
    ensures WalkTargets(store, cached, c, targets, faults) == WalkTargets(store, cached, c, targets[..i], faults)
    decreases |targets| - i
  {
    if i < |targets| {
      assert targets[..i + 1][..i] == targets[..i];
      WalkStops(store, cached, c, targets, i + 1, faults);
    } else {
      assert targets[..i] == targets;
    }
  }

  /** One round of the loop; `accepted` and `err` are as ApplyRouteTo returns them. */
  method JudgeApplied(status: RoutesStatus, t: Target, err: Option<Error>,
                      accepted: bool) returns (failed: Option<Error>)
    modifies status
    ensures match err
            case None => failed.None? && status.Value() == Judge(old(status.Value()), t, InPlace(accepted))
            case Some(e) =>
              var se := As(e, SpecKind);
              if se.None? then failed == err
              else
                && failed.None?
                && status.Value() == Judge(old(status.Value()), t, Refused(se.value.reason, Text(se.value)))
  {
    status.requested := true;
    if err.Some? {
      var se := As(err.value, SpecKind);
      if se.None? {
        return err;
      }
      status.NotReady(se.value.reason, RouteMessage(t, Text(se.value)));
      status.conflict := status.conflict || se.value.reason == REASON_ROUTE_CONFLICT;
      return None;
    }
    if !accepted {
      status.NotReady(REASON_NOT_ACCEPTED, RouteMessage(t, "no parent has accepted it yet"));
    }
    return None;
  }

  ghost predicate WalkedTo(store: RouteStore, w: Walk, report: RoutesReport, targets: seq<Target>) {
    w.err.None? && w.store == store && |w.verdicts| == |targets| && report == Fold(targets, w.verdicts)
  }

  lemma WalkedOn(store: RouteStore, cached: map<RouteKey, Route>, c: Cluster, targets: seq<Target>, faults: Faults,
                 w: Walk, report: RoutesReport)
    requires targets != []
    requires w == WalkTargets(store, cached, c, targets[..|targets| - 1], faults)
    requires WalkedTo(w.store, w, report, targets[..|targets| - 1])
    ensures var t := targets[|targets| - 1];
            var o, next := TargetStep(w.store, cached, c, t, faults), WalkTargets(store, cached, c, targets, faults);
            match o.verdict
            case Ok(v) => WalkedTo(o.store, next, Judge(report, t, v), targets)
            case Failed(e) => next.store == o.store && next.err == Some(e)
  {
    var o := TargetStep(w.store, cached, c, targets[|targets| - 1], faults);
    if o.verdict.Ok? {
      assert (w.verdicts + [o.verdict.value])[..|w.verdicts|] == w.verdicts;
    }
  }

  /** The branch of the loop for a target that is not requested. */
  method RemoveTarget(server: Server, c: Cluster, targets: seq<Target>, i: nat, status: RoutesStatus,
                      ghost before: RouteStore)
    returns (failed: Option<Error>)
    requires i < |targets| && targets[i].spec.None?
    requires WalkedTo(server.routes, WalkTargets(before, server.cache.routes, c, targets[..i], server.faults),
                      status.Value(), targets[..i])
    modifies server`routes
    ensures failed.Some? ==> RoutesOutcome(server.routes, Failed(failed.value)) ==
                             RoutesPass(before, server.cache.routes, c, targets, true, server.faults)
    ensures failed.None? ==>
              WalkedTo(server.routes, WalkTargets(before, server.cache.routes, c, targets[..i + 1], server.faults),
                       status.Value(), targets[..i + 1])
  {
    hide DeleteOwnedRoute, WalkTargets;
    assert targets[..i + 1][..i] == targets[..i];
    WalkedOn(before, server.cache.routes, c, targets[..i + 1], server.faults,
             WalkTargets(before, server.cache.routes, c, targets[..i], server.faults), status.Value());
    failed := DeleteOwnedRouteFrom(server, c, targets[i].id);
    if failed.Some? {
      WalkStops(before, server.cache.routes, c, targets, i + 1, server.faults);
    }
  }

  /** The branch of the loop for a requested target, with the Gateway API enabled. */
  method ApplyTarget(server: Server, c: Cluster, targets: seq<Target>, i: nat, status: RoutesStatus,
                     ghost before: RouteStore)
    returns (failed: Option<Error>)
    requires i < |targets| && targets[i].spec.Some?
    requires WalkedTo(server.routes, WalkTargets(before, server.cache.routes, c, targets[..i], server.faults),
                      status.Value(), targets[..i])
    modifies server`routes, status
    ensures failed.Some? ==> RoutesOutcome(server.routes, Failed(failed.value)) ==
                             RoutesPass(before, server.cache.routes, c, targets, true, server.faults)
    ensures failed.None? ==>
              WalkedTo(server.routes, WalkTargets(before, server.cache.routes, c, targets[..i + 1], server.faults),
                       status.Value(), targets[..i + 1])
  {
    hide ApplyRoute, WalkTargets, As, Text, RouteAccepted, Judge;
    assert targets[..i + 1][..i] == targets[..i];
    WalkedOn(before, server.cache.routes, c, targets[..i + 1], server.faults,
             WalkTargets(before, server.cache.routes, c, targets[..i], server.faults), status.Value());
    var err, parents := ApplyRouteTo(server, c, targets[i]);
    failed := JudgeApplied(status, targets[i], err, RouteAccepted(parents));
    if failed.Some? {
      WalkStops(before, server.cache.routes, c, targets, i + 1, server.faults);
    }
  }

  method ReconcileRoutes(server: Server, c: Cluster, targets: seq<Target>, gatewayAPIEnabled: bool)
    returns (result: Result<RoutesReport, Error>)
    modifies server`routes
    ensures RoutesOutcome(server.routes, result) ==
            RoutesPass(old(server.routes), server.cache.routes, c, targets, gatewayAPIEnabled, server.faults)
  {
    hide ApplyRoute, DeleteOwnedRoute, RouteAccepted, Judge, As, Text;
    ghost var before := server.routes;
    var status := new RoutesStatus();
    for i := 0 to |targets|
      invariant fresh(status)
      invariant !gatewayAPIEnabled ==> server.routes == before && status.Value() == INITIAL && !AnyRequested(targets[..i])
      invariant gatewayAPIEnabled ==>
                  WalkedTo(server.routes, WalkTargets(before, server.cache.routes, c, targets[..i], server.faults),
                           status.Value(), targets[..i])
    {
      var target := targets[i];
      assert targets[..i + 1][..i] == targets[..i];
      if target.spec.None? {
        if gatewayAPIEnabled {
          var failed := RemoveTarget(server, c, targets, i, status, before);
          if failed.Some? {
            return Failed(failed.value);
          }
        }
        continue;
      }
      if !gatewayAPIEnabled {
        return Ok(UNAVAILABLE);
      }
      var failed := ApplyTarget(server, c, targets, i, status, before);
      if failed.Some? {
        return Failed(failed.value);
      }
    }
    assert targets[..|targets|] == targets;
    result := Ok(status.Value());
  }
}
