/** What the two routes are, field by field, and when one counts as accepted. */
module RouteContents {
  import opened Kube
  import opened Errors
  import opened PolarsCluster
  import opened ApiServer
  import opened Routes
  import opened RouteOwnership
  import opened ServiceContents
  import opened Rejections
  import RouteLaws

  // ---------- The targets ----------

  /** The GRPCRoute is named like the scheduler service, the HTTPRoute like the observatory service. */
  function RouteId(c: Cluster, k: nat): RouteKey {
    if k == 0 then RouteKey(GRPCRoute, ServiceKey(c, 0)) else RouteKey(HTTPRoute, ServiceKey(c, 2))
  }

  function RoutePort(k: nat): nat {
    if k == 0 then 5051 else 3001
  }

  /** What the spec asks for, if it asks for the route at all. */
  function RouteRequest(c: Cluster, k: nat): Option<RouteSpec> {
    if c.spec.scheduler.None? || c.spec.scheduler.value.services.None? then None
    else
      var services := c.spec.scheduler.value.services.value;
      var exposed := if k == 0 then services.scheduler else services.observatory;
      if exposed.Some? then exposed.value.route else None
  }

  lemma RouteTargetsMean(c: Cluster)
    ensures |RouteTargets(c)| == 2
    ensures forall k: nat :: k < 2 ==> RouteTargets(c)[k] == Target(RouteId(c, k), RouteRequest(c, k), RoutePort(k))
  {
  }

  // ---------- What is stored ----------

  /** The route has the user's labels under the standard ones, the user's annotations, gateways and host names, leads to
      the service of its own name on this port, and belongs to the cluster. */
  predicate AsAsked(route: Route, spec: RouteSpec, port: nat, c: Cluster) {
    && route.labels == spec.labels + SchedulerObjectLabels(c)
    && route.annotations == spec.annotations && route.parentRefs == spec.parentRefs && route.hostnames == spec.hostnames
    && route.rules == [Backend(route.id.key.name, port)]
    && route.controller == Some(OwnerRef("PolarsCluster", c.key.name, c.uid))
  }

  /** That is what it means for a stored route to be as the spec asks. */
  lemma AppliedMeans(stored: Option<Route>, t: Target, c: Cluster)
    requires t.spec.Some?
    ensures AppliedAt(stored, t, c) <==> stored.Some? && AsAsked(stored.value, t.spec.value, t.port, c)
  {
    hide SchedulerObjectLabels;
  }

  /** A target leads to a service the services stage stores, on a port that service offers. */
  lemma BackendIsServed(c: Cluster, k: nat)
    requires k < 2
    ensures exists slot: nat :: slot < 3 && RouteId(c, k).key == ServiceKey(c, slot) && RoutePort(k) in ServicePorts(slot)
  {
    var slot: nat := if k == 0 then 0 else 2;
    assert RouteId(c, k).key == ServiceKey(c, slot) && RoutePort(k) in ServicePorts(slot);
  }

  // ---------- Acceptance ----------

  /** The first condition of the type is True. */
  ghost predicate FirstIsTrue(conditions: seq<RouteCondition>, ctype: string) {
    exists j :: 0 <= j < |conditions| && conditions[j].ctype == ctype && conditions[j].status == True
                && forall i :: 0 <= i < j ==> conditions[i].ctype != ctype
  }

  lemma {:induction false} FirstDecides(conditions: seq<RouteCondition>, ctype: string)
    ensures ConditionTrue(conditions, ctype) <==> FirstIsTrue(conditions, ctype)
  {
    if conditions != [] {
      var rest := conditions[1..];
      FirstDecides(rest, ctype);
      if conditions[0].ctype != ctype {
        if FirstIsTrue(rest, ctype) {
          var j :| 0 <= j < |rest| && rest[j].ctype == ctype && rest[j].status == True
                   && forall i :: 0 <= i < j ==> rest[i].ctype != ctype;
          assert conditions[j + 1] == rest[j];
          forall i | 0 <= i < j + 1 ensures conditions[i].ctype != ctype {
            if i > 0 { assert rest[i - 1] == conditions[i]; }
          }
        }
        if FirstIsTrue(conditions, ctype) {
          var j :| 0 <= j < |conditions| && conditions[j].ctype == ctype && conditions[j].status == True
                   && forall i :: 0 <= i < j ==> conditions[i].ctype != ctype;
          assert rest[j - 1] == conditions[j];
          assert forall i :: 0 <= i < j - 1 ==> rest[i] == conditions[i + 1];
        }
      }
    }
  }

  /** One and the same gateway has accepted the route and resolved its references. */
  ghost predicate SomeParentTakes(parents: seq<Parent>) {
    exists p :: 0 <= p < |parents| && FirstIsTrue(parents[p].conditions, "Accepted")
                && FirstIsTrue(parents[p].conditions, "ResolvedRefs")
  }

  lemma AcceptedMeans(parents: seq<Parent>)
    ensures RouteAccepted(parents) <==> SomeParentTakes(parents)
  {
    forall p | 0 <= p < |parents|
      ensures ConditionTrue(parents[p].conditions, "Accepted") <==> FirstIsTrue(parents[p].conditions, "Accepted")
      ensures ConditionTrue(parents[p].conditions, "ResolvedRefs") <==> FirstIsTrue(parents[p].conditions, "ResolvedRefs")
    {
      FirstDecides(parents[p].conditions, "Accepted");
      FirstDecides(parents[p].conditions, "ResolvedRefs");
    }
  }

  // ---------- The answer to a request ----------

  /** The route belongs to something else than this cluster, by kind and name. */
  predicate AnotherOwns(route: Route, c: Cluster) {
    route.controller.Some?
    && (route.controller.value.kind != "PolarsCluster" || route.controller.value.name != c.key.name)
  }

  /** The verdict on a requested route, in terms of the route read, the object stored under its name and the calls that
      fail. A missing route is created and not accepted yet; another owner's is a conflict; one that is as asked is in
      place, any other is updated, and it counts as accepted as its gateways say. An error of the read or the write is
      routed. */
  ghost predicate Answers(v: Result<Verdict, Error>, stored: Option<Route>, cached: map<RouteKey, Route>, c: Cluster,
                          t: Target, faults: Faults)
    requires t.spec.Some?
  {
    var name := t.id.key.name;
    if RouteMissing(cached, t.id, faults) then
      match Injected(faults(RouteCreate(t.id)), if stored.Some? then Some(ExistsError(name)) else None)
      case Some(e) => RouteRouted(v, e)
      case None => v == Ok(InPlace(false))
    else if faults(RouteGet(t.id)).Some? then RouteRouted(v, faults(RouteGet(t.id)).value)
    else
      var route := cached[t.id];
      if AnotherOwns(route, c) then v.Ok? && v.value.Refused? && v.value.reason == "RouteConflict"
      else if AsAsked(route, t.spec.value, t.port, c) then v == Ok(InPlace(SomeParentTakes(route.parents)))
      else
        match Injected(faults(RouteUpdate(t.id)),
                       if stored.None? then Some(MissingError(name))
                       else if stored.value.version != route.version then Some(ConflictError(name))
                       else None)
        case Some(e) => RouteRouted(v, e)
        case None => v == Ok(InPlace(SomeParentTakes(route.parents)))
  }

  /** What the operator makes of an error of the write. */
  function VerdictOn(e: Error): Result<Verdict, Error> {
    match As(ClassifyRoute(e), SpecKind)
    case None => Failed(ClassifyRoute(e))
    case Some(se) => Ok(Refused(se.reason, Text(se)))
  }

  lemma OwnedIsConflict(id: RouteKey)
    ensures var v := VerdictOn(OwnedError(id)); v.Ok? && v.value.Refused? && v.value.reason == "RouteConflict"
  {
    hide Text;
  }

  lemma StepVerdict(store: RouteStore, cached: map<RouteKey, Route>, c: Cluster, t: Target, faults: Faults)
    requires t.spec.Some?
    ensures var r := CreateOrUpdate(store, cached, c, t, faults);
            TargetStep(store, cached, c, t, faults).verdict ==
            if r.err.Some? then VerdictOn(r.err.value) else Ok(InPlace(RouteAccepted(r.parents)))
  {
    hide CreateOrUpdate, RouteAccepted, Text, ClassifyRoute;
  }

  lemma MissingAnswered(store: RouteStore, cached: map<RouteKey, Route>, c: Cluster, t: Target, faults: Faults)
    requires t.spec.Some? && RouteMissing(cached, t.id, faults)
    ensures var r := CreateOrUpdate(store, cached, c, t, faults);
            && r.parents == []
            && r.err == Injected(faults(RouteCreate(t.id)),
                                 if t.id in store.items then Some(ExistsError(t.id.key.name)) else None)
  {
    hide SchedulerObjectLabels;
  }

  lemma FoundAnswered(store: RouteStore, cached: map<RouteKey, Route>, c: Cluster, t: Target, faults: Faults)
    requires t.spec.Some? && !RouteMissing(cached, t.id, faults) && faults(RouteGet(t.id)).None?
    requires cached[t.id].id == t.id
    ensures var r, route := CreateOrUpdate(store, cached, c, t, faults), cached[t.id];
            && r.parents == route.parents
            && r.err ==
               if AnotherOwns(route, c) then Some(OwnedError(t.id))
               else if AsAsked(route, t.spec.value, t.port, c) then None
               else Injected(faults(RouteUpdate(t.id)),
                             if t.id !in store.items then Some(MissingError(t.id.key.name))
                             else if store.items[t.id].version != route.version then Some(ConflictError(t.id.key.name))
                             else None)
  {
    hide SchedulerObjectLabels, IsNotFound;
  }

  /** Every requested target is answered so. */
  lemma RequestAnswered(store: RouteStore, cached: map<RouteKey, Route>, c: Cluster, t: Target, faults: Faults)
    requires Genuine(faults) && t.spec.Some? && (t.id in cached ==> cached[t.id].id == t.id)
    ensures Answers(TargetStep(store, cached, c, t, faults).verdict, Lookup(store.items, t.id), cached, c, t, faults)
  {
    hide VerdictOn, RouteRouted, RouteAccepted, SomeParentTakes, Text, As, TargetStep, CreateOrUpdate, AsAsked, OwnedError;
    StepVerdict(store, cached, c, t, faults);
    NoParents();
    var r := CreateOrUpdate(store, cached, c, t, faults);
    if r.err.Some? {
      RouteLaws.CreateOrUpdateErrors(store, cached, c, t, faults);
      VerdictRouted(r.err.value);
    }
    AcceptedMeans(r.parents);
    if RouteMissing(cached, t.id, faults) {
      MissingAnswered(store, cached, c, t, faults);
    } else if faults(RouteGet(t.id)).None? {
      FoundAnswered(store, cached, c, t, faults);
      OwnedIsConflict(t.id);
    } else {
      ReadFailure(store, cached, c, t, faults);
    }
  }

  lemma ReadFailure(store: RouteStore, cached: map<RouteKey, Route>, c: Cluster, t: Target, faults: Faults)
    requires t.spec.Some? && !RouteMissing(cached, t.id, faults) && faults(RouteGet(t.id)).Some?
    ensures CreateOrUpdate(store, cached, c, t, faults).err == faults(RouteGet(t.id))
  {
    hide SchedulerObjectLabels;
  }

  lemma NoParents()
    ensures !SomeParentTakes([])
  {
  }

  lemma VerdictRouted(e: Error)
    requires !Occurs(e, SpecKind)
    ensures RouteRouted(VerdictOn(e), e)
  {
    ClassifiedRoute(e);
  }

  // ---------- The whole stage ----------

  /** A step touches only its own target. */
  lemma StepFrame(store: RouteStore, cached: map<RouteKey, Route>, c: Cluster, t: Target, faults: Faults, id: RouteKey)
    requires (t.id in cached ==> cached[t.id].id == t.id) && id != t.id
    ensures Lookup(TargetStep(store, cached, c, t, faults).store.items, id) == Lookup(store.items, id)
  {
    hide SchedulerObjectLabels, RouteAccepted, As, Text, ClassifyRoute;
  }

  ghost predicate NamedRoutes(cached: map<RouteKey, Route>) {
    forall id :: id in cached ==> cached[id].id == id
  }

  /** What a pass makes of each target, in terms of what was stored when it began; a target that is not requested asks
      for nothing. */
  ghost predicate Answered(verdict: Verdict, stored: Option<Route>, cached: map<RouteKey, Route>, c: Cluster, t: Target,
                           faults: Faults) {
    match t.spec
    case None => verdict == Unrequested
    case Some(_) => Answers(Ok(verdict), stored, cached, c, t, faults)
  }

  lemma {:induction false} WalkAnswers(store: RouteStore, cached: map<RouteKey, Route>, c: Cluster, targets: seq<Target>,
                                       faults: Faults)
    requires Genuine(faults) && NamedRoutes(cached) && DistinctTargets(targets)
    ensures var w := WalkTargets(store, cached, c, targets, faults);
            && (forall id :: (forall k :: 0 <= k < |targets| ==> targets[k].id != id) ==>
                  Lookup(w.store.items, id) == Lookup(store.items, id))
            && (w.err.None? ==> forall k :: 0 <= k < |targets| ==>
                  Answered(w.verdicts[k], Lookup(store.items, targets[k].id), cached, c, targets[k], faults))
  {
    hide TargetStep, Answered, Genuine, Lookup;
    if targets != [] {
      var n := |targets| - 1;
      var t, prior := targets[n], targets[..n];
      WalkAnswers(store, cached, c, prior, faults);
      var w := WalkTargets(store, cached, c, prior, faults);
      forall id | id != t.id
        ensures Lookup(TargetStep(w.store, cached, c, t, faults).store.items, id) == Lookup(w.store.items, id)
      {
        StepFrame(w.store, cached, c, t, faults, id);
      }
      assert Lookup(w.store.items, t.id) == Lookup(store.items, t.id);
      assert forall k :: 0 <= k < n ==> prior[k] == targets[k];
      StepAnswered(w.store, cached, c, t, faults);
    }
  }

  lemma StepAnswered(store: RouteStore, cached: map<RouteKey, Route>, c: Cluster, t: Target, faults: Faults)
    requires Genuine(faults) && (t.id in cached ==> cached[t.id].id == t.id)
    ensures var v := TargetStep(store, cached, c, t, faults).verdict;
            v.Ok? ==> Answered(v.value, Lookup(store.items, t.id), cached, c, t, faults)
  {
    if t.spec.Some? {
      hide TargetStep, Answers;
      RequestAnswered(store, cached, c, t, faults);
    }
  }

  // ---------- When the routes are ready ----------

  /** The route read exists, is nobody else's, is as the spec asks or could be made so, and one gateway takes it. */
  ghost predicate Taken(stored: Option<Route>, cached: map<RouteKey, Route>, c: Cluster, t: Target, faults: Faults) {
    && t.spec.Some? && faults(RouteGet(t.id)).None? && t.id in cached
    && var route := cached[t.id];
       && !AnotherOwns(route, c)
       && (AsAsked(route, t.spec.value, t.port, c)
           || (faults(RouteUpdate(t.id)).None? && stored.Some? && stored.value.version == route.version))
       && SomeParentTakes(route.parents)
  }

  lemma TakenExactly(v: Verdict, stored: Option<Route>, cached: map<RouteKey, Route>, c: Cluster, t: Target,
                     faults: Faults)
    requires Answered(v, stored, cached, c, t, faults)
    ensures v == InPlace(true) <==> Taken(stored, cached, c, t, faults)
    ensures v == Unrequested <==> t.spec.None?
    ensures t.spec.Some? && faults(RouteGet(t.id)).None? && t.id in cached && AnotherOwns(cached[t.id], c) ==>
              v.Refused? && v.reason == "RouteConflict"
  {
    hide SomeParentTakes, AsAsked, Text, Occurs, ContentRefused, IsNotFound;
  }

  /** The report of the routes stage. Routes are requested if the spec asks for one; they are ready exactly when the
      Gateway API is there and every requested one is taken, or none is requested; another owner's is reported as a
      conflict. */
  lemma RoutesReadyExactly(store: RouteStore, cached: map<RouteKey, Route>, c: Cluster, enabled: bool, faults: Faults)
    requires Genuine(faults) && NamedRoutes(cached)
    ensures var r := RoutesPass(store, cached, c, RouteTargets(c), enabled, faults).result;
            r.Ok? ==>
              && (r.value.requested <==> RouteRequest(c, 0).Some? || RouteRequest(c, 1).Some?)
              && (r.value.ready <==> forall k: nat :: k < 2 && RouteRequest(c, k).Some? ==>
                    enabled && TakenAt(store, cached, c, k, faults))
              && (enabled && (ClashesAt(cached, c, 0, faults) || ClashesAt(cached, c, 1, faults)) ==> r.value.conflict)
  {
    var targets := RouteTargets(c);
    RouteTargetsMean(c);
    RouteTargetsDistinct(c);
    hide WalkTargets, Fold, Taken, Answered, NamedRoutes, Genuine, RouteTargets, RouteId, RouteRequest;
    if enabled {
      WalkAnswers(store, cached, c, targets, faults);
      var w := WalkTargets(store, cached, c, targets, faults);
      if w.err.None? {
        forall k | 0 <= k < 2
          ensures w.verdicts[k] == InPlace(true) <==>
                  Taken(Lookup(store.items, targets[k].id), cached, c, targets[k], faults)
          ensures w.verdicts[k] == Unrequested <==> targets[k].spec.None?
          ensures ClashesAt(cached, c, k, faults) ==>
                    w.verdicts[k].Refused? && w.verdicts[k].reason == "RouteConflict"
        {
          TakenExactly(w.verdicts[k], Lookup(store.items, targets[k].id), cached, c, targets[k], faults);
        }
        var _ := RouteLaws.PriorityFold(targets, w.verdicts);
        TwoVerdicts(w.verdicts, targets);
      }
    } else {
      assert targets[0].spec == RouteRequest(c, 0) && targets[1].spec == RouteRequest(c, 1);
    }
  }

  ghost predicate TakenAt(store: RouteStore, cached: map<RouteKey, Route>, c: Cluster, k: nat, faults: Faults) {
    Taken(Lookup(store.items, RouteId(c, k)), cached, c, Target(RouteId(c, k), RouteRequest(c, k), RoutePort(k)), faults)
  }

  /** The spec asks for the route, and the read shows another owner's under its name. */
  ghost predicate ClashesAt(cached: map<RouteKey, Route>, c: Cluster, k: nat, faults: Faults) {
    RouteRequest(c, k).Some? && faults(RouteGet(RouteId(c, k))).None? && RouteId(c, k) in cached
    && AnotherOwns(cached[RouteId(c, k)], c)
  }

  lemma TwoVerdicts(verdicts: seq<Verdict>, targets: seq<Target>)
    requires |verdicts| == |targets| == 2
    ensures RouteLaws.Any(verdicts, RouteLaws.IsRequested) <==> verdicts[0] != Unrequested || verdicts[1] != Unrequested
    ensures RouteLaws.Any(verdicts, RouteLaws.IsProblem) <==>
            !(verdicts[0] in {Unrequested, InPlace(true)} && verdicts[1] in {Unrequested, InPlace(true)})
    ensures RouteLaws.Any(verdicts, RouteLaws.IsConflict) <==>
            (verdicts[0].Refused? && verdicts[0].reason == "RouteConflict")
            || (verdicts[1].Refused? && verdicts[1].reason == "RouteConflict")
  {
    assert verdicts[0] in verdicts && verdicts[1] in verdicts;
  }
}
