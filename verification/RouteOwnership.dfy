/** Which routes the routes stage may write or delete, and where it settles. */
module RouteOwnership {
  import opened Kube
  import opened Errors
  import opened PolarsCluster
  import opened ApiServer
  import opened Routes

  // ---------- Reads ----------

  /** A possibly out-of-date view of the routes: whatever it shows at the stored version is what is stored. */
  ghost predicate Coherent(cached: map<RouteKey, Route>, items: map<RouteKey, Route>) {
    forall id :: CoherentAt(Lookup(cached, id), Lookup(items, id), id)
  }

  predicate CoherentAt(cached: Option<Route>, stored: Option<Route>, id: RouteKey) {
    && (cached.Some? ==> cached.value.id == id)
    && (cached.Some? && stored.Some? && cached.value.version == stored.value.version ==> cached == stored)
  }

  /** Routes are stored under their identity, and only those with finalizers linger while terminating. */
  ghost predicate WellFormed(items: map<RouteKey, Route>) {
    forall id :: id in items ==> items[id].id == id && (items[id].terminating ==> items[id].finalized)
  }

  /** A route controlled by another owner, by either of the two comparisons the code makes. */
  predicate Foreign(route: Route, c: Cluster) {
    OwnedByAnother(route, c) && !IsControlledBy(route, c)
  }

  // ---------- One target ----------

  /** Applying a route, with any coherent read and any failures: no other route changes; this one changes only if it was
      absent or not owned by another, and is then controlled by this cluster. */
  lemma ApplyIsSafe(store: RouteStore, cached: map<RouteKey, Route>, c: Cluster, t: Target, faults: Faults)
    requires t.spec.Some? && CoherentAt(Lookup(cached, t.id), Lookup(store.items, t.id), t.id)
    ensures var after := ApplyRoute(store, cached, c, t, faults).store;
            && (forall id :: id != t.id ==> Lookup(after.items, id) == Lookup(store.items, id))
            && (Lookup(after.items, t.id) != Lookup(store.items, t.id) ==>
                  && (t.id in store.items ==> !OwnedByAnother(store.items[t.id], c))
                  && t.id in after.items && after.items[t.id].controller == Some(Owner(c)))
  {
    hide ClassifyRoute, IsNotFound, SchedulerObjectLabels, ExistsError, MissingError, ConflictError, OwnedError;
  }

  /** Removing a route that is not requested, with any read and any failures: no other route changes; this one changes
      only if the read showed it under this cluster's control. */
  lemma RemovalFollowsTheRead(store: RouteStore, cached: map<RouteKey, Route>, c: Cluster, id: RouteKey, faults: Faults)
    ensures var after := DeleteOwnedRoute(store, cached, c, id, faults).store;
            && (forall k :: k != id ==> Lookup(after.items, k) == Lookup(store.items, k))
            && (Lookup(after.items, id) != Lookup(store.items, id) ==> id in cached && IsControlledBy(cached[id], c))
  {
    hide IsNotFound, MissingError;
  }

  /** A delete takes effect on a live route this cluster does not control. */
  ghost predicate DeletesForeign(store: RouteStore, cached: map<RouteKey, Route>, c: Cluster, id: RouteKey,
                                 faults: Faults) {
    && id in store.items && !IsControlledBy(store.items[id], c) && !store.items[id].terminating
    && var after := DeleteOwnedRoute(store, cached, c, id, faults).store;
       id !in after.items || after.items[id].terminating
  }

  /** The exact condition: the read showed a route of this name under this cluster's control, and by then a live one it
      does not control has the name. The delete carries no precondition on the object. */
  lemma ForeignDeletes(store: RouteStore, cached: map<RouteKey, Route>, c: Cluster, id: RouteKey, faults: Faults)
    ensures DeletesForeign(store, cached, c, id, faults) <==>
            && faults(RouteGet(id)).None? && faults(RouteDelete(id)).None?
            && id in cached && IsControlledBy(cached[id], c)
            && id in store.items && !IsControlledBy(store.items[id], c) && !store.items[id].terminating
  {
    hide IsNotFound, MissingError;
  }

  /** A lagging read deletes a route that someone else has created under the same name since. */
  lemma LaggingReadDeletesForeign(c: Cluster, id: RouteKey, other: OwnerRef)
    requires other.uid != c.uid
    ensures var mine := BlankRoute(id).(controller := Some(Owner(c)));
            var theirs := BlankRoute(id).(controller := Some(other), version := 2);
            var store := Versioned(map[id := theirs], 2);
            Coherent(map[id := mine], store.items) && DeletesForeign(store, map[id := mine], c, id, _ => None)
  {
    var mine := BlankRoute(id).(controller := Some(Owner(c)));
    var theirs := BlankRoute(id).(controller := Some(other), version := 2);
    ForeignDeletes(Versioned(map[id := theirs], 2), map[id := mine], c, id, _ => None);
  }

  // ---------- The whole pass ----------

  ghost predicate DistinctTargets(targets: seq<Target>) {
    forall i, j :: 0 <= i < j < |targets| ==> targets[i].id != targets[j].id
  }

  lemma RouteTargetsDistinct(c: Cluster)
    ensures DistinctTargets(RouteTargets(c))
  {
  }

  /** What a read says about a target that is not requested is still true: a route seen under this cluster's control has
      not been replaced by one it does not control. */
  predicate ControlStillTrue(t: Target, cached: Option<Route>, stored: Option<Route>, c: Cluster) {
    t.spec.None? && cached.Some? && IsControlledBy(cached.value, c) && stored.Some? ==> IsControlledBy(stored.value, c)
  }

  /** What a pass may do to the route `id`, stored as `before` and then as `after`. */
  predicate Permitted(before: Option<Route>, after: Option<Route>, c: Cluster, requested: bool) {
    || after == before
    || (requested && (before.Some? ==> !OwnedByAnother(before.value, c))
        && after.Some? && after.value.controller == Some(Owner(c)))
    || (!requested && before.Some? && IsControlledBy(before.value, c))
  }

  lemma TargetStepPermitted(store: RouteStore, cached: map<RouteKey, Route>, c: Cluster, t: Target, faults: Faults)
    requires CoherentAt(Lookup(cached, t.id), Lookup(store.items, t.id), t.id)
    requires ControlStillTrue(t, Lookup(cached, t.id), Lookup(store.items, t.id), c)
    ensures var after := TargetStep(store, cached, c, t, faults).store;
            && (forall id :: id != t.id ==> Lookup(after.items, id) == Lookup(store.items, id))
            && Permitted(Lookup(store.items, t.id), Lookup(after.items, t.id), c, t.spec.Some?)
  {
    hide ApplyRoute, DeleteOwnedRoute, RouteAccepted, As, Text;
    if t.spec.None? {
      RemovalFollowsTheRead(store, cached, c, t.id, faults);
      if t.id !in store.items { RemovalOfNothing(store, cached, c, t.id, faults); }
    } else {
      ApplyIsSafe(store, cached, c, t, faults);
    }
  }

  lemma RemovalOfNothing(store: RouteStore, cached: map<RouteKey, Route>, c: Cluster, id: RouteKey, faults: Faults)
    requires id !in store.items
    ensures DeleteOwnedRoute(store, cached, c, id, faults).store == store
  {
  }

  /** Ownership safety. With any failures, and reads that may lag as long as ControlStillTrue: a route is written only
      if requested, and not under another owner's control; it is deleted only if not requested and under this cluster's
      control; routes that are no target stay as they are. */
  lemma {:induction false} OwnershipSafety(store: RouteStore, cached: map<RouteKey, Route>, c: Cluster,
                                           targets: seq<Target>, faults: Faults)
    requires DistinctTargets(targets) && Coherent(cached, store.items)
    requires forall i :: 0 <= i < |targets| ==>
               ControlStillTrue(targets[i], Lookup(cached, targets[i].id), Lookup(store.items, targets[i].id), c)
    ensures var after := WalkTargets(store, cached, c, targets, faults).store;
            && (forall i :: 0 <= i < |targets| ==>
                  Permitted(Lookup(store.items, targets[i].id), Lookup(after.items, targets[i].id), c,
                            targets[i].spec.Some?))
            && (forall id :: (forall i :: 0 <= i < |targets| ==> targets[i].id != id) ==>
                  Lookup(after.items, id) == Lookup(store.items, id))
  {
    hide TargetStep, Permitted, CoherentAt, ControlStillTrue, Lookup;
    if targets != [] {
      var n := |targets| - 1;
      var t, prior := targets[n], targets[..n];
      OwnershipSafety(store, cached, c, prior, faults);
      var w := WalkTargets(store, cached, c, prior, faults);
      assert Lookup(w.store.items, t.id) == Lookup(store.items, t.id);
      TargetStepPermitted(w.store, cached, c, t, faults);
      var after := WalkTargets(store, cached, c, targets, faults).store;
      forall i | 0 <= i < n
        ensures Permitted(Lookup(store.items, targets[i].id), Lookup(after.items, targets[i].id), c, targets[i].spec.Some?)
      {
        assert prior[i] == targets[i];
        assert targets[i].id != t.id;
      }
      Untouched(Lookup(store.items, t.id), c, t.spec.Some?);
    }
  }

  lemma Untouched(route: Option<Route>, c: Cluster, requested: bool)
    ensures Permitted(route, route, c, requested)
  {
  }

  // ---------- After a successful pass ----------

  /** Nothing of this cluster's is left under the name, or it is on its way out. */
  predicate ReleasedAt(stored: Option<Route>, c: Cluster) {
    stored.Some? && IsControlledBy(stored.value, c) ==> stored.value.terminating
  }

  /** The stored route is what the spec asks for, and this cluster controls it. */
  predicate AppliedAt(stored: Option<Route>, t: Target, c: Cluster)
    requires t.spec.Some?
  {
    stored.Some? && stored.value == Mutated(stored.value, t, c)
  }

  predicate SettledAt(stored: Option<Route>, t: Target, c: Cluster) {
    match t.spec
    case None => ReleasedAt(stored, c)
    case Some(_) => AppliedAt(stored, t, c) || (stored.Some? && OwnedByAnother(stored.value, c))
  }

  /** No call reports NotFound about a route that is there. */
  predicate NoFalseNotFound(id: RouteKey, faults: Faults) {
    && (faults(RouteGet(id)).Some? ==> !IsNotFound(faults(RouteGet(id)).value))
    && (faults(RouteDelete(id)).Some? ==> !IsNotFound(faults(RouteDelete(id)).value))
  }

  lemma DeletedRoute(store: RouteStore, id: RouteKey)
    requires id in store.items && WellFormed(store.items)
    ensures var after := RouteDeleted(store, id);
            && WellFormed(after.items)
            && (id in after.items ==> after.items[id].terminating)
            && (forall k :: k != id ==> Lookup(after.items, k) == Lookup(store.items, k))
  {
  }

  lemma MutatedIsStable(route: Route, t: Target, c: Cluster, version: nat)
    requires t.spec.Some?
    ensures var m := Mutated(route, t, c);
            && Mutated(m.(version := version), t, c) == m.(version := version)
            && m.id == route.id && m.version == route.version
            && m.terminating == route.terminating && m.finalized == route.finalized
  {
  }

  /** The verdict on a target is true of the store when the read of it is up to date, whatever calls fail, short of a
      false NotFound: no verdict of "not requested" while a live route is still controlled, none of "in place" while the
      stored route is not as the spec asks. */
  lemma VerdictsAreTrue(store: RouteStore, cached: map<RouteKey, Route>, c: Cluster, t: Target, faults: Faults)
    requires WellFormed(store.items) && NoFalseNotFound(t.id, faults)
    requires Lookup(cached, t.id) == Lookup(store.items, t.id)
    ensures var o := TargetStep(store, cached, c, t, faults);
            && WellFormed(o.store.items)
            && (forall k :: k != t.id ==> Lookup(o.store.items, k) == Lookup(store.items, k))
            && (o.verdict == Ok(Unrequested) ==> ReleasedAt(Lookup(o.store.items, t.id), c))
            && (t.spec.Some? && o.verdict.Ok? && o.verdict.value.InPlace? ==> AppliedAt(Lookup(o.store.items, t.id), t, c))
            && (o.verdict.Ok? ==> (o.verdict.value == Unrequested <==> t.spec.None?))
  {
    hide RouteAccepted, As, Text, SchedulerObjectLabels, ClassifyAPIError, RouteDeleted, Mutated, MissingError,
      ExistsError, ConflictError;
    if t.spec.None? {
      if t.id in store.items { DeletedRoute(store, t.id); }
    } else {
      MutatedIsStable(BlankRoute(t.id), t, c, store.revision + 1);
      if t.id in store.items { MutatedIsStable(store.items[t.id], t, c, store.revision + 1); }
    }
  }

  /** After a successful pass on up-to-date reads, whatever calls failed on the way short of a false NotFound, no target
      that is not requested is still a live route controlled by this cluster, and every target reported in place is as
      the spec asks. */
  lemma {:induction false} SuccessfulPassIsTrue(store: RouteStore, c: Cluster, targets: seq<Target>, faults: Faults)
    requires WellFormed(store.items) && DistinctTargets(targets)
    requires forall i :: 0 <= i < |targets| ==> NoFalseNotFound(targets[i].id, faults)
    ensures var w := WalkTargets(store, store.items, c, targets, faults);
            && (w.err.None? ==>
                  && WellFormed(w.store.items)
                  && (forall i :: 0 <= i < |targets| ==> (w.verdicts[i] == Unrequested <==> targets[i].spec.None?))
                  && (forall i :: 0 <= i < |targets| && w.verdicts[i] == Unrequested ==>
                        ReleasedAt(Lookup(w.store.items, targets[i].id), c))
                  && (forall i :: 0 <= i < |targets| && w.verdicts[i].InPlace? ==>
                        AppliedAt(Lookup(w.store.items, targets[i].id), targets[i], c))
                  && (forall id :: (forall i :: 0 <= i < |targets| ==> targets[i].id != id) ==>
                        Lookup(w.store.items, id) == Lookup(store.items, id)))
  {
    hide ReleasedAt, AppliedAt, Lookup, NoFalseNotFound, WellFormed, TargetStep;
    if targets != [] {
      var n := |targets| - 1;
      var t, prior := targets[n], targets[..n];
      SuccessfulPassIsTrue(store, c, prior, faults);
      var w := WalkTargets(store, store.items, c, prior, faults);
      if w.err.None? {
        assert Lookup(w.store.items, t.id) == Lookup(store.items, t.id);
        VerdictsAreTrue(w.store, store.items, c, t, faults);
        assert forall i :: 0 <= i < n ==> prior[i] == targets[i] && targets[i].id != t.id;
      }
    }
  }

  // ---------- Where the stage settles ----------

  /** The verdict a settled target gets, from what is stored under its name. */
  function VerdictAt(stored: Option<Route>, t: Target, c: Cluster): Verdict {
    if t.spec.None? then Unrequested
    else if stored.Some? && OwnedByAnother(stored.value, c) then Refused(REASON_ROUTE_CONFLICT, Text(OwnedError(t.id)))
    else InPlace(stored.Some? && RouteAccepted(stored.value.parents))
  }

  /** Without failures and on an up-to-date read, one step settles its target; only a route owned by another is refused.
      On a settled target it writes nothing. */
  lemma FaultFreeTarget(store: RouteStore, cached: map<RouteKey, Route>, c: Cluster, t: Target, faults: Faults)
    requires WellFormed(store.items) && FaultFree(faults) && Lookup(cached, t.id) == Lookup(store.items, t.id)
    ensures var o := TargetStep(store, cached, c, t, faults);
            && o.verdict == Ok(VerdictAt(Lookup(o.store.items, t.id), t, c))
            && SettledAt(Lookup(o.store.items, t.id), t, c)
            && (SettledAt(Lookup(store.items, t.id), t, c) ==> o.store == store)
  {
    VerdictsAreTrue(store, cached, c, t, faults);
    hide RouteAccepted, Text, SchedulerObjectLabels, ClassifyAPIError, RouteDeleted, Mutated, ReleasedAt, AppliedAt;
    if t.spec.None? {
      SettledRemoval(store, cached, c, t.id, faults);
    } else if t.id in store.items {
      SettledApply(store, cached, c, t, faults);
    }
    ParentsKept(store, cached, c, t, faults);
  }

  /** What the route object in hand says about its gateways is what is stored afterwards. */
  lemma ParentsKept(store: RouteStore, cached: map<RouteKey, Route>, c: Cluster, t: Target, faults: Faults)
    requires WellFormed(store.items) && FaultFree(faults) && Lookup(cached, t.id) == Lookup(store.items, t.id)
    ensures t.spec.Some? && !(t.id in store.items && OwnedByAnother(store.items[t.id], c)) ==>
              var r := ApplyRoute(store, cached, c, t, faults);
              && r.err.None? && t.id in r.store.items && r.store.items[t.id].parents == r.parents
              && !OwnedByAnother(r.store.items[t.id], c)
  {
    hide SchedulerObjectLabels, ClassifyAPIError;
  }

  lemma SettledRemoval(store: RouteStore, cached: map<RouteKey, Route>, c: Cluster, id: RouteKey, faults: Faults)
    requires WellFormed(store.items) && FaultFree(faults) && Lookup(cached, id) == Lookup(store.items, id)
    ensures DeleteOwnedRoute(store, cached, c, id, faults).err.None?
    ensures ReleasedAt(Lookup(store.items, id), c) ==> DeleteOwnedRoute(store, cached, c, id, faults).store == store
  {
  }

  lemma SettledApply(store: RouteStore, cached: map<RouteKey, Route>, c: Cluster, t: Target, faults: Faults)
    requires t.spec.Some? && WellFormed(store.items) && FaultFree(faults) && t.id in store.items
    requires Lookup(cached, t.id) == Lookup(store.items, t.id)
    ensures var r := ApplyRoute(store, cached, c, t, faults);
            && (r.err.Some? <==> OwnedByAnother(store.items[t.id], c))
            && (r.err.Some? ==> As(r.err.value, SpecKind) == Some(Spec(REASON_ROUTE_CONFLICT, OwnedError(t.id))))
            && (AppliedAt(Some(store.items[t.id]), t, c) || OwnedByAnother(store.items[t.id], c) ==> r.store == store)
  {
  }

  ghost predicate AllSettled(items: map<RouteKey, Route>, targets: seq<Target>, c: Cluster) {
    forall i :: 0 <= i < |targets| ==> SettledAt(Lookup(items, targets[i].id), targets[i], c)
  }

  /** A fault-free pass on up-to-date reads succeeds and settles every target; on settled targets it writes nothing, so
      the next pass changes nothing. */
  lemma {:induction false} FaultFreeWalk(store: RouteStore, c: Cluster, targets: seq<Target>, faults: Faults)
    requires WellFormed(store.items) && FaultFree(faults) && DistinctTargets(targets)
    ensures var w := WalkTargets(store, store.items, c, targets, faults);
            && w.err.None? && WellFormed(w.store.items)
            && AllSettled(w.store.items, targets, c)
            && (AllSettled(store.items, targets, c) ==> w.store == store)
            && (forall i :: 0 <= i < |targets| ==>
                  w.verdicts[i] == VerdictAt(Lookup(w.store.items, targets[i].id), targets[i], c))
            && (forall id :: (forall i :: 0 <= i < |targets| ==> targets[i].id != id) ==>
                  Lookup(w.store.items, id) == Lookup(store.items, id))
  {
    hide SettledAt, Lookup, WellFormed, TargetStep, FaultFree, VerdictAt;
    if targets != [] {
      var n := |targets| - 1;
      var t, prior := targets[n], targets[..n];
      FaultFreeWalk(store, c, prior, faults);
      var w := WalkTargets(store, store.items, c, prior, faults);
      assert Lookup(w.store.items, t.id) == Lookup(store.items, t.id);
      FaultFreeTarget(w.store, store.items, c, t, faults);
      FaultFreeTargetFrame(w.store, store.items, c, t, faults);
      assert forall i :: 0 <= i < n ==> prior[i] == targets[i] && targets[i].id != t.id;
      assert AllSettled(store.items, targets, c) ==> AllSettled(store.items, prior, c);
    }
  }

  lemma FaultFreeTargetFrame(store: RouteStore, cached: map<RouteKey, Route>, c: Cluster, t: Target, faults: Faults)
    requires WellFormed(store.items) && FaultFree(faults) && Lookup(cached, t.id) == Lookup(store.items, t.id)
    ensures var o := TargetStep(store, cached, c, t, faults);
            && WellFormed(o.store.items)
            && (forall k :: k != t.id ==> Lookup(o.store.items, k) == Lookup(store.items, k))
  {
    VerdictsAreTrue(store, cached, c, t, faults);
  }
}
