/** What the services stage leaves behind, under any failures and any subset of its tasks. */
module ServiceLaws {
  import opened Kube
  import opened Errors
  import opened PolarsCluster
  import opened ApiServer
  import opened Services
  import W = WorkerPool

  /** The stored service carries every field the operator sets for this target. */
  predicate AsDesired(svc: Service, t: Target, c: Cluster) {
    svc == Configured(svc, t, c)
  }

  predicate Present(items: map<Key, Service>, slot: nat, c: Cluster)
    requires slot < SERVICE_COUNT
  {
    Targets(c)[slot].key in items && AsDesired(items[Targets(c)[slot].key], Targets(c)[slot], c)
  }

  ghost predicate Reads(cached: map<Key, Service>) {
    forall k :: k in cached ==> cached[k].key == k
  }

  lemma TargetsDistinct(c: Cluster, i: nat, j: nat)
    requires i < SERVICE_COUNT && j < SERVICE_COUNT && i != j
    ensures Targets(c)[i].key != Targets(c)[j].key
  {
    assert |SchedulerServiceName(c)| == |c.key.name| + 10;
    assert |SchedulerInternalServiceName(c)| == |c.key.name| + 19;
    assert |ObservatoryServiceName(c)| == |c.key.name| + 12;
  }

  /** One task: it touches its own target only, and if it reports no error the target is as desired. */
  lemma StepEffect(store: ServiceStore, cached: map<Key, Service>, c: Cluster, slot: nat, faults: Faults)
    requires slot < SERVICE_COUNT && Reads(cached)
    ensures var r := ServiceStep(store, cached, c, slot, faults);
            && (forall k :: k != Targets(c)[slot].key ==> Lookup(r.store.items, k) == Lookup(store.items, k))
            && (r.err.None? ==> Present(r.store.items, slot, c))
            && (r.err.Some? ==> r.store == store)
  {
    hide ClassifyAPIError, IsNotFound, SchedulerObjectLabels, ServiceSelector, TypeOf, PublishOf,
      PolarsCluster.Services;
  }

  /** Any subset of the tasks, any failures: each task's outcome is its own. A task that ran without error leaves its
      service as desired, a task that failed or never ran leaves it as it was, and nothing else in the store changes. */
  lemma {:induction false} FanEffect(store: ServiceStore, cached: map<Key, Service>, c: Cluster, order: seq<nat>,
                                     faults: Faults)
    requires W.Schedule(order, SERVICE_COUNT) && Reads(cached)
    ensures var r := Fan(store, cached, c, order, faults);
            && (forall i :: 0 <= i < SERVICE_COUNT ==>
                  if i in order && r.errs[i].None? then Present(r.store.items, i, c)
                  else Lookup(r.store.items, Targets(c)[i].key) == Lookup(store.items, Targets(c)[i].key))
            && (forall i :: 0 <= i < SERVICE_COUNT && i !in order ==> r.errs[i].None?)
            && (forall k :: (forall i :: 0 <= i < SERVICE_COUNT ==> Targets(c)[i].key != k) ==>
                  Lookup(r.store.items, k) == Lookup(store.items, k))
  {
    hide Present, ServiceStep, Targets;
    if order != [] {
      var prior, slot := order[..|order| - 1], order[|order| - 1];
      FanEffect(store, cached, c, prior, faults);
      var before := Fan(store, cached, c, prior, faults);
      StepEffect(before.store, cached, c, slot, faults);
      var after := ServiceStep(before.store, cached, c, slot, faults).store;
      forall i | 0 <= i < SERVICE_COUNT && i != slot
        ensures Lookup(after.items, Targets(c)[i].key) == Lookup(before.store.items, Targets(c)[i].key)
        ensures Present(before.store.items, i, c) ==> Present(after.items, i, c)
      {
        TargetsDistinct(c, i, slot);
        PresentByLookup(before.store.items, after.items, i, c);
      }
      assert slot !in prior;
    }
  }

  lemma PresentByLookup(items: map<Key, Service>, after: map<Key, Service>, slot: nat, c: Cluster)
    requires slot < SERVICE_COUNT && Lookup(items, Targets(c)[slot].key) == Lookup(after, Targets(c)[slot].key)
    ensures Present(items, slot, c) == Present(after, slot, c)
  {
  }

  /** The stage reports success exactly when every task that ran succeeded. It then guarantees the services of those
      tasks only: a cancelled fan-out reports success with the others as they were. */
  lemma SuccessCoversTheTasksThatRan(store: ServiceStore, cached: map<Key, Service>, c: Cluster, order: seq<nat>,
                                     faults: Faults)
    requires W.Schedule(order, SERVICE_COUNT) && Reads(cached)
    ensures var r, errs := ServicesPass(store, cached, c, order, faults), Fan(store, cached, c, order, faults).errs;
            && (r.err.None? <==> forall i :: 0 <= i < SERVICE_COUNT && i in order ==> errs[i].None?)
            && (r.err.None? ==> forall i :: 0 <= i < SERVICE_COUNT ==>
                  if i in order then Present(r.store.items, i, c)
                  else Lookup(r.store.items, Targets(c)[i].key) == Lookup(store.items, Targets(c)[i].key))
  {
    FanEffect(store, cached, c, order, faults);
    ReduceConserves(Fan(store, cached, c, order, faults).errs);
  }

  /** A fan-out cancelled before any task ran succeeds on a store without services, and leaves it without them. */
  lemma CancelledFanOutSucceeds(cached: map<Key, Service>, c: Cluster, faults: Faults)
    ensures var store: ServiceStore := Versioned(map[], 0);
            ServicesPass(store, cached, c, [], faults) == Step(store, None) && !AllPresent(store.items, c)
  {
    ReduceConserves([None, None, None]);
    assert !Present(map[], 0, c);
  }

  /** Without failures and with an up-to-date read, a task creates a missing service, and brings an existing one in line
      keeping its labels, cluster IP and controller, whoever that controller is. On a service as desired it writes
      nothing. */
  lemma FaultFreeStep(store: ServiceStore, cached: map<Key, Service>, c: Cluster, slot: nat, faults: Faults)
    requires slot < SERVICE_COUNT && FaultFree(faults) && Reads(cached) && Reads(store.items)
    requires Lookup(cached, Targets(c)[slot].key) == Lookup(store.items, Targets(c)[slot].key)
    ensures var r, t := ServiceStep(store, cached, c, slot, faults), Targets(c)[slot];
            && r.err.None? && Reads(r.store.items) && t.key in r.store.items
            && var now := r.store.items[t.key];
               if t.key in store.items then
                 var was := store.items[t.key];
                 && now.labels == was.labels && now.clusterIP == was.clusterIP && now.controller == was.controller
                 && AsDesired(now, t, c) && (AsDesired(was, t, c) <==> r.store == store)
               else AsDesired(now, t, c) && now.controller == Some(Owner(c))
  {
    hide ClassifyAPIError, SchedulerObjectLabels, ServiceSelector, TypeOf, PublishOf, PolarsCluster.Services;
  }

  ghost predicate AllPresent(items: map<Key, Service>, c: Cluster) {
    forall i :: 0 <= i < SERVICE_COUNT ==> Present(items, i, c)
  }

  /** A complete fault-free stage on up-to-date reads succeeds and leaves all three services as desired; where they were
      already, it writes nothing. */
  lemma {:induction false} FaultFreeFan(store: ServiceStore, c: Cluster, order: seq<nat>, faults: Faults)
    requires W.Schedule(order, SERVICE_COUNT) && Reads(store.items) && FaultFree(faults)
    ensures var r := Fan(store, store.items, c, order, faults);
            && r.errs == [None, None, None] && Reads(r.store.items)
            && (forall i :: 0 <= i < SERVICE_COUNT && i in order ==> Present(r.store.items, i, c))
            && (AllPresent(store.items, c) ==> r.store == store)
  {
    hide ServiceStep, Targets, AsDesired, Present, Reads, Lookup, FaultFree;
    FanEffect(store, store.items, c, order, faults);
    if order != [] {
      var prior, slot := order[..|order| - 1], order[|order| - 1];
      FanEffect(store, store.items, c, prior, faults);
      FaultFreeFan(store, c, prior, faults);
      assert slot !in prior;
      var before := Fan(store, store.items, c, prior, faults);
      FaultFreeSlot(before.store, store.items, c, slot, faults);
      assert AllPresent(store.items, c) ==> Present(store.items, slot, c);
    }
  }

  lemma FaultFreeSlot(store: ServiceStore, cached: map<Key, Service>, c: Cluster, slot: nat, faults: Faults)
    requires slot < SERVICE_COUNT && FaultFree(faults) && Reads(cached) && Reads(store.items)
    requires Lookup(cached, Targets(c)[slot].key) == Lookup(store.items, Targets(c)[slot].key)
    ensures var r := ServiceStep(store, cached, c, slot, faults);
            && r.err.None? && Reads(r.store.items)
            && (Present(store.items, slot, c) ==> r.store == store)
  {
    hide ServiceStep;
    FaultFreeStep(store, cached, c, slot, faults);
  }

  /** A service controlled by someone else is overwritten: unlike a route's, its owner is not consulted. */
  lemma ForeignServiceOverwritten(c: Cluster, other: OwnerRef, faults: Faults)
    requires other != Owner(c) && FaultFree(faults)
    ensures var key := Targets(c)[0].key;
            var foreign := Service(key, map[], map[], "ExternalName", "", [], map[], false, Some(other), 0);
            var store := Versioned(map[key := foreign], 0);
            var after := ServiceStep(store, store.items, c, 0, faults).store;
            key in after.items && after.items[key] != foreign && after.items[key].controller == Some(other)
  {
    var key := Targets(c)[0].key;
    var foreign := Service(key, map[], map[], "ExternalName", "", [], map[], false, Some(other), 0);
    var store := Versioned(map[key := foreign], 0);
    FaultFreeStep(store, store.items, c, 0, faults);
    assert Configured(foreign, Targets(c)[0], c).ports == [5051];
  }
}
