/** What a worker-pool pass reports, and what scaling a settled pool does. */
module WorkerPoolReports {
  import opened Kube
  import opened Errors
  import opened PolarsCluster
  import opened PodTemplates
  import opened ApiServer
  import opened Readiness
  import opened WorkerPool
  import opened WorkerPoolLaws
  import opened WorkerPoolTheorems
  import opened WorkerPoolExact

  // ---------- Reports ----------

  /** A pod that is not Ready is recorded exactly when the count of Ready pods falls short; it is the first such pod. */
  lemma {:induction false} NotReadyPodRecorded(active: seq<Pod>) returns (i: nat)
    ensures FirstNotReady(active).Some? <==> CountReady(active) < |active|
    ensures i <= |active| && forall j :: 0 <= j < i ==> PodIsReady(active[j])
    ensures FirstNotReady(active) == if i < |active| then Some(active[i]) else None
    ensures i < |active| ==> !PodIsReady(active[i])
  {
    i := 0;
    if active != [] {
      var n := |active| - 1;
      i := NotReadyPodRecorded(active[..n]);
      if i == n && PodIsReady(active[n]) { i := n + 1; }
    }
  }

  /** A report about no more pods than desired counts them without wrap-around, keeps ready <= existing <= desired, and
      has an empty message exactly when all desired pods exist and are Ready. */
  lemma ReportTruth(c: Cluster, active: seq<Pod>)
    requires |active| <= Desired(c)
    ensures var r := ReportOn(c, active);
            && r.status.replicas as int == |active| && r.status.readyReplicas as int == CountReady(active)
            && 0 <= r.status.readyReplicas <= r.status.replicas <= c.spec.workerPool.replicas
            && (r.message == "" <==>
                  r.status.replicas == c.spec.workerPool.replicas && r.status.readyReplicas == r.status.replicas)
  {
    var _ := NotReadyPodRecorded(active);
    NoWrap(|active|);
    NoWrap(CountReady(active));
    hide ToInt32, FormatInt, CountReady, FirstNotReady, PodNotReadyMessage, PodIsReady;
    NotEmpty(FormatInt(|active|), "/", FormatInt(Desired(c)), " desired worker pods exist");
    if FirstNotReady(active).Some? {
      NotEmpty("worker pod " + FirstNotReady(active).value.key.name, ": ",
               PodNotReadyMessage(FirstNotReady(active).value), "");
    }
  }

  lemma NotEmpty(a: string, b: string, c: string, d: string)
    requires b != ""
    ensures a + b + c + d != "" && a + b + c != ""
  {
  }

  /** Every report of a pass, whatever the listing and whichever calls fail, is about no more pods than desired. */
  lemma PassReports(fleet: Fleet, listing: seq<Pod>, c: Cluster, b: Batch, order: seq<nat>) returns (active: seq<Pod>)
    ensures var r := Resize(fleet, listing, c, b, order).result;
            r.Ok? ==> r.value == ReportOn(c, active) && |active| <= Desired(c)
  {
    hide Reduce, ReportOn, Sift, Spawn, Trim;
    var s := Sift(fleet, listing, b.hash, b.faults);
    active := [];
    if s.err.None? {
      if Desired(c) > |s.active| {
        var spawned := Spawn(s.fleet, order, b);
        var created := CreatedSlots(spawned.slots, Desired(c) - |s.active|);
        AnnounceBound(spawned.fleet, s.active, created);
        active := Announce(spawned.fleet, s.active, created).active;
      } else {
        active := s.active[|s.active| - Desired(c)..];
      }
    }
  }

  // ---------- Scaling ----------

  ghost predicate Touched(before: Pods, after: Pods, k: Key) {
    (k in before) != (k in after) || (k in before && k in after && before[k] != after[k])
  }

  /** The keys under which two stores differ. */
  ghost function Changed(before: Pods, after: Pods): set<Key> {
    set k | k in before.Keys + after.Keys && Touched(before, after, k)
  }

  /** No worker to replace and as many current ones as desired. */
  ghost predicate Settled(pods: Pods, c: Cluster, b: Batch) {
    Stale(pods, b) == {} && |Current(pods, b)| == Desired(c)
  }

  lemma GrownChanges(pods: Pods, n: nat, b: Batch)
    requires FreshNames(pods, b)
    ensures Changed(pods, pods + NewPods(Below(n), b)) == SlotKeys(Below(n), b)
    ensures |SlotKeys(Below(n), b)| == n
  {
    AddNew(pods, n, b);
  }

  lemma ReleasedChanges(pods: Pods, keys: set<Key>, b: Batch)
    requires keys <= Current(pods, b)
    ensures Changed(pods, Marked(pods, keys)) == keys
  {
  }

  /** A pass on a pool with nothing stale and `prior` current workers. */
  lemma SettledPass(pods: Pods, listing: seq<Pod>, c: Cluster, b: Batch, prior: nat)
    requires UpToDate(listing, pods, b) && FreshNames(pods, b)
    requires Stale(pods, b) == {} && |Current(pods, b)| == prior
    ensures var after := ResizedPods(pods, listing, c, b);
            if prior <= Desired(c) then after == pods + NewPods(Below(Desired(c) - prior), b)
            else after == Marked(pods, Released(listing, c, b)) && Released(listing, c, b) <= Current(pods, b)
                 && |Released(listing, c, b)| == prior - Desired(c)
  {
    hide Actives, UpToDate, Listing, Current, Stale, StaleListed, FreshNames, NewPods, Released, Keys, Marked, Below;
    UpToDateSees(pods, listing, b);
    ReleasedAreSeen(pods, listing, c, b);
    assert StaleListed(listing, b.hash) + Released(listing, c, b) == Released(listing, c, b);
    if prior <= Desired(c) {
      assert Released(listing, c, b) == {};
      MarkedNothing(pods);
    } else {
      NoNewPods(Marked(pods, Released(listing, c, b)), b);
    }
  }

  lemma MarkedNothing(pods: Pods)
    ensures Marked(pods, {}) == pods
  {
  }

  /** A fault-free pass over a settled pool, for the same template and another replica count, creates or releases
      exactly as many workers as the counts differ, and every other pod in the store is as it was. */
  lemma SettledPoolScales(fleet: Fleet, listing: seq<Pod>, c: Cluster, replicas: Replicas, b: Batch, order: seq<nat>)
    requires FaultFree(b.faults)
    requires UpToDate(listing, fleet.pods, b) && FreshNames(fleet.pods, b) && Settled(fleet.pods, c, b)
    requires Complete(order, Missing(listing, Scaled(c, replicas), b.hash))
    ensures ScaledExactly(fleet.pods, Resize(fleet, listing, Scaled(c, replicas), b, order).fleet.pods, Desired(c),
                          replicas as int, b)
    ensures Resize(fleet, listing, Scaled(c, replicas), b, order).result.Ok?
  {
    hide UpToDate, Stale, Resize, Complete, FreshNames, Changed, Current, ReportOn, ResizedPods, ResizedActive,
      NewPods, SlotKeys, Marked, Released, Missing, FaultFree;
    var scaled := Scaled(c, replicas);
    ResizeClosedForm(fleet, listing, scaled, b, order);
    SettledPass(fleet.pods, listing, scaled, b, Desired(c));
    if Desired(c) <= Desired(scaled) {
      GrownChanges(fleet.pods, Desired(scaled) - Desired(c), b);
      AddNew(fleet.pods, Desired(scaled) - Desired(c), b);
    } else {
      ReleasedChanges(fleet.pods, Released(listing, scaled, b), b);
    }
  }

  /** The stores differ in exactly as many pods as the counts: new current ones, or current ones that now terminate. */
  ghost predicate ScaledExactly(before: Pods, after: Pods, prior: nat, wanted: nat, b: Batch) {
    var changed := Changed(before, after);
    if prior <= wanted then |changed| == wanted - prior && changed !! before.Keys && changed <= Current(after, b)
    else |changed| == prior - wanted && changed <= Current(before, b) && after == Marked(before, changed)
  }

  /** Scaling frame. When only the replica count of a settled cluster changes, the worker template is the same, so the
      next fault-free pass changes exactly the difference. */
  lemma ScalingFrame(fleet: Fleet, listing: seq<Pod>, c: Cluster, replicas: Replicas, spec: PodSpec, lib: Library,
                     names: nat -> string, faults: Faults, order: seq<nat>)
    requires WorkerTemplate(c, lib) == Ok(spec) && FaultFree(faults)
    requires var b := BatchOf(c, spec, lib, names, faults);
             && UpToDate(listing, fleet.pods, b) && FreshNames(fleet.pods, b) && Settled(fleet.pods, c, b)
             && Complete(order, Missing(listing, Scaled(c, replicas), b.hash))
    ensures var scaled := Scaled(c, replicas);
            var out := WorkerPass(fleet, listing, scaled, WorkerTemplate(scaled, lib), lib, names, faults, order);
            && out.result.Ok?
            && ScaledExactly(fleet.pods, out.fleet.pods, Desired(c), replicas as int, BatchOf(c, spec, lib, names, faults))
  {
    hide WorkerTemplate, UpToDate, Settled, Resize, Complete, FreshNames, ScaledExactly, Missing;
    WorkerTemplateIgnoresReplicas(c, replicas, lib);
    SettledPoolScales(fleet, listing, c, replicas, BatchOf(c, spec, lib, names, faults), order);
  }
}
