/** The promises of one worker-pool pass: it never overshoots, a fault-free one lands on the desired count or as near
    as its listing allows, creation order does not matter, and the report is truthful. */
module WorkerPoolTheorems {
  import opened Kube
  import opened Errors
  import opened PolarsCluster
  import opened ApiServer
  import opened WorkerPool
  import opened WorkerPoolLaws

  function Desired(c: Cluster): nat {
    c.spec.workerPool.replicas as int
  }

  // ---------- The active workers as a part of the listing ----------

  /** Where the active workers stand in the listing: in order, and none is missed. */
  lemma {:induction false} ActivesAt(listing: seq<Pod>, hash: string) returns (at: seq<int>)
    ensures |at| == |Actives(listing, hash)|
    ensures forall i :: 0 <= i < |at| ==> 0 <= at[i] < |listing| && listing[at[i]] == Actives(listing, hash)[i]
    ensures forall i, j :: 0 <= i < j < |at| ==> at[i] < at[j]
    ensures forall k :: 0 <= k < |listing| && !listing[k].terminating && listing[k].labels.templateHash == hash ==> k in at
  {
    at := [];
    if listing != [] {
      var n := |listing| - 1;
      at := ActivesAt(listing[..n], hash);
      if !listing[n].terminating && listing[n].labels.templateHash == hash {
        at := at + [n];
        assert at[|at| - 1] == n;
      }
    }
  }

  lemma {:induction false} ActivesAreActive(listing: seq<Pod>, hash: string)
    ensures forall i :: 0 <= i < |Actives(listing, hash)| ==>
              !Actives(listing, hash)[i].terminating && Actives(listing, hash)[i].labels.templateHash == hash
  {
    if listing != [] {
      ActivesAreActive(listing[..|listing| - 1], hash);
    }
  }

  lemma ActivesAreCandidates(listing: seq<Pod>, pods: Pods, after: Pods, b: Batch)
    requires Listing(listing, pods, b) && OnlyPool(pods, after, b) && after.Keys == pods.Keys
    ensures Candidates(Actives(listing, b.hash), after, b)
  {
    var active := Actives(listing, b.hash);
    var at := ActivesAt(listing, b.hash);
    ActivesAreActive(listing, b.hash);
    forall i, j | 0 <= i < j < |active|
      ensures active[i].key != active[j].key
    {
      assert listing[at[i]] == active[i] && listing[at[j]] == active[j];
    }
    forall i | 0 <= i < |active|
      ensures Selected(active[i], b)
      ensures active[i].key in after ==>
                after[active[i].key].labels == active[i].labels && after[active[i].key].key == active[i].key
    {
      assert listing[at[i]] == active[i];
    }
  }

  lemma PrefixCandidates(active: seq<Pod>, k: nat, pods: Pods, b: Batch)
    requires k <= |active| && Candidates(active, pods, b)
    ensures Candidates(active[..k], pods, b) && Keys(active[..k]) <= Keys(active)
    ensures |Keys(active[..k])| == k
  {
    forall x | x in Keys(active[..k]) ensures x in Keys(active) {
      var i :| 0 <= i < k && active[..k][i].key == x;
      assert active[i].key == x;
    }
    ListedKeys(active[..k]);
  }

  /** With an up-to-date listing the active workers are exactly the current ones. */
  lemma ActivesAreCurrent(listing: seq<Pod>, pods: Pods, b: Batch)
    requires UpToDate(listing, pods, b)
    ensures Keys(Actives(listing, b.hash)) == Current(pods, b)
  {
    var active := Actives(listing, b.hash);
    var at := ActivesAt(listing, b.hash);
    ActivesAreActive(listing, b.hash);
    forall key | key in Keys(active)
      ensures key in Current(pods, b)
    {
      var i :| 0 <= i < |active| && active[i].key == key;
      assert listing[at[i]] == active[i];
    }
    forall key | key in Current(pods, b)
      ensures key in Keys(active)
    {
      var k :| 0 <= k < |listing| && listing[k].key == key;
      var i :| 0 <= i < |at| && at[i] == k;
      assert active[i].key == key;
    }
  }

  ghost function Below(n: nat): (r: set<nat>)
    ensures |r| == n && forall i: nat :: i in r <==> i < n
  {
    if n == 0 then {} else Below(n - 1) + {n - 1}
  }

  lemma ScheduleBound(order: seq<nat>, n: nat)
    requires Schedule(order, n)
    ensures |order| <= n
  {
    DistinctCardinality(order);
    Subset(Elements(order), Below(n));
  }

  // ---------- The fan-out ----------

  ghost function SomeCount(created: seq<Option<Pod>>): nat {
    if created == [] then 0
    else SomeCount(created[..|created| - 1]) + if created[|created| - 1].Some? then 1 else 0
  }

  lemma {:induction false} AnnounceCounts(fleet: Fleet, active: seq<Pod>, created: seq<Option<Pod>>)
    ensures var a := Announce(fleet, active, created);
            && a.fleet.pods == fleet.pods && a.fleet.writes == fleet.writes
            && fleet.events <= a.fleet.events
            && |a.fleet.events| == |fleet.events| + SomeCount(created)
            && (forall i :: |fleet.events| <= i < |a.fleet.events| ==> a.fleet.events[i].reason == "WorkerPodCreated")
            && active <= a.active && |a.active| == |active| + SomeCount(created)
  {
    if created != [] {
      AnnounceCounts(fleet, active, created[..|created| - 1]);
    }
  }

  lemma {:induction false} SomeCountIsFilled(slots: map<nat, Result<Pod, Error>>, n: nat)
    ensures SomeCount(CreatedSlots(slots, n)) == |set i | i in Filled(slots) && i < n|
  {
    if n > 0 {
      SomeCountIsFilled(slots, n - 1);
      var created := CreatedSlots(slots, n);
      assert created[..n - 1] == CreatedSlots(slots, n - 1);
      var below, upTo := set i | i in Filled(slots) && i < n - 1, set i | i in Filled(slots) && i < n;
      assert upTo == below + if n - 1 in Filled(slots) then {n - 1} else {};
    } else {
      assert (set i | i in Filled(slots) && i < n) == {};
    }
  }

  lemma GrowCounts(fleet: Fleet, active: seq<Pod>, lacking: nat, c: Cluster, b: Batch, order: seq<nat>)
    requires Schedule(order, lacking)
    ensures var spawned := Spawn(fleet, order, b).fleet;
            var after := Grow(fleet, active, lacking, c, b, order).fleet;
            && after.pods == spawned.pods && after.writes == spawned.writes
            && |after.events| == |spawned.events| + |Filled(Spawn(fleet, order, b).slots)|
            && spawned.events <= after.events
            && forall i :: |spawned.events| <= i < |after.events| ==> after.events[i].reason == "WorkerPodCreated"
  {
    SpawnConserves(fleet, order, b);
    var spawned := Spawn(fleet, order, b);
    AnnounceCounts(spawned.fleet, active, CreatedSlots(spawned.slots, lacking));
    SomeCountIsFilled(spawned.slots, lacking);
    FilledBelow(spawned.slots, order, lacking);
  }

  lemma FilledBelow(slots: map<nat, Result<Pod, Error>>, order: seq<nat>, lacking: nat)
    requires Schedule(order, lacking) && slots.Keys == Elements(order)
    ensures (set i | i in Filled(slots) && i < lacking) == Filled(slots)
  {
    forall i | i in Filled(slots) ensures i < lacking { assert i in Elements(order); }
  }

  /** Fan-out conservation. Any subset of the tasks may have run, in any order, with any failures: the store grew by as
      many current workers as there are filled slots, and that many WorkerPodCreated events are recorded, also when the
      pass then returns an error. */
  lemma FanOutConserves(fleet: Fleet, active: seq<Pod>, lacking: nat, c: Cluster, b: Batch, order: seq<nat>)
    requires Schedule(order, lacking)
    ensures var filled := |Filled(Spawn(fleet, order, b).slots)|;
            var after := Grow(fleet, active, lacking, c, b, order).fleet;
            && |after.pods| == |fleet.pods| + filled
            && |Current(after.pods, b)| == |Current(fleet.pods, b)| + filled
            && |after.events| == |fleet.events| + filled
            && fleet.events <= after.events
            && forall i :: |fleet.events| <= i < |after.events| ==> after.events[i].reason == "WorkerPodCreated"
  {
    SpawnConserves(fleet, order, b);
    GrowCounts(fleet, active, lacking, c, b, order);
    hide Grow, Spawn;
  }

  /** A slot holds one of a pod and an error if its task ran, and neither if not. */
  lemma SlotsExclusive(fleet: Fleet, lacking: nat, b: Batch, order: seq<nat>)
    requires Schedule(order, lacking)
    ensures var slots := Spawn(fleet, order, b).slots;
            && (forall i :: 0 <= i < lacking && i in order ==> CreatedAt(slots, i).Some? != ErrorAt(slots, i).Some?)
            && (forall i :: 0 <= i < lacking && i !in order ==> CreatedAt(slots, i).None? && ErrorAt(slots, i).None?)
  {
    SpawnConserves(fleet, order, b);
    var slots := Spawn(fleet, order, b).slots;
    forall i | 0 <= i < lacking ensures i in order <==> i in slots { assert i in order <==> i in Elements(order); }
  }

  /** The server never picks a name that is taken, nor the same name twice. */
  ghost predicate FreshNames(pods: Pods, b: Batch) {
    && (forall i: nat :: SlotKey(b, i) !in pods)
    && (forall i: nat, j: nat :: SlotKey(b, i) == SlotKey(b, j) ==> i == j)
  }

  /** The slots of `ran` whose task meets no failure. */
  ghost function Accepted(ran: set<nat>, b: Batch): set<nat> {
    set i | i in ran && b.faults(WorkerCreate(i)).None?
  }

  function SlotKey(b: Batch, slot: nat): Key {
    Key(b.namespace, b.names(slot))
  }

  ghost function SlotKeys(slots: set<nat>, b: Batch): set<Key> {
    set i | i in slots :: SlotKey(b, i)
  }

  ghost function NewPods(accepted: set<nat>, b: Batch): Pods {
    map k | k in SlotKeys(accepted, b) :: Pod(k, Labels(b.cluster, COMPONENT_WORKER, b.hash), false, [], [])
  }

  ghost function Decided(ran: set<nat>, b: Batch): map<nat, Result<Pod, Error>> {
    map i | i in ran :: var err := b.faults(WorkerCreate(i));
      if err.Some? then Failed(ClassifyAPIError("WorkerPodRejected", err.value)) else Ok(SlotPod(b, i))
  }

  /** The fan-out's outcome in closed form: a function of which tasks ran, not of when. */
  lemma {:induction false} SpawnClosedForm(fleet: Fleet, order: seq<nat>, b: Batch)
    requires FreshNames(fleet.pods, b) && Distinct(order)
    ensures Spawn(fleet, order, b).fleet.pods == fleet.pods + NewPods(Accepted(Elements(order), b), b)
    ensures Spawn(fleet, order, b).slots == Decided(Elements(order), b)
  {
    if order == [] {
      assert Elements(order) == {};
      assert fleet.pods + NewPods(Accepted({}, b), b) == fleet.pods;
    } else {
      var prior, slot := order[..|order| - 1], order[|order| - 1];
      SpawnClosedForm(fleet, prior, b);
      SpawnSnoc(fleet, order, b);
      NextSlot(fleet.pods, Elements(prior), slot, b);
      var s := Spawn(fleet, prior, b);
      assert Decided(Elements(order), b) == Decided(Elements(prior), b)[slot := SlotResult(s.fleet.pods, b, slot)];
    }
  }

  lemma SlotKeyIsNew(pods: Pods, slots: set<nat>, i: nat, b: Batch)
    requires FreshNames(pods, b) && i !in slots
    ensures SlotKey(b, i) !in SlotKeys(slots, b) && SlotKey(b, i) !in pods
    ensures SlotKey(b, i) == SlotPod(b, i).key
  {
  }

  lemma SlotKeysGrow(slots: set<nat>, i: nat, b: Batch)
    ensures SlotKeys(slots + {i}, b) == SlotKeys(slots, b) + {SlotKey(b, i)}
  {
  }

  lemma NextSlot(pods: Pods, ran: set<nat>, slot: nat, b: Batch)
    requires FreshNames(pods, b) && slot !in ran
    ensures var before := pods + NewPods(Accepted(ran, b), b);
            && SlotPod(b, slot).key !in before
            && pods + NewPods(Accepted(ran + {slot}, b), b) ==
               if b.faults(WorkerCreate(slot)).None? then before[SlotPod(b, slot).key := SlotPod(b, slot)] else before
  {
    hide FreshNames;
    var pod := SlotPod(b, slot);
    SlotKeyIsNew(pods, Accepted(ran, b), slot, b);
    assert Accepted(ran + {slot}, b) == Accepted(ran, b) + Accepted({slot}, b);
    if b.faults(WorkerCreate(slot)).None? {
      assert Accepted({slot}, b) == {slot};
      SlotKeysGrow(Accepted(ran, b), slot, b);
      assert NewPods(Accepted(ran, b) + {slot}, b) == NewPods(Accepted(ran, b), b)[pod.key := pod];
    } else {
      assert Accepted({slot}, b) == {};
    }
  }

  /** Confluence. Two runs of the fan-out that executed the same tasks leave the same pods, the same events in the same
      order, and the same report or error, whatever the order in which the calls reached the server. */
  lemma FanOutConfluence(fleet: Fleet, active: seq<Pod>, lacking: nat, c: Cluster, b: Batch,
                         order: seq<nat>, other: seq<nat>)
    requires FreshNames(fleet.pods, b) && Distinct(order) && Distinct(other) && Elements(order) == Elements(other)
    ensures var x, y := Grow(fleet, active, lacking, c, b, order), Grow(fleet, active, lacking, c, b, other);
            x.fleet.pods == y.fleet.pods && x.fleet.events == y.fleet.events && x.result == y.result
  {
    SpawnClosedForm(fleet, order, b);
    SpawnClosedForm(fleet, other, b);
    SpawnConserves(fleet, order, b);
    SpawnConserves(fleet, other, b);
    var x, y := Spawn(fleet, order, b), Spawn(fleet, other, b);
    AnnounceAgrees(x.fleet, y.fleet, active, CreatedSlots(x.slots, lacking));
  }

  lemma {:induction false} AnnounceAgrees(x: Fleet, y: Fleet, active: seq<Pod>, created: seq<Option<Pod>>)
    requires x.pods == y.pods && x.events == y.events
    ensures var f, g := Announce(x, active, created), Announce(y, active, created);
            f.active == g.active && f.fleet.pods == g.fleet.pods && f.fleet.events == g.fleet.events
  {
    if created != [] {
      AnnounceAgrees(x, y, active, created[..|created| - 1]);
    }
  }

  // ---------- No overshoot ----------

  lemma GrowAdvances(fleet: Fleet, active: seq<Pod>, lacking: nat, c: Cluster, b: Batch, order: seq<nat>, desired: int)
    requires Schedule(order, lacking) && |Current(fleet.pods, b)| + lacking <= desired
    ensures Advances(fleet, Grow(fleet, active, lacking, c, b, order).fleet, b, desired)
  {
    ScheduleBound(order, lacking);
    SpawnToward(fleet, order, b, desired);
    GrowCounts(fleet, active, lacking, c, b, order);
    hide Grow, Spawn;
  }

  lemma ShrinkAdvances(fleet: Fleet, active: seq<Pod>, surplus: nat, c: Cluster, b: Batch, desired: int)
    requires surplus <= |active| && Candidates(active, fleet.pods, b)
    requires Keys(active) <= Current(fleet.pods, b) && |Current(fleet.pods, b)| >= desired + surplus
    ensures Advances(fleet, Shrink(fleet, active, surplus, c, b.faults).fleet, b, desired)
  {
    PrefixCandidates(active, surplus, fleet.pods, b);
    TrimToward(fleet, active[..surplus], b, desired);
  }

  /** What the sifting hands on when the listing is up to date: all the current workers, all of them still live. */
  lemma SiftHandsOn(fleet: Fleet, listing: seq<Pod>, b: Batch)
    requires UpToDate(listing, fleet.pods, b) && Sift(fleet, listing, b.hash, b.faults).err.None?
    ensures var s := Sift(fleet, listing, b.hash, b.faults);
            && Candidates(s.active, s.fleet.pods, b)
            && Keys(s.active) == Current(s.fleet.pods, b) == Current(fleet.pods, b)
            && |s.active| == |Current(s.fleet.pods, b)|
            && s.active == Actives(listing, b.hash)
  {
    var s := Sift(fleet, listing, b.hash, b.faults);
    SiftEffect(fleet, listing, b, 0);
    ActivesAreCandidates(listing, fleet.pods, s.fleet.pods, b);
    ActivesAreCurrent(listing, fleet.pods, b);
    ListedKeys(s.active);
  }

  /** Whatever calls fail and whenever the fan-out is cancelled, every write of a pass with an up-to-date listing moves
      the number of current workers toward the desired count and none moves it past. */
  lemma NoOvershoot(fleet: Fleet, listing: seq<Pod>, c: Cluster, b: Batch, order: seq<nat>)
    requires UpToDate(listing, fleet.pods, b) && Schedule(order, Missing(listing, c, b.hash))
    ensures Advances(fleet, Resize(fleet, listing, c, b, order).fleet, b, Desired(c))
  {
    hide Grow, Shrink, Sift, Advances, Listing, OnlyPool, AllToward, Candidates, Current, Schedule, Actives;
    var s := Sift(fleet, listing, b.hash, b.faults);
    SiftEffect(fleet, listing, b, Desired(c));
    if s.err.None? {
      SiftHandsOn(fleet, listing, b);
      if Desired(c) > |s.active| {
        GrowAdvances(s.fleet, s.active, Desired(c) - |s.active|, c, b, order, Desired(c));
      } else {
        ShrinkAdvances(s.fleet, s.active, |s.active| - Desired(c), c, b, Desired(c));
      }
      AdvancesTransitive(fleet, s.fleet, Resize(fleet, listing, c, b, order).fleet, b, Desired(c));
    }
  }
}
