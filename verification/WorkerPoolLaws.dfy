/** What one pass over the worker pool does to the stored pods: whatever the listing shows, whichever calls fail, and
    in whatever order the creation tasks run. */
module WorkerPoolLaws {
  import opened Kube
  import opened Errors
  import opened PolarsCluster
  import opened ApiServer
  import opened WorkerPool

  // ---------- The pods of one pool ----------

  /** The pods the list call selects: the cluster's workers in its namespace. */
  predicate Selected(pod: Pod, b: Batch) {
    pod.key.namespace == b.namespace && pod.labels.cluster == b.cluster && pod.labels.component == COMPONENT_WORKER
  }

  predicate IsCurrent(pod: Pod, b: Batch) {
    Selected(pod, b) && !pod.terminating && pod.labels.templateHash == b.hash
  }

  predicate IsStale(pod: Pod, b: Batch) {
    Selected(pod, b) && !pod.terminating && pod.labels.templateHash != b.hash
  }

  /** The live workers of the current template. */
  ghost function Current(pods: Pods, b: Batch): set<Key> {
    set k | k in pods && IsCurrent(pods[k], b)
  }

  /** The live workers of an older template. */
  ghost function Stale(pods: Pods, b: Batch): set<Key> {
    set k | k in pods && IsStale(pods[k], b)
  }

  ghost function Keys(listing: seq<Pod>): set<Key> {
    set i | 0 <= i < |listing| :: listing[i].key
  }

  /** A possibly out-of-date list result: distinct selected pods. Names are never reused and labels never change, so a
      listed pod that still exists has the labels it was listed with. */
  ghost predicate Listing(listing: seq<Pod>, pods: Pods, b: Batch) {
    && (forall i, j :: 0 <= i < j < |listing| ==> listing[i].key != listing[j].key)
    && (forall i :: 0 <= i < |listing| ==> Selected(listing[i], b))
    && (forall i :: 0 <= i < |listing| && listing[i].key in pods ==>
          pods[listing[i].key].labels == listing[i].labels && pods[listing[i].key].key == listing[i].key)
  }

  /** A list result that shows exactly the selected pods as they are stored. */
  ghost predicate UpToDate(listing: seq<Pod>, pods: Pods, b: Batch) {
    && Listing(listing, pods, b)
    && (forall i :: 0 <= i < |listing| ==> listing[i].key in pods && pods[listing[i].key] == listing[i])
    && (forall k :: k in pods && Selected(pods[k], b) ==> k in Keys(listing))
  }

  /** `after` differs from `before` only in pods of this pool: some began to terminate, some are new. */
  ghost predicate OnlyPool(before: Pods, after: Pods, b: Batch) {
    && (forall k :: k in before ==> k in after)
    && (forall k :: k in before && after[k] != before[k] ==>
          Selected(before[k], b) && after[k] == before[k].(terminating := true))
    && (forall k :: k in after && k !in before ==> Selected(after[k], b))
  }

  /** What a write may do to the number of current workers: a creation adds one and stays within the desired count, a
      scale-down removes one and leaves at least that many, a replacement does not touch them. */
  ghost predicate Toward(w: PodWrite, b: Batch, desired: int) {
    match w.kind
    case CreateWorker => |Current(w.after, b)| == |Current(w.before, b)| + 1 <= desired
    case ScaleDown => |Current(w.after, b)| == |Current(w.before, b)| - 1 >= desired
    case ReplaceWorker => Current(w.after, b) == Current(w.before, b)
    case _ => false
  }

  /** The writes from `start` on all satisfy Toward. */
  ghost predicate AllToward(writes: seq<PodWrite>, start: nat, b: Batch, desired: int) {
    forall i :: start <= i < |writes| ==> Toward(writes[i], b, desired)
  }

  /** `after` follows `before` by writes that all satisfy Toward. */
  ghost predicate Advances(before: Fleet, after: Fleet, b: Batch, desired: int) {
    && OnlyPool(before.pods, after.pods, b)
    && before.writes <= after.writes
    && AllToward(after.writes, |before.writes|, b, desired)
  }

  lemma AdvancesTransitive(f: Fleet, g: Fleet, h: Fleet, b: Batch, desired: int)
    requires Advances(f, g, b, desired) && Advances(g, h, b, desired)
    ensures Advances(f, h, b, desired)
  {
    OnlyPoolTransitive(f.pods, g.pods, h.pods, b);
    forall i | |f.writes| <= i < |h.writes|
      ensures Toward(h.writes[i], b, desired)
    {
      if i < |g.writes| { assert h.writes[i] == g.writes[i]; }
    }
  }

  // ---------- One write ----------

  lemma DeleteEffect(fleet: Fleet, key: Key, kind: WriteKind, b: Batch)
    ensures var after := DeleteFrom(fleet, key, kind, b.faults);
            && Current(after.pods, b) <= Current(fleet.pods, b)
            && Current(fleet.pods, b) - {key} <= Current(after.pods, b)
            && (DeleteError(fleet.pods, key, b.faults).None? ==> key !in Current(after.pods, b))
            && (key in fleet.pods && Selected(fleet.pods[key], b) ==> OnlyPool(fleet.pods, after.pods, b))
            && (key !in fleet.pods ==> after == fleet)
  {
  }

  lemma CreateEffect(fleet: Fleet, slot: nat, b: Batch)
    ensures var pod := SlotPod(b, slot);
            var after := CreateIn(fleet, pod, CreateWorker, WorkerCreate(slot), b.faults);
            && OnlyPool(fleet.pods, after.pods, b)
            && (SlotResult(fleet.pods, b, slot).Ok? ==>
                  pod.key !in fleet.pods && after.pods == fleet.pods[pod.key := pod]
                  && Current(after.pods, b) == Current(fleet.pods, b) + {pod.key})
            && (SlotResult(fleet.pods, b, slot).Failed? ==> after == fleet)
  {
  }

  lemma OnlyPoolTransitive(p: Pods, q: Pods, r: Pods, b: Batch)
    requires OnlyPool(p, q, b) && OnlyPool(q, r, b)
    ensures OnlyPool(p, r, b)
  {
  }

  // ---------- Deleting stale workers ----------

  lemma SiftOneEffect(s: Sifted, pod: Pod, b: Batch, desired: int)
    requires Selected(pod, b) && s.err.None?
    requires pod.key in s.fleet.pods ==> s.fleet.pods[pod.key].labels == pod.labels && s.fleet.pods[pod.key].key == pod.key
    ensures var t := SiftOne(s, pod, b.hash, b.faults);
            && Advances(s.fleet, t.fleet, b, desired)
            && Current(t.fleet.pods, b) == Current(s.fleet.pods, b)
            && t.fleet.pods.Keys == s.fleet.pods.Keys
  {
    DeleteEffect(s.fleet, pod.key, ReplaceWorker, b);
    var after := DeleteFrom(s.fleet, pod.key, ReplaceWorker, b.faults);
    if !pod.terminating && pod.labels.templateHash != b.hash {
      assert Current(after.pods, b) == Current(s.fleet.pods, b);
    }
  }

  /** Replacing stale workers never touches a current one. */
  lemma {:induction false} SiftEffect(fleet: Fleet, listing: seq<Pod>, b: Batch, desired: int)
    requires Listing(listing, fleet.pods, b)
    ensures var s := Sift(fleet, listing, b.hash, b.faults);
            && Advances(fleet, s.fleet, b, desired)
            && Current(s.fleet.pods, b) == Current(fleet.pods, b)
            && s.fleet.pods.Keys == fleet.pods.Keys
            && (s.err.None? ==> s.active == Actives(listing, b.hash))
  {
    if listing != [] {
      var n := |listing| - 1;
      SiftEffect(fleet, listing[..n], b, desired);
      var s := Sift(fleet, listing[..n], b.hash, b.faults);
      if s.err.None? {
        SiftOneEffect(s, listing[n], b, desired);
        AdvancesTransitive(fleet, s.fleet, SiftOne(s, listing[n], b.hash, b.faults).fleet, b, desired);
      }
    }
  }

  // ---------- Deleting surplus workers ----------

  /** Workers taken from a listing, of the current template. */
  ghost predicate Candidates(surplus: seq<Pod>, pods: Pods, b: Batch) {
    Listing(surplus, pods, b) && forall i :: 0 <= i < |surplus| ==> surplus[i].labels.templateHash == b.hash
  }

  lemma KeysSnoc(listing: seq<Pod>)
    requires listing != []
    ensures Keys(listing) == Keys(listing[..|listing| - 1]) + {listing[|listing| - 1].key}
  {
    var n := |listing| - 1;
    forall k | k in Keys(listing)
      ensures k in Keys(listing[..n]) + {listing[n].key}
    {
      var i :| 0 <= i < |listing| && listing[i].key == k;
      if i < n { assert listing[..n][i].key == k; }
    }
    forall k | k in Keys(listing[..n])
      ensures k in Keys(listing)
    {
      var i :| 0 <= i < n && listing[..n][i].key == k;
      assert listing[i].key == k;
    }
  }

  /** `after` lacks at most the given keys among the current workers of `before`, and every other pod is as it was. */
  ghost predicate Trims(before: Pods, after: Pods, keys: set<Key>, b: Batch) {
    && OnlyPool(before, after, b)
    && (forall k :: k in before && k !in keys ==> after[k] == before[k])
    && Current(before, b) - keys <= Current(after, b) <= Current(before, b)
  }

  lemma TrimsTransitive(p: Pods, q: Pods, r: Pods, keys: set<Key>, more: set<Key>, b: Batch)
    requires Trims(p, q, keys, b) && Trims(q, r, more, b)
    ensures Trims(p, r, keys + more, b)
  {
    OnlyPoolTransitive(p, q, r, b);
  }

  lemma CandidatesSnoc(surplus: seq<Pod>, pods: Pods, after: Pods, b: Batch)
    requires surplus != [] && Candidates(surplus, pods, b) && OnlyPool(pods, after, b) && after.Keys == pods.Keys
    ensures Candidates(surplus[..|surplus| - 1], pods, b)
    ensures var key := surplus[|surplus| - 1].key; key in after ==> Selected(after[key], b)
  {
  }

  /** Scaling down makes at most the given workers terminate and leaves every other pod as it was. */
  lemma {:induction false} TrimEffect(fleet: Fleet, surplus: seq<Pod>, b: Batch)
    requires Candidates(surplus, fleet.pods, b)
    ensures var t := Trim(fleet, surplus, b.faults);
            Trims(fleet.pods, t.fleet.pods, Keys(surplus), b) && t.fleet.pods.Keys == fleet.pods.Keys
  {
    if surplus != [] {
      var n := |surplus| - 1;
      CandidatesSnoc(surplus, fleet.pods, fleet.pods, b);
      TrimEffect(fleet, surplus[..n], b);
      KeysSnoc(surplus);
      var s := Trim(fleet, surplus[..n], b.faults);
      if s.err.None? {
        CandidatesSnoc(surplus, fleet.pods, s.fleet.pods, b);
        TrimOneEffect(s, surplus[n], b);
        TrimsTransitive(fleet.pods, s.fleet.pods, TrimOne(s, surplus[n], b.faults).fleet.pods,
                        Keys(surplus[..n]), {surplus[n].key}, b);
      }
    }
  }

  lemma TrimOneEffect(s: Trimmed, pod: Pod, b: Batch)
    requires s.err.None? && (pod.key in s.fleet.pods ==> Selected(s.fleet.pods[pod.key], b))
    ensures var t := TrimOne(s, pod, b.faults);
            Trims(s.fleet.pods, t.fleet.pods, {pod.key}, b) && t.fleet.pods.Keys == s.fleet.pods.Keys
  {
    DeleteEffect(s.fleet, pod.key, ScaleDown, b);
  }

  /** When the workers are all live and enough others remain, every effective deletion moves toward the target. */
  lemma {:induction false} TrimToward(fleet: Fleet, surplus: seq<Pod>, b: Batch, desired: int)
    requires Candidates(surplus, fleet.pods, b)
    requires Keys(surplus) <= Current(fleet.pods, b) && |Current(fleet.pods, b)| >= desired + |surplus|
    ensures Advances(fleet, Trim(fleet, surplus, b.faults).fleet, b, desired)
  {
    if surplus != [] {
      var n := |surplus| - 1;
      CandidatesSnoc(surplus, fleet.pods, fleet.pods, b);
      KeysSnoc(surplus);
      TrimToward(fleet, surplus[..n], b, desired);
      var s := Trim(fleet, surplus[..n], b.faults);
      if s.err.None? {
        StillCurrent(fleet, surplus, s.fleet, b, desired);
        TrimOneToward(s, surplus[n], b, desired);
        AdvancesTransitive(fleet, s.fleet, TrimOne(s, surplus[n], b.faults).fleet, b, desired);
      }
    }
  }

  lemma StillCurrent(fleet: Fleet, surplus: seq<Pod>, after: Fleet, b: Batch, desired: int)
    requires surplus != [] && Candidates(surplus, fleet.pods, b)
    requires Keys(surplus) <= Current(fleet.pods, b) && |Current(fleet.pods, b)| >= desired + |surplus|
    requires after == Trim(fleet, surplus[..|surplus| - 1], b.faults).fleet
    ensures surplus[|surplus| - 1].key in Current(after.pods, b) && |Current(after.pods, b)| > desired
  {
    var prior := surplus[..|surplus| - 1];
    CandidatesSnoc(surplus, fleet.pods, fleet.pods, b);
    TrimEffect(fleet, prior, b);
    KeysSnoc(surplus);
    ListedKeys(prior);
    ListedKeyIsLast(surplus);
    RemovalBound(Current(fleet.pods, b), Keys(prior), Current(after.pods, b));
  }

  lemma RemovalBound<T>(all: set<T>, removed: set<T>, left: set<T>)
    requires all - removed <= left
    ensures |left| >= |all| - |removed|
  {
    Subset(all - removed, left);
    Subset(all * removed, removed);
    assert all == (all - removed) + (all * removed);
  }

  lemma {:induction false} Subset<T>(small: set<T>, large: set<T>)
    requires small <= large
    ensures |small| <= |large|
    decreases large
  {
    if small != {} {
      var x :| x in small;
      Subset(small - {x}, large - {x});
    }
  }

  lemma {:induction false} ListedKeys(listing: seq<Pod>)
    requires forall i, j :: 0 <= i < j < |listing| ==> listing[i].key != listing[j].key
    ensures |Keys(listing)| == |listing|
  {
    if listing != [] {
      ListedKeys(listing[..|listing| - 1]);
      KeysSnoc(listing);
      ListedKeyIsLast(listing);
    }
  }

  lemma ListedKeyIsLast(listing: seq<Pod>)
    requires listing != []
    requires forall i, j :: 0 <= i < j < |listing| ==> listing[i].key != listing[j].key
    ensures listing[|listing| - 1].key !in Keys(listing[..|listing| - 1])
  {
  }

  lemma TrimOneToward(s: Trimmed, pod: Pod, b: Batch, desired: int)
    requires s.err.None? && pod.key in Current(s.fleet.pods, b) && |Current(s.fleet.pods, b)| > desired
    ensures Advances(s.fleet, TrimOne(s, pod, b.faults).fleet, b, desired)
  {
    DeleteEffect(s.fleet, pod.key, ScaleDown, b);
    var after := DeleteFrom(s.fleet, pod.key, ScaleDown, b.faults);
    if after != s.fleet {
      assert Current(after.pods, b) == Current(s.fleet.pods, b) - {pod.key};
    }
  }

  // ---------- Creating missing workers ----------

  /** The slots whose task created a pod. */
  ghost function Filled(slots: map<nat, Result<Pod, Error>>): set<nat> {
    set i | i in slots && slots[i].Ok?
  }

  lemma SpawnSnoc(fleet: Fleet, order: seq<nat>, b: Batch)
    requires Distinct(order) && order != []
    ensures var s, slot := Spawn(fleet, order[..|order| - 1], b), order[|order| - 1];
            slot !in Elements(order[..|order| - 1]) && Elements(order) == Elements(order[..|order| - 1]) + {slot}
  {
  }

  /** Conservation. For any execution order, any subset of tasks and any failures: a task that ran has a result, one
      that did not has none, and the store grew by exactly one current worker per filled slot. */
  lemma {:induction false} SpawnConserves(fleet: Fleet, order: seq<nat>, b: Batch)
    requires Distinct(order)
    ensures var s := Spawn(fleet, order, b);
            && s.slots.Keys == Elements(order)
            && OnlyPool(fleet.pods, s.fleet.pods, b)
            && Current(fleet.pods, b) <= Current(s.fleet.pods, b)
            && |Current(s.fleet.pods, b)| == |Current(fleet.pods, b)| + |Filled(s.slots)|
            && |s.fleet.pods| == |fleet.pods| + |Filled(s.slots)|
            && s.fleet.events == fleet.events
            && |Filled(s.slots)| <= |order|
  {
    if order != [] {
      var prior, slot := order[..|order| - 1], order[|order| - 1];
      SpawnConserves(fleet, prior, b);
      SpawnSnoc(fleet, order, b);
      var s := Spawn(fleet, prior, b);
      SpawnOneConserves(s, slot, b);
      OnlyPoolTransitive(fleet.pods, s.fleet.pods, Spawn(fleet, order, b).fleet.pods, b);
    }
  }

  lemma SpawnOneConserves(s: Spawned, slot: nat, b: Batch)
    requires slot !in s.slots
    ensures var after := CreateIn(s.fleet, SlotPod(b, slot), CreateWorker, WorkerCreate(slot), b.faults);
            var r := SlotResult(s.fleet.pods, b, slot);
            var added := if r.Ok? then 1 else 0;
            && OnlyPool(s.fleet.pods, after.pods, b)
            && Current(s.fleet.pods, b) <= Current(after.pods, b)
            && |Current(after.pods, b)| == |Current(s.fleet.pods, b)| + added
            && |after.pods| == |s.fleet.pods| + added
            && after.events == s.fleet.events
            && |Filled(s.slots[slot := r])| == |Filled(s.slots)| + added
  {
    CreateEffect(s.fleet, slot, b);
    var r := SlotResult(s.fleet.pods, b, slot);
    FilledGrows(s.slots, slot, r);
    if r.Ok? {
      AddedKey(s.fleet.pods, SlotPod(b, slot).key, SlotPod(b, slot));
    }
  }

  lemma FilledGrows(slots: map<nat, Result<Pod, Error>>, slot: nat, r: Result<Pod, Error>)
    requires slot !in slots
    ensures |Filled(slots[slot := r])| == |Filled(slots)| + if r.Ok? then 1 else 0
  {
    assert Filled(slots[slot := r]) == Filled(slots) + if r.Ok? then {slot} else {};
  }

  lemma AddedKey(pods: Pods, key: Key, pod: Pod)
    requires key !in pods
    ensures |pods[key := pod]| == |pods| + 1
  {
    assert pods[key := pod].Keys == pods.Keys + {key};
  }

  lemma {:induction false} SpawnToward(fleet: Fleet, order: seq<nat>, b: Batch, desired: int)
    requires Distinct(order) && |Current(fleet.pods, b)| + |order| <= desired
    ensures Advances(fleet, Spawn(fleet, order, b).fleet, b, desired)
  {
    if order != [] {
      var prior, slot := order[..|order| - 1], order[|order| - 1];
      SpawnToward(fleet, prior, b, desired);
      SpawnConserves(fleet, prior, b);
      var s := Spawn(fleet, prior, b);
      SpawnOneToward(s.fleet, slot, b, desired);
      AdvancesTransitive(fleet, s.fleet, Spawn(fleet, order, b).fleet, b, desired);
    }
  }

  lemma SpawnOneToward(fleet: Fleet, slot: nat, b: Batch, desired: int)
    requires |Current(fleet.pods, b)| < desired
    ensures Advances(fleet, CreateIn(fleet, SlotPod(b, slot), CreateWorker, WorkerCreate(slot), b.faults), b, desired)
  {
    CreateEffect(fleet, slot, b);
  }

  // ---------- What is announced ----------

  /** The listed workers that are live and of an older template, in listing order. */
  function StalePods(listing: seq<Pod>, hash: string): seq<Pod> {
    if listing == [] then []
    else
      var n := |listing| - 1;
      var earlier := StalePods(listing[..n], hash);
      if !listing[n].terminating && listing[n].labels.templateHash != hash then earlier + [listing[n]] else earlier
  }

  function Recreations(pods: seq<Pod>): seq<Event> {
    seq(|pods|, i requires 0 <= i < |pods| => Recreating(pods[i]))
  }

  /** Exactly the deletions of these workers were announced, in order, and every write is one of them. */
  ghost predicate Recreated(before: Fleet, after: Fleet, stale: seq<Pod>) {
    && after.events == before.events + Recreations(stale)
    && before.writes <= after.writes && |after.writes| - |before.writes| <= |stale|
    && forall i :: |before.writes| <= i < |after.writes| ==>
         after.writes[i].kind == ReplaceWorker && after.writes[i].key in Keys(stale)
  }

  /** Replacing stale workers announces, in order, every stale live worker listed before the first failed deletion, also
      one that turns out to be gone already, for which nothing is written. */
  lemma {:induction false} SiftAnnounces(fleet: Fleet, listing: seq<Pod>, hash: string, faults: Faults) returns (k: nat)
    ensures k <= |listing| && (Sift(fleet, listing, hash, faults).err.None? <==> k == |listing|)
    ensures Recreated(fleet, Sift(fleet, listing, hash, faults).fleet, StalePods(listing[..k], hash))
  {
    hide SiftOne;
    k := |listing|;
    if listing != [] {
      var n := |listing| - 1;
      k := SiftAnnounces(fleet, listing[..n], hash, faults);
      var s := Sift(fleet, listing[..n], hash, faults);
      assert listing[..n][..k] == listing[..k];
      if s.err.None? {
        hide Recreated;
        SiftOneAnnounces(s, listing[n], StalePods(listing[..n], hash), fleet, hash, faults);
        if SiftOne(s, listing[n], hash, faults).err.None? {
          k := |listing|;
          assert listing[..k] == listing;
        }
      }
    }
  }

  lemma SiftOneAnnounces(s: Sifted, pod: Pod, stale: seq<Pod>, fleet: Fleet, hash: string, faults: Faults)
    requires s.err.None? && Recreated(fleet, s.fleet, stale)
    ensures var t := SiftOne(s, pod, hash, faults);
            if t.err.Some? then t.fleet == s.fleet
            else Recreated(fleet, t.fleet,
                           if !pod.terminating && pod.labels.templateHash != hash then stale + [pod] else stale)
  {
    hide IsNotFound, Keys;
    KeysSnoc(stale + [pod]);
    assert (stale + [pod])[..|stale|] == stale;
    assert Recreations(stale + [pod]) == Recreations(stale) + [Recreating(pod)];
  }

  /** The event for a scale-down write. */
  function DeletionOf(w: PodWrite): Event {
    Event(Normal, "WorkerPodDeleted", "Deleted worker pod " + w.key.name)
  }

  function DeletionsOf(writes: seq<PodWrite>): seq<Event> {
    seq(|writes|, i requires 0 <= i < |writes| => DeletionOf(writes[i]))
  }

  /** Scaling down announces, in order, exactly the deletions the server accepted, and each is of one of the given
      workers. */
  lemma {:induction false} TrimAnnounces(fleet: Fleet, surplus: seq<Pod>, faults: Faults)
    ensures var t := Trim(fleet, surplus, faults);
            && fleet.writes <= t.fleet.writes
            && t.fleet.events == fleet.events + DeletionsOf(t.fleet.writes[|fleet.writes|..])
            && forall i :: |fleet.writes| <= i < |t.fleet.writes| ==>
                 t.fleet.writes[i].kind == ScaleDown && t.fleet.writes[i].key in Keys(surplus)
  {
    if surplus != [] {
      var n := |surplus| - 1;
      TrimAnnounces(fleet, surplus[..n], faults);
      KeysSnoc(surplus);
      var s := Trim(fleet, surplus[..n], faults);
      if s.err.None? {
        TrimOneAnnounces(fleet.writes, s, surplus[n], faults);
      }
    }
  }

  lemma TrimOneAnnounces(before: seq<PodWrite>, s: Trimmed, pod: Pod, faults: Faults)
    requires before <= s.fleet.writes
    ensures var t := TrimOne(s, pod, faults);
            var was, now := DeletionsOf(s.fleet.writes[|before|..]), DeletionsOf(t.fleet.writes[|before|..]);
            || (t.fleet == s.fleet)
            || (t.fleet.events == s.fleet.events + [ScaledDown(pod)] && now == was + [ScaledDown(pod)]
                && |t.fleet.writes| == |s.fleet.writes| + 1 && s.fleet.writes <= t.fleet.writes
                && t.fleet.writes[|s.fleet.writes|].kind == ScaleDown && t.fleet.writes[|s.fleet.writes|].key == pod.key)
  {
    var t := TrimOne(s, pod, faults);
    if t.fleet != s.fleet {
      assert t.fleet.writes[|before|..] == s.fleet.writes[|before|..] + [t.fleet.writes[|s.fleet.writes|]];
    }
  }
}
