/** When the worker stage may succeed, what it fails with, and that the report of a stage that succeeds is true of the
    stored pods, whatever calls fail. */
module PoolOutcomes {
  import opened Kube
  import opened Errors
  import opened PolarsCluster
  import opened ApiServer
  import opened Readiness
  import opened WorkerPool
  import opened WorkerPoolLaws
  import opened WorkerPoolTheorems
  import opened WorkerPoolReports
  import opened ListingOrder
  import SchedulerLaws

  // ---------- Deletions ----------

  /** Deleting this pod fails, and not because it is gone. */
  predicate Refuses(faults: Faults, key: Key) {
    faults(PodDelete(key)).Some? && !IsNotFound(faults(PodDelete(key)).value)
  }

  /** No deletion of these pods reports that a pod is gone which is there. */
  ghost predicate NoFalseNotFound(listing: seq<Pod>, pods: Pods, faults: Faults) {
    forall j :: 0 <= j < |listing| && listing[j].key in pods && faults(PodDelete(listing[j].key)).Some? ==>
      Refuses(faults, listing[j].key)
  }

  /** Gone, or on its way out. */
  predicate Ended(pods: Pods, key: Key) {
    key in pods ==> pods[key].terminating
  }

  ghost predicate AllEnded(listing: seq<Pod>, pods: Pods) {
    forall j :: 0 <= j < |listing| ==> Ended(pods, listing[j].key)
  }

  /** The names stay, and what ended stays ended. */
  ghost predicate OnlyEnds(before: Pods, after: Pods) {
    before.Keys == after.Keys && forall k :: Ended(before, k) ==> Ended(after, k)
  }

  lemma DeleteOutcome(fleet: Fleet, key: Key, kind: WriteKind, faults: Faults)
    ensures var err := DeleteError(fleet.pods, key, faults);
            && (Refuses(faults, key) ==> err == faults(PodDelete(key)))
            && (!Refuses(faults, key) ==> err.None? || IsNotFound(err.value))
            && OnlyEnds(fleet.pods, DeleteFrom(fleet, key, kind, faults).pods)
            && (err.None? ==> Ended(DeleteFrom(fleet, key, kind, faults).pods, key))
  {
  }

  /** The first refusal among the deletions is what scaling down fails with; without one it succeeds. */
  lemma {:induction false} TrimFailsWithFirst(fleet: Fleet, surplus: seq<Pod>, faults: Faults) returns (k: nat)
    ensures k <= |surplus| && forall j :: 0 <= j < k ==> !Refuses(faults, surplus[j].key)
    ensures k < |surplus| ==> Refuses(faults, surplus[k].key)
    ensures Trim(fleet, surplus, faults).err == if k < |surplus| then faults(PodDelete(surplus[k].key)) else None
  {
    hide IsNotFound, DeleteFrom, DeleteError;
    k := 0;
    if surplus != [] {
      var n := |surplus| - 1;
      k := TrimFailsWithFirst(fleet, surplus[..n], faults);
      DeleteOutcome(Trim(fleet, surplus[..n], faults).fleet, surplus[n].key, ScaleDown, faults);
      if k == n && !Refuses(faults, surplus[n].key) { k := n + 1; }
    }
  }

  /** When scaling down succeeds, none of the given workers is left live. */
  lemma {:induction false} TrimEndsAll(fleet: Fleet, surplus: seq<Pod>, faults: Faults)
    requires NoFalseNotFound(surplus, fleet.pods, faults)
    ensures var t := Trim(fleet, surplus, faults);
            && OnlyEnds(fleet.pods, t.fleet.pods)
            && (t.err.None? ==> AllEnded(surplus, t.fleet.pods))
  {
    hide IsNotFound, DeleteFrom;
    if surplus != [] {
      var n := |surplus| - 1;
      assert forall j :: 0 <= j < n ==> surplus[..n][j] == surplus[j];
      TrimEndsAll(fleet, surplus[..n], faults);
      DeleteOutcome(Trim(fleet, surplus[..n], faults).fleet, surplus[n].key, ScaleDown, faults);
    }
  }

  /** The first refusal among the deletions of stale workers is what replacing them fails with. */
  lemma {:induction false} SiftFailsWithFirst(fleet: Fleet, listing: seq<Pod>, hash: string, faults: Faults)
    returns (k: nat)
    ensures k <= |listing|
    ensures forall j :: 0 <= j < k && SchedulerLaws.Outdated(listing[j], hash) ==> !Refuses(faults, listing[j].key)
    ensures k < |listing| ==> SchedulerLaws.Outdated(listing[k], hash) && Refuses(faults, listing[k].key)
    ensures Sift(fleet, listing, hash, faults).err == if k < |listing| then faults(PodDelete(listing[k].key)) else None
  {
    hide IsNotFound, DeleteFrom, DeleteError;
    k := 0;
    if listing != [] {
      var n := |listing| - 1;
      k := SiftFailsWithFirst(fleet, listing[..n], hash, faults);
      DeleteOutcome(Sift(fleet, listing[..n], hash, faults).fleet, listing[n].key, ReplaceWorker, faults);
      if k == n && !(SchedulerLaws.Outdated(listing[n], hash) && Refuses(faults, listing[n].key)) { k := n + 1; }
    }
  }

  ghost predicate StaleEnded(listing: seq<Pod>, hash: string, pods: Pods) {
    forall j :: 0 <= j < |listing| && SchedulerLaws.Outdated(listing[j], hash) ==> Ended(pods, listing[j].key)
  }

  /** When it succeeds, no stale worker listed is left live. */
  lemma {:induction false} SiftEndsStale(fleet: Fleet, listing: seq<Pod>, hash: string, faults: Faults)
    requires NoFalseNotFound(listing, fleet.pods, faults)
    ensures var s := Sift(fleet, listing, hash, faults);
            && OnlyEnds(fleet.pods, s.fleet.pods)
            && (s.err.None? ==> StaleEnded(listing, hash, s.fleet.pods))
  {
    hide IsNotFound, DeleteFrom;
    if listing != [] {
      var n := |listing| - 1;
      assert forall j :: 0 <= j < n ==> listing[..n][j] == listing[j];
      SiftEndsStale(fleet, listing[..n], hash, faults);
      DeleteOutcome(Sift(fleet, listing[..n], hash, faults).fleet, listing[n].key, ReplaceWorker, faults);
    }
  }

  // ---------- The outcome of the stage ----------

  /** A stale worker whose deletion is refused. */
  ghost predicate StaleRefused(listing: seq<Pod>, hash: string, faults: Faults) {
    exists j :: 0 <= j < |listing| && SchedulerLaws.Outdated(listing[j], hash) && Refuses(faults, listing[j].key)
  }

  ghost predicate AnyRefused(surplus: seq<Pod>, faults: Faults) {
    exists j :: 0 <= j < |surplus| && Refuses(faults, surplus[j].key)
  }

  /** Every task that ran created its pod. */
  ghost predicate AllCreated(slots: map<nat, Result<Pod, Error>>) {
    forall i :: i in slots ==> slots[i].Ok?
  }

  ghost predicate NoErrors(errs: seq<Option<Error>>) {
    forall i :: 0 <= i < |errs| ==> errs[i].None?
  }

  lemma ErrorsAreFailures(slots: map<nat, Result<Pod, Error>>, order: seq<nat>, n: nat)
    requires Schedule(order, n) && slots.Keys == Elements(order)
    ensures NoErrors(ErrorSlots(slots, n)) <==> AllCreated(slots)
  {
    var errs := ErrorSlots(slots, n);
    forall i | i in slots ensures i < n && errs[i] == ErrorAt(slots, i) { assert i in Elements(order); }
    if NoErrors(errs) {
      forall i | i in slots ensures slots[i].Ok? { assert errs[i].None?; }
    }
  }

  lemma ReduceSucceeds(errs: seq<Option<Error>>)
    ensures Reduce(errs).err.None? <==> NoErrors(errs)
  {
    ReduceConserves(errs);
  }

  lemma GrowOutcome(fleet: Fleet, active: seq<Pod>, lacking: nat, c: Cluster, b: Batch, order: seq<nat>)
    requires Schedule(order, lacking)
    ensures Grow(fleet, active, lacking, c, b, order).result.Ok? <==> AllCreated(Spawn(fleet, order, b).slots)
  {
    hide Spawn, Announce, ReportOn, Reduce, AllCreated, NoErrors;
    var slots := Spawn(fleet, order, b).slots;
    SpawnConserves(fleet, order, b);
    ErrorsAreFailures(slots, order, lacking);
    ReduceSucceeds(ErrorSlots(slots, lacking));
  }

  /** The error is that of the first refused deletion. */
  ghost predicate FirstRefusal(surplus: seq<Pod>, faults: Faults, e: Error) {
    exists k :: 0 <= k < |surplus| && Refuses(faults, surplus[k].key) && faults(PodDelete(surplus[k].key)) == Some(e)
                && forall j :: 0 <= j < k ==> !Refuses(faults, surplus[j].key)
  }

  /** The error is that of the first refused deletion of a stale worker. */
  ghost predicate FirstStaleRefusal(listing: seq<Pod>, hash: string, faults: Faults, e: Error) {
    exists k :: 0 <= k < |listing| && SchedulerLaws.Outdated(listing[k], hash) && Refuses(faults, listing[k].key)
                && faults(PodDelete(listing[k].key)) == Some(e)
                && forall j :: 0 <= j < k && SchedulerLaws.Outdated(listing[j], hash) ==> !Refuses(faults, listing[j].key)
  }

  lemma TrimOutcome(fleet: Fleet, surplus: seq<Pod>, faults: Faults)
    ensures var err := Trim(fleet, surplus, faults).err;
            if AnyRefused(surplus, faults) then err.Some? && FirstRefusal(surplus, faults, err.value) else err.None?
  {
    hide Trim, IsNotFound;
    var k := TrimFailsWithFirst(fleet, surplus, faults);
  }

  lemma SiftOutcome(fleet: Fleet, listing: seq<Pod>, hash: string, faults: Faults)
    ensures var err := Sift(fleet, listing, hash, faults).err;
            if StaleRefused(listing, hash, faults) then err.Some? && FirstStaleRefusal(listing, hash, faults, err.value)
            else err.None?
  {
    hide Sift, IsNotFound;
    var k := SiftFailsWithFirst(fleet, listing, hash, faults);
  }

  /** The stage succeeds exactly when no deletion it needs is refused and, when it creates, every task that ran created
      its pod. A refused deletion is what it fails with: the first of a stale worker listed, else the first of a surplus
      one. */
  lemma StageOutcome(fleet: Fleet, listing: seq<Pod>, c: Cluster, b: Batch, order: seq<nat>)
    requires Schedule(order, Missing(listing, c, b.hash))
    ensures var r := Resize(fleet, listing, c, b, order).result;
            var active, s := Actives(listing, b.hash), Sift(fleet, listing, b.hash, b.faults).fleet;
            if StaleRefused(listing, b.hash, b.faults) then
              r.Failed? && FirstStaleRefusal(listing, b.hash, b.faults, r.error)
            else if Desired(c) > |active| then r.Ok? <==> AllCreated(Spawn(s, order, b).slots)
            else
              var surplus := active[..|active| - Desired(c)];
              if AnyRefused(surplus, b.faults) then r.Failed? && FirstRefusal(surplus, b.faults, r.error) else r.Ok?
  {
    hide Sift, Spawn, Trim, Grow, ReportOn, Actives, AllCreated, StaleRefused, AnyRefused, FirstRefusal, FirstStaleRefusal,
      Schedule;
    SiftOutcome(fleet, listing, b.hash, b.faults);
    var s := Sift(fleet, listing, b.hash, b.faults);
    var active := Actives(listing, b.hash);
    if s.err.None? {
      SiftKeepsActives(fleet, listing, b.hash, b.faults);
      if Desired(c) > |active| {
        GrowOutcome(s.fleet, active, Desired(c) - |active|, c, b, order);
      } else {
        TrimOutcome(s.fleet, active[..|active| - Desired(c)], b.faults);
      }
    }
  }

  // ---------- The report is true ----------

  /** The workers with these keys, each once, as they are stored. */
  ghost predicate Listed(active: seq<Pod>, keys: set<Key>, pods: Pods) {
    && Keys(active) == keys
    && (forall i, j :: 0 <= i < j < |active| ==> active[i].key != active[j].key)
    && (forall i :: 0 <= i < |active| ==> active[i].key in pods && pods[active[i].key] == active[i])
  }

  /** These pods are exactly the current workers. */
  ghost predicate Mirrors(active: seq<Pod>, pods: Pods, b: Batch) {
    Listed(active, Current(pods, b), pods)
  }

  /** The current workers that are Ready. */
  ghost function ReadyNow(pods: Pods, b: Batch): set<Key> {
    set k | k in Current(pods, b) && PodIsReady(pods[k])
  }

  lemma MirrorCounts(active: seq<Pod>, pods: Pods, b: Batch)
    requires Mirrors(active, pods, b)
    ensures |active| == |Current(pods, b)| && CountReady(active) == |ReadyNow(pods, b)|
  {
    hide PodIsReady, Current;
    ListedKeys(active);
    CountIsReadyKeys(active);
    forall k | k in ReadyNow(pods, b) ensures k in ReadyKeys(active) {
      var i :| 0 <= i < |active| && active[i].key == k;
    }
    forall i | 0 <= i < |active| ensures active[i].key in Current(pods, b) { assert active[i].key in Keys(active); }
    assert ReadyKeys(active) == ReadyNow(pods, b);
  }

  /** A pod that is current before and after is the same. */
  lemma CurrentPodsStay(active: seq<Pod>, before: Pods, after: Pods, b: Batch)
    requires Mirrors(active, before, b) && OnlyPool(before, after, b) && Current(after, b) == Current(before, b)
    ensures Mirrors(active, after, b)
  {
    forall i | 0 <= i < |active| ensures active[i].key in after && after[active[i].key] == active[i] {
      assert active[i].key in Keys(active);
    }
  }

  /** What the slot holds is stored, under a name that was free. */
  ghost predicate StoredAt(slots: map<nat, Result<Pod, Error>>, i: nat, before: Pods, after: Pods, b: Batch)
    requires i in slots && slots[i].Ok?
  {
    && slots[i].value == SlotPod(b, i) && SlotKey(b, i) !in before
    && SlotKey(b, i) in after && after[SlotKey(b, i)] == SlotPod(b, i)
  }

  /** What the filled slots hold is stored, each under a name of its own. */
  ghost predicate SlotsStored(slots: map<nat, Result<Pod, Error>>, before: Pods, after: Pods, b: Batch) {
    && (forall i :: i in Filled(slots) ==> StoredAt(slots, i, before, after, b))
    && (forall i, j :: i in Filled(slots) && j in Filled(slots) && i != j ==> SlotKey(b, i) != SlotKey(b, j))
  }

  /** `after` has these workers in addition, all current. */
  ghost predicate Extends(before: Pods, after: Pods, keys: set<Key>, b: Batch) {
    && (forall k :: k in before ==> k in after && after[k] == before[k])
    && after.Keys == before.Keys + keys
    && Current(after, b) == Current(before, b) + keys
  }

  ghost predicate Stored(slots: map<nat, Result<Pod, Error>>, before: Pods, after: Pods, b: Batch) {
    SlotsStored(slots, before, after, b) && Extends(before, after, SlotKeys(Filled(slots), b), b)
  }

  lemma {:induction false} SpawnStores(fleet: Fleet, order: seq<nat>, b: Batch)
    requires Distinct(order)
    ensures var s := Spawn(fleet, order, b); Stored(s.slots, fleet.pods, s.fleet.pods, b)
  {
    if order != [] {
      var prior, slot := order[..|order| - 1], order[|order| - 1];
      SpawnStores(fleet, prior, b);
      SpawnSnoc(fleet, order, b);
      SpawnConserves(fleet, prior, b);
      SpawnOneStores(fleet.pods, Spawn(fleet, prior, b), slot, b);
    }
  }

  lemma SpawnOneStores(before: Pods, s: Spawned, slot: nat, b: Batch)
    requires Stored(s.slots, before, s.fleet.pods, b) && slot !in s.slots
    ensures var after := CreateIn(s.fleet, SlotPod(b, slot), CreateWorker, WorkerCreate(slot), b.faults);
            Stored(s.slots[slot := SlotResult(s.fleet.pods, b, slot)], before, after.pods, b)
  {
    hide ClassifyAPIError, Current, Stored, OnlyPool;
    CreateEffect(s.fleet, slot, b);
    if SlotResult(s.fleet.pods, b, slot).Ok? {
      StoredGrows(s.slots, before, s.fleet.pods, slot, b);
    } else {
      StoredStays(s.slots, before, s.fleet.pods, slot, SlotResult(s.fleet.pods, b, slot), b);
    }
  }

  lemma StoredStays(slots: map<nat, Result<Pod, Error>>, before: Pods, after: Pods, slot: nat, r: Result<Pod, Error>,
                    b: Batch)
    requires Stored(slots, before, after, b) && slot !in slots && r.Failed?
    ensures Stored(slots[slot := r], before, after, b)
  {
    assert Filled(slots[slot := r]) == Filled(slots);
  }

  lemma FilledGrowsBy(slots: map<nat, Result<Pod, Error>>, slot: nat, b: Batch)
    requires slot !in slots
    ensures var more := slots[slot := Ok(SlotPod(b, slot))];
            && Filled(more) == Filled(slots) + {slot}
            && SlotKeys(Filled(more), b) == SlotKeys(Filled(slots), b) + {SlotKey(b, slot)}
  {
  }

  lemma FilledIsIn(slots: map<nat, Result<Pod, Error>>, i: nat)
    requires i in Filled(slots)
    ensures i in slots && slots[i].Ok?
  {
  }

  lemma StoredGrows(slots: map<nat, Result<Pod, Error>>, before: Pods, after: Pods, slot: nat, b: Batch)
    requires Stored(slots, before, after, b) && slot !in slots && SlotKey(b, slot) !in after
    requires var more := after[SlotKey(b, slot) := SlotPod(b, slot)];
             Current(more, b) == Current(after, b) + {SlotKey(b, slot)}
    ensures Stored(slots[slot := Ok(SlotPod(b, slot))], before, after[SlotKey(b, slot) := SlotPod(b, slot)], b)
  {
    hide Current, SlotsStored;
    SlotsStoredGrow(slots, before, after, slot, b);
    FilledGrowsBy(slots, slot, b);
  }

  lemma SlotsStoredGrow(slots: map<nat, Result<Pod, Error>>, before: Pods, after: Pods, slot: nat, b: Batch)
    requires SlotsStored(slots, before, after, b) && slot !in slots && SlotKey(b, slot) !in after
    requires forall k :: k in before ==> k in after
    ensures SlotsStored(slots[slot := Ok(SlotPod(b, slot))], before, after[SlotKey(b, slot) := SlotPod(b, slot)], b)
  {
    FilledGrowsBy(slots, slot, b);
    var more, longer := slots[slot := Ok(SlotPod(b, slot))], after[SlotKey(b, slot) := SlotPod(b, slot)];
    hide SlotKeys;
    forall i | i in Filled(more) ensures StoredAt(more, i, before, longer, b) {
      if i != slot { assert StoredAt(slots, i, before, after, b); }
    }
    forall i, j | i in Filled(more) && j in Filled(more) && i != j ensures SlotKey(b, i) != SlotKey(b, j) {
      if i == slot {
        assert StoredAt(slots, j, before, after, b);
      } else if j == slot {
        assert StoredAt(slots, i, before, after, b);
      }
    }
  }

  lemma ListedSnoc(active: seq<Pod>, keys: set<Key>, pods: Pods, pod: Pod)
    requires Listed(active, keys, pods) && pod.key !in keys && pod.key in pods && pods[pod.key] == pod
    ensures Listed(active + [pod], keys + {pod.key}, pods)
  {
    KeysSnoc(active + [pod]);
    assert (active + [pod])[..|active|] == active;
    forall i | 0 <= i < |active| ensures active[i].key != pod.key { assert active[i].key in Keys(active); }
  }

  ghost function FilledUpTo(slots: map<nat, Result<Pod, Error>>, n: nat): set<nat> {
    set i | i in Filled(slots) && i < n
  }

  /** The current workers before, and those of the filled slots below `n`. */
  ghost function WorkersUpTo(before: Pods, slots: map<nat, Result<Pod, Error>>, n: nat, b: Batch): set<Key> {
    Current(before, b) + SlotKeys(FilledUpTo(slots, n), b)
  }

  lemma {:induction false} AnnounceLists(fleet: Fleet, active: seq<Pod>, before: Pods,
                                         slots: map<nat, Result<Pod, Error>>, n: nat, b: Batch)
    requires Mirrors(active, before, b) && Stored(slots, before, fleet.pods, b)
    ensures Listed(Announce(fleet, active, CreatedSlots(slots, n)).active,
                   WorkersUpTo(before, slots, n, b), fleet.pods)
  {
    hide Listed, Mirrors, Stored, WorkersUpTo, CreatedAt;
    if n == 0 {
      NothingJoins(active, before, slots, fleet.pods, b);
    } else {
      AnnounceLists(fleet, active, before, slots, n - 1, b);
      var created := CreatedSlots(slots, n);
      assert created[..n - 1] == CreatedSlots(slots, n - 1);
      assert created[n - 1] == CreatedAt(slots, n - 1);
      NextSlot(slots, before, fleet.pods, n, b);
      if CreatedAt(slots, n - 1).Some? {
        ListedSnoc(Announce(fleet, active, created[..n - 1]).active,
                   WorkersUpTo(before, slots, n - 1, b), fleet.pods,
                   CreatedAt(slots, n - 1).value);
      }
    }
  }

  lemma NothingJoins(active: seq<Pod>, before: Pods, slots: map<nat, Result<Pod, Error>>, after: Pods, b: Batch)
    requires Mirrors(active, before, b) && Stored(slots, before, after, b)
    ensures Listed(active, WorkersUpTo(before, slots, 0, b), after)
  {
    hide Current, Filled;
    assert FilledUpTo(slots, 0) == {};
    assert SlotKeys({}, b) == {};
  }

  lemma NextSlot(slots: map<nat, Result<Pod, Error>>, before: Pods, after: Pods, n: nat, b: Batch)
    requires n > 0 && Stored(slots, before, after, b)
    ensures var earlier := WorkersUpTo(before, slots, n - 1, b);
            var upTo := WorkersUpTo(before, slots, n, b);
            match CreatedAt(slots, n - 1)
            case None => upTo == earlier
            case Some(pod) =>
              && pod.key in after && after[pod.key] == pod
              && upTo == earlier + {pod.key} && pod.key !in earlier
  {
    if n - 1 in Filled(slots) {
      hide Filled;
      assert FilledUpTo(slots, n) == FilledUpTo(slots, n - 1) + {n - 1};
    } else {
      assert FilledUpTo(slots, n) == FilledUpTo(slots, n - 1);
    }
  }

  /** After a successful growth the active workers are exactly the current ones. */
  lemma GrowMirrors(fleet: Fleet, active: seq<Pod>, lacking: nat, c: Cluster, b: Batch, order: seq<nat>)
    requires Mirrors(active, fleet.pods, b) && Schedule(order, lacking)
    ensures var spawned := Spawn(fleet, order, b);
            var announced := Announce(spawned.fleet, active, CreatedSlots(spawned.slots, lacking));
            announced.fleet.pods == spawned.fleet.pods && Mirrors(announced.active, announced.fleet.pods, b)
  {
    hide Spawn, Announce, Mirrors, Stored, Current;
    var spawned := Spawn(fleet, order, b);
    SpawnConserves(fleet, order, b);
    SpawnStores(fleet, order, b);
    AnnounceLists(spawned.fleet, active, fleet.pods, spawned.slots, lacking, b);
    AnnounceCounts(spawned.fleet, active, CreatedSlots(spawned.slots, lacking));
    FilledBelow(spawned.slots, order, lacking);
    ListedIsMirrored(Announce(spawned.fleet, active, CreatedSlots(spawned.slots, lacking)).active, fleet.pods,
                     spawned.slots, lacking, spawned.fleet.pods, b);
  }

  lemma ListedIsMirrored(active: seq<Pod>, before: Pods, slots: map<nat, Result<Pod, Error>>, n: nat, after: Pods,
                         b: Batch)
    requires Listed(active, WorkersUpTo(before, slots, n, b), after)
    requires Stored(slots, before, after, b) && FilledUpTo(slots, n) == Filled(slots)
    ensures Mirrors(active, after, b)
  {
    hide Current;
  }

  /** So are those kept after a successful reduction. */
  lemma ShrinkMirrors(fleet: Fleet, active: seq<Pod>, surplus: nat, b: Batch)
    requires Mirrors(active, fleet.pods, b) && surplus <= |active| && Candidates(active, fleet.pods, b)
    requires NoFalseNotFound(active, fleet.pods, b.faults)
    ensures var t := Trim(fleet, active[..surplus], b.faults);
            t.err.None? ==> Mirrors(active[surplus..], t.fleet.pods, b)
  {
    hide Trim, Current, Candidates;
    var t := Trim(fleet, active[..surplus], b.faults);
    PrefixCandidates(active, surplus, fleet.pods, b);
    TrimEffect(fleet, active[..surplus], b);
    assert forall j :: 0 <= j < surplus ==> active[..surplus][j] == active[j];
    TrimEndsAll(fleet, active[..surplus], b.faults);
    if t.err.None? { Remaining(active, surplus, fleet.pods, t.fleet.pods, b); }
  }

  lemma Remaining(active: seq<Pod>, surplus: nat, before: Pods, after: Pods, b: Batch)
    requires Mirrors(active, before, b) && surplus <= |active|
    requires Trims(before, after, Keys(active[..surplus]), b) && AllEnded(active[..surplus], after)
    ensures Mirrors(active[surplus..], after, b)
  {
    var gone, kept := active[..surplus], active[surplus..];
    forall k | k in Keys(kept) ensures k in Current(after, b) {
      var i :| 0 <= i < |kept| && kept[i].key == k;
      assert active[surplus + i].key == k && k in Keys(active);
      assert k !in Keys(gone);
    }
    forall k | k in Current(after, b) ensures k in Keys(kept) {
      assert k in Keys(active);
      var i :| 0 <= i < |active| && active[i].key == k;
      if i >= surplus { assert kept[i - surplus].key == k; }
    }
    forall i | 0 <= i < |kept| ensures kept[i].key in after && after[kept[i].key] == kept[i] {
      assert kept[i].key in Keys(kept);
      assert active[surplus + i] == kept[i];
    }
  }

  lemma SpawnedAreNotStale(slots: map<nat, Result<Pod, Error>>, before: Pods, after: Pods, b: Batch)
    requires Stored(slots, before, after, b) && Stale(before, b) == {}
    ensures Stale(after, b) == {}
  {
    forall k | k in after ensures !IsStale(after[k], b) {
      if k in before { assert k !in Stale(before, b); }
    }
  }

  lemma NoneBecomesStale(before: Pods, after: Pods, b: Batch)
    requires OnlyPool(before, after, b) && after.Keys == before.Keys && Stale(before, b) == {}
    ensures Stale(after, b) == {}
  {
    forall k | k in after ensures !IsStale(after[k], b) { assert k !in Stale(before, b); }
  }

  lemma NoneStaleListed(listing: seq<Pod>, before: Pods, after: Pods, b: Batch)
    requires UpToDate(listing, before, b) && OnlyPool(before, after, b) && after.Keys == before.Keys
    requires StaleEnded(listing, b.hash, after)
    ensures Stale(after, b) == {}
  {
    forall k | k in after ensures !IsStale(after[k], b) {
      if IsStale(before[k], b) {
        assert k in Keys(listing);
        var j :| 0 <= j < |listing| && listing[j].key == k;
        assert SchedulerLaws.Outdated(listing[j], b.hash);
      }
    }
  }

  lemma ActivesMirror(listing: seq<Pod>, pods: Pods, b: Batch)
    requires UpToDate(listing, pods, b)
    ensures Mirrors(Actives(listing, b.hash), pods, b)
  {
    hide UpToDate, Actives;
    ActivesStored(listing, pods, b);
  }

  /** What holds of the pods and the active workers once the stale ones are gone. */
  lemma SiftMirrors(fleet: Fleet, listing: seq<Pod>, b: Batch)
    requires UpToDate(listing, fleet.pods, b) && NoFalseNotFound(listing, fleet.pods, b.faults)
    ensures var s := Sift(fleet, listing, b.hash, b.faults);
            s.err.None? ==>
              && s.active == Actives(listing, b.hash) && Mirrors(s.active, s.fleet.pods, b)
              && Candidates(s.active, s.fleet.pods, b) && Stale(s.fleet.pods, b) == {}
              && NoFalseNotFound(s.active, s.fleet.pods, b.faults)
  {
    var s := Sift(fleet, listing, b.hash, b.faults);
    var active := Actives(listing, b.hash);
    hide Sift, Actives, UpToDate, Current, Candidates, Refuses, StaleEnded;
    UpToDateIsListing(listing, fleet.pods, b);
    SiftEffect(fleet, listing, b, 0);
    SiftEndsStale(fleet, listing, b.hash, b.faults);
    if s.err.None? {
      NoneStaleListed(listing, fleet.pods, s.fleet.pods, b);
      ActivesMirror(listing, fleet.pods, b);
      CurrentPodsStay(active, fleet.pods, s.fleet.pods, b);
      ActivesAreCandidates(listing, fleet.pods, s.fleet.pods, b);
      var at := ActivesAt(listing, b.hash);
      forall j | 0 <= j < |active| && active[j].key in s.fleet.pods && b.faults(PodDelete(active[j].key)).Some?
        ensures Refuses(b.faults, active[j].key)
      {
        assert listing[at[j]] == active[j];
      }
    }
  }

  lemma UpToDateIsListing(listing: seq<Pod>, pods: Pods, b: Batch)
    requires UpToDate(listing, pods, b)
    ensures Listing(listing, pods, b)
  {
  }

  lemma GrowIsTrue(fleet: Fleet, active: seq<Pod>, lacking: nat, c: Cluster, b: Batch, order: seq<nat>)
    requires Mirrors(active, fleet.pods, b) && Schedule(order, lacking) && Stale(fleet.pods, b) == {}
    requires |active| + lacking == Desired(c)
    ensures var r := Grow(fleet, active, lacking, c, b, order);
            r.result.Ok? ==> ReportsOn(r.result.value, r.fleet.pods, c, b)
  {
    hide Spawn, Announce, ReportOn, Reduce, Mirrors, Stored, Current, Stale, Schedule;
    var spawned := Spawn(fleet, order, b);
    GrowMirrors(fleet, active, lacking, c, b, order);
    ScheduledOnce(order, lacking);
    AnnounceBound(spawned.fleet, active, CreatedSlots(spawned.slots, lacking));
    assert var r := Grow(fleet, active, lacking, c, b, order);
           r.result.Ok? ==>
             Accounted(Announce(spawned.fleet, active, CreatedSlots(spawned.slots, lacking)).active, r.result.value,
                       r.fleet.pods, c, b);
    SpawnStores(fleet, order, b);
    SpawnedAreNotStale(spawned.slots, fleet.pods, spawned.fleet.pods, b);
  }

  lemma ScheduledOnce(order: seq<nat>, n: nat)
    requires Schedule(order, n)
    ensures Distinct(order)
  {
  }

  ghost predicate Accounted(active: seq<Pod>, report: Report, pods: Pods, c: Cluster, b: Batch) {
    Mirrors(active, pods, b) && |active| <= Desired(c) && report == ReportOn(c, active)
  }

  /** The report is about exactly the current workers stored, and no stale one is left live. */
  ghost predicate ReportsOn(report: Report, pods: Pods, c: Cluster, b: Batch) {
    Stale(pods, b) == {} && exists active :: Accounted(active, report, pods, c, b)
  }

  lemma ShrinkIsTrue(fleet: Fleet, active: seq<Pod>, surplus: nat, c: Cluster, b: Batch)
    requires Mirrors(active, fleet.pods, b) && surplus <= |active| && Candidates(active, fleet.pods, b)
    requires NoFalseNotFound(active, fleet.pods, b.faults) && Stale(fleet.pods, b) == {}
    requires |active| == Desired(c) + surplus
    ensures var r := Shrink(fleet, active, surplus, c, b.faults);
            r.result.Ok? ==> ReportsOn(r.result.value, r.fleet.pods, c, b)
  {
    hide Trim, ReportOn, Mirrors, Current, Stale, Candidates, NoFalseNotFound;
    var t := Trim(fleet, active[..surplus], b.faults);
    ShrinkMirrors(fleet, active, surplus, b);
    PrefixCandidates(active, surplus, fleet.pods, b);
    TrimEffect(fleet, active[..surplus], b);
    NoneBecomesStale(fleet.pods, t.fleet.pods, b);
    assert t.err.None? ==> Accounted(active[surplus..], ReportOn(c, active[surplus..]), t.fleet.pods, c, b);
  }

  /** The report of a stage that succeeds, whatever failed or was cancelled on the way, barring a false NotFound: it
      counts the current workers stored and the Ready ones among them, has nothing to add exactly when these are the
      desired number and all Ready, and no stale worker is left live. */
  lemma ReportIsTrue(fleet: Fleet, listing: seq<Pod>, c: Cluster, b: Batch, order: seq<nat>)
    requires UpToDate(listing, fleet.pods, b) && Schedule(order, Missing(listing, c, b.hash))
    requires NoFalseNotFound(listing, fleet.pods, b.faults)
    ensures var r := Resize(fleet, listing, c, b, order);
            r.result.Ok? ==> TrueReport(r.result.value, r.fleet.pods, c, b)
  {
    hide Sift, Grow, Shrink, Mirrors, Current, Stale, Candidates, NoFalseNotFound, Schedule, UpToDate, ReportsOn,
      TrueReport;
    var s := Sift(fleet, listing, b.hash, b.faults);
    var r := Resize(fleet, listing, c, b, order);
    SiftMirrors(fleet, listing, b);
    if r.result.Ok? {
      if Desired(c) > |s.active| {
        GrowIsTrue(s.fleet, s.active, Desired(c) - |s.active|, c, b, order);
      } else {
        ShrinkIsTrue(s.fleet, s.active, |s.active| - Desired(c), c, b);
      }
      CountsAreTrue(r.result.value, r.fleet.pods, c, b);
    }
  }

  lemma CountsAreTrue(report: Report, pods: Pods, c: Cluster, b: Batch)
    requires ReportsOn(report, pods, c, b)
    ensures TrueReport(report, pods, c, b)
  {
    hide Mirrors, Current, Stale, ReportOn, ReadyNow, TrueMessage;
    var active :| Accounted(active, report, pods, c, b);
    ReportTruth(c, active);
    MessageIsTrue(active, pods, c, b);
    MirrorCounts(active, pods, b);
    ReadyAreCurrent(pods, b);
  }

  lemma ReadyAreCurrent(pods: Pods, b: Batch)
    ensures |ReadyNow(pods, b)| == |Current(pods, b)| <==> ReadyNow(pods, b) == Current(pods, b)
  {
    var missing := Current(pods, b) - ReadyNow(pods, b);
    assert Current(pods, b) == ReadyNow(pods, b) + missing;
    if missing != {} { assert |missing| > 0; }
  }

  /** The message gives the count while it is not the desired one, and then speaks of a worker that is not Ready. */
  ghost predicate TrueMessage(message: string, pods: Pods, c: Cluster, b: Batch) {
    if |Current(pods, b)| != Desired(c) then
      message == Decimal(|Current(pods, b)|) + "/" + Decimal(Desired(c)) + " desired worker pods exist"
    else if ReadyNow(pods, b) == Current(pods, b) then message == ""
    else exists k :: k in Current(pods, b) && k !in ReadyNow(pods, b) && message == Complaint(pods[k])
  }

  lemma MessageIsTrue(active: seq<Pod>, pods: Pods, c: Cluster, b: Batch)
    requires Mirrors(active, pods, b) && |active| <= Desired(c)
    ensures TrueMessage(ReportOn(c, active).message, pods, c, b)
  {
    MirrorCounts(active, pods, b);
    ReadyAreCurrent(pods, b);
    var i := NotReadyPodRecorded(active);
    NoWrap(|active|);
    hide Current, PodIsReady, ToInt32, FirstNotReady, CountReady, Decimal, PodNotReadyMessage;
    if i < |active| {
      assert active[i].key in Keys(active);
    }
  }

  ghost predicate TrueReport(report: Report, pods: Pods, c: Cluster, b: Batch) {
    && report.status.replicas as int == |Current(pods, b)| <= Desired(c)
    && report.status.readyReplicas as int == |ReadyNow(pods, b)|
    && (report.message == "" <==> |Current(pods, b)| == Desired(c) && ReadyNow(pods, b) == Current(pods, b))
    && TrueMessage(report.message, pods, c, b)
    && Stale(pods, b) == {}
  }

  /** The selector in the report is written out of the labels the operator gives its workers. */
  lemma SelectorIsOfWorkers(c: Cluster, b: Batch, slot: nat)
    requires b.cluster == c.key.name
    ensures var labels := SlotPod(b, slot).labels;
            Selector(c) == "compute.pola.rs/cluster=" + labels.cluster + ",compute.pola.rs/component=" + labels.component
  {
    assert ",compute.pola.rs/component=worker" == ",compute.pola.rs/component=" + COMPONENT_WORKER;
  }
}
