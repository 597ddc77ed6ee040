/** A pass over the worker pool in which no call fails and every creation task runs: its effect in closed form, for any
    listing, and what follows when the listing is up to date and when it lags. */
module WorkerPoolExact {
  import opened Kube
  import opened Errors
  import opened PolarsCluster
  import opened ApiServer
  import opened WorkerPool
  import opened WorkerPoolLaws
  import opened WorkerPoolTheorems

  // ---------- The frame, under faults ----------

  /** A pass touches nothing outside its pool, whatever the listing shows, whichever calls fail and whichever creation
      tasks run. */
  lemma PassIsPoolOnly(fleet: Fleet, listing: seq<Pod>, c: Cluster, b: Batch, order: seq<nat>)
    requires Listing(listing, fleet.pods, b) && Distinct(order)
    ensures OnlyPool(fleet.pods, Resize(fleet, listing, c, b, order).fleet.pods, b)
  {
    hide Grow, Shrink, Sift, Listing, OnlyPool, Current, Distinct, Actives, Candidates, AllToward;
    var s := Sift(fleet, listing, b.hash, b.faults);
    SiftEffect(fleet, listing, b, 0);
    if s.err.None? {
      if Desired(c) > |s.active| {
        GrowIsPoolOnly(s.fleet, s.active, Desired(c) - |s.active|, c, b, order);
      } else {
        ActivesAreCandidates(listing, fleet.pods, s.fleet.pods, b);
        ShrinkIsPoolOnly(s.fleet, s.active, |s.active| - Desired(c), c, b);
      }
      OnlyPoolTransitive(fleet.pods, s.fleet.pods, Resize(fleet, listing, c, b, order).fleet.pods, b);
    }
  }

  lemma GrowIsPoolOnly(fleet: Fleet, active: seq<Pod>, lacking: nat, c: Cluster, b: Batch, order: seq<nat>)
    requires Distinct(order)
    ensures OnlyPool(fleet.pods, Grow(fleet, active, lacking, c, b, order).fleet.pods, b)
  {
    hide OnlyPool, Current;
    SpawnConserves(fleet, order, b);
    var s := Spawn(fleet, order, b);
    AnnounceCounts(s.fleet, active, CreatedSlots(s.slots, lacking));
  }

  lemma ShrinkIsPoolOnly(fleet: Fleet, active: seq<Pod>, surplus: nat, c: Cluster, b: Batch)
    requires surplus <= |active| && Candidates(active, fleet.pods, b)
    ensures OnlyPool(fleet.pods, Shrink(fleet, active, surplus, c, b.faults).fleet.pods, b)
  {
    hide OnlyPool, Current, Candidates;
    PrefixCandidates(active, surplus, fleet.pods, b);
    TrimEffect(fleet, active[..surplus], b);
  }

  // ---------- Complete, fault-free passes ----------

  /** Every task below n runs, in some order. */
  ghost predicate Complete(order: seq<nat>, n: nat) {
    Distinct(order) && Elements(order) == Below(n)
  }

  /** The pods, with those of the given keys that exist marked as terminating. */
  ghost function Marked(pods: Pods, keys: set<Key>): Pods {
    map k | k in pods :: if k in keys then pods[k].(terminating := true) else pods[k]
  }

  lemma MarkedTwice(pods: Pods, keys: set<Key>, more: set<Key>)
    ensures Marked(Marked(pods, keys), more) == Marked(pods, keys + more)
  {
  }

  // ---------- Deletions ----------

  lemma FaultFreeDelete(fleet: Fleet, key: Key, kind: WriteKind, faults: Faults)
    requires FaultFree(faults)
    ensures DeleteFrom(fleet, key, kind, faults).pods == Marked(fleet.pods, {key})
    ensures DeleteError(fleet.pods, key, faults).Some? ==> IsNotFound(DeleteError(fleet.pods, key, faults).value)
  {
  }

  ghost function StaleListed(listing: seq<Pod>, hash: string): set<Key> {
    set i | 0 <= i < |listing| && !listing[i].terminating && listing[i].labels.templateHash != hash :: listing[i].key
  }

  lemma StaleListedSnoc(listing: seq<Pod>, hash: string)
    requires listing != []
    ensures var last := listing[|listing| - 1];
            StaleListed(listing, hash) == StaleListed(listing[..|listing| - 1], hash) +
              if !last.terminating && last.labels.templateHash != hash then {last.key} else {}
  {
    var n := |listing| - 1;
    forall k | k in StaleListed(listing, hash) && k !in StaleListed(listing[..n], hash)
      ensures !listing[n].terminating && listing[n].labels.templateHash != hash && listing[n].key == k
    {
      var i :| 0 <= i < |listing| && !listing[i].terminating && listing[i].labels.templateHash != hash
               && listing[i].key == k;
    }
    forall k | k in StaleListed(listing[..n], hash)
      ensures k in StaleListed(listing, hash)
    {
      var i :| 0 <= i < n && !listing[..n][i].terminating && listing[..n][i].labels.templateHash != hash
               && listing[..n][i].key == k;
      assert listing[i].key == k;
    }
  }

  lemma {:induction false} SiftExactly(fleet: Fleet, listing: seq<Pod>, hash: string, faults: Faults)
    requires FaultFree(faults)
    ensures var s := Sift(fleet, listing, hash, faults);
            s.err.None? && s.fleet.pods == Marked(fleet.pods, StaleListed(listing, hash))
  {
    if listing == [] {
      assert StaleListed(listing, hash) == {};
      assert Marked(fleet.pods, {}) == fleet.pods;
    } else {
      var n := |listing| - 1;
      SiftExactly(fleet, listing[..n], hash, faults);
      StaleListedSnoc(listing, hash);
      var s := Sift(fleet, listing[..n], hash, faults);
      FaultFreeDelete(s.fleet, listing[n].key, ReplaceWorker, faults);
      MarkedTwice(fleet.pods, StaleListed(listing[..n], hash), {listing[n].key});
    }
  }

  lemma {:induction false} TrimClosedForm(fleet: Fleet, surplus: seq<Pod>, faults: Faults)
    requires FaultFree(faults)
    ensures var t := Trim(fleet, surplus, faults);
            t.err.None? && t.fleet.pods == Marked(fleet.pods, Keys(surplus))
  {
    if surplus == [] {
      assert Keys(surplus) == {};
      assert Marked(fleet.pods, {}) == fleet.pods;
    } else {
      var n := |surplus| - 1;
      TrimClosedForm(fleet, surplus[..n], faults);
      KeysSnoc(surplus);
      var t := Trim(fleet, surplus[..n], faults);
      FaultFreeDelete(t.fleet, surplus[n].key, ScaleDown, faults);
      MarkedTwice(fleet.pods, Keys(surplus[..n]), {surplus[n].key});
    }
  }

  // ---------- Creations ----------

  ghost function NewWorkers(b: Batch, n: nat): (r: seq<Pod>)
    ensures |r| == n && forall i :: 0 <= i < n ==> r[i] == SlotPod(b, i)
  {
    if n == 0 then [] else NewWorkers(b, n - 1) + [SlotPod(b, n - 1)]
  }

  lemma {:induction false} AnnounceAll(fleet: Fleet, active: seq<Pod>, created: seq<Option<Pod>>, b: Batch)
    requires forall i :: 0 <= i < |created| ==> created[i] == Some(SlotPod(b, i))
    ensures Announce(fleet, active, created).active == active + NewWorkers(b, |created|)
    ensures Announce(fleet, active, created).fleet.pods == fleet.pods
  {
    if created != [] {
      AnnounceAll(fleet, active, created[..|created| - 1], b);
    }
  }

  lemma AllFilled(fleet: Fleet, n: nat, b: Batch, order: seq<nat>)
    requires FaultFree(b.faults) && FreshNames(fleet.pods, b) && Complete(order, n)
    ensures var s := Spawn(fleet, order, b);
            && s.fleet.pods == fleet.pods + NewPods(Below(n), b)
            && (forall i :: 0 <= i < n ==> CreatedSlots(s.slots, n)[i] == Some(SlotPod(b, i)))
            && (forall i :: 0 <= i < n ==> ErrorSlots(s.slots, n)[i].None?)
  {
    SpawnClosedForm(fleet, order, b);
    assert Accepted(Below(n), b) == Below(n);
  }

  lemma GrowExactly(fleet: Fleet, active: seq<Pod>, lacking: nat, c: Cluster, b: Batch, order: seq<nat>)
    requires FaultFree(b.faults) && FreshNames(fleet.pods, b) && Complete(order, lacking)
    ensures var g := Grow(fleet, active, lacking, c, b, order);
            && g.fleet.pods == fleet.pods + NewPods(Below(lacking), b)
            && g.result == Ok(ReportOn(c, active + NewWorkers(b, lacking)))
  {
    hide Spawn, Complete, FreshNames, ReportOn;
    AllFilled(fleet, lacking, b, order);
    var s := Spawn(fleet, order, b);
    AnnounceAll(s.fleet, active, CreatedSlots(s.slots, lacking), b);
    NothingReduced(ErrorSlots(s.slots, lacking));
  }

  // ---------- The pass in closed form ----------

  /** The workers the pass keeps of those it sees as active: all but a prefix of the surplus. */
  function Surplus(listing: seq<Pod>, c: Cluster, hash: string): (n: nat)
    ensures n <= |Actives(listing, hash)|
  {
    var active := Actives(listing, hash);
    if Desired(c) < |active| then |active| - Desired(c) else 0
  }

  /** The workers told to go because they are too many. */
  ghost function Released(listing: seq<Pod>, c: Cluster, b: Batch): set<Key> {
    Keys(Actives(listing, b.hash)[..Surplus(listing, c, b.hash)])
  }

  ghost function ResizedPods(pods: Pods, listing: seq<Pod>, c: Cluster, b: Batch): Pods {
    Marked(pods, StaleListed(listing, b.hash) + Released(listing, c, b))
      + NewPods(Below(Missing(listing, c, b.hash)), b)
  }

  ghost function ResizedActive(listing: seq<Pod>, c: Cluster, b: Batch): seq<Pod> {
    Actives(listing, b.hash)[Surplus(listing, c, b.hash)..] + NewWorkers(b, Missing(listing, c, b.hash))
  }

  /** For any listing: every stale worker seen and a prefix of the active ones is told to go, or new workers fill the
      gap; nothing else changes; and the report is about exactly the workers kept and created. */
  lemma ResizeClosedForm(fleet: Fleet, listing: seq<Pod>, c: Cluster, b: Batch, order: seq<nat>)
    requires FaultFree(b.faults) && FreshNames(fleet.pods, b) && Complete(order, Missing(listing, c, b.hash))
    ensures var r := Resize(fleet, listing, c, b, order);
            && r.fleet.pods == ResizedPods(fleet.pods, listing, c, b)
            && r.result == Ok(ReportOn(c, ResizedActive(listing, c, b)))
  {
    hide Grow, Shrink, Sift, Complete, ReportOn, Actives, FreshNames, ResizedPods, ResizedActive;
    SiftExactly(fleet, listing, b.hash, b.faults);
    SiftKeepsActives(fleet, listing, b.hash, b.faults);
    if Desired(c) > |Actives(listing, b.hash)| {
      GrownPool(fleet, listing, c, b, order);
    } else {
      ShrunkPool(fleet, listing, c, b);
    }
  }

  lemma MarkedNames(pods: Pods, keys: set<Key>, b: Batch)
    requires FreshNames(pods, b)
    ensures FreshNames(Marked(pods, keys), b)
  {
  }

  lemma GrownPool(fleet: Fleet, listing: seq<Pod>, c: Cluster, b: Batch, order: seq<nat>)
    requires FaultFree(b.faults) && FreshNames(fleet.pods, b) && Complete(order, Missing(listing, c, b.hash))
    requires Desired(c) > |Actives(listing, b.hash)|
    ensures var s := Sift(fleet, listing, b.hash, b.faults);
            var g := Grow(s.fleet, Actives(listing, b.hash), Desired(c) - |Actives(listing, b.hash)|, c, b, order);
            && g.fleet.pods == ResizedPods(fleet.pods, listing, c, b)
            && g.result == Ok(ReportOn(c, ResizedActive(listing, c, b)))
  {
    hide Grow, Sift, Complete, ReportOn, Actives, FreshNames;
    SiftExactly(fleet, listing, b.hash, b.faults);
    MarkedNames(fleet.pods, StaleListed(listing, b.hash), b);
    var active := Actives(listing, b.hash);
    GrowExactly(Sift(fleet, listing, b.hash, b.faults).fleet, active, Missing(listing, c, b.hash), c, b, order);
    assert active[..0] == [] && active[0..] == active;
    assert Keys([]) == {};
    assert StaleListed(listing, b.hash) + {} == StaleListed(listing, b.hash);
  }

  lemma ShrunkPool(fleet: Fleet, listing: seq<Pod>, c: Cluster, b: Batch)
    requires FaultFree(b.faults) && Desired(c) <= |Actives(listing, b.hash)|
    ensures var s := Sift(fleet, listing, b.hash, b.faults);
            var g := Shrink(s.fleet, Actives(listing, b.hash), |Actives(listing, b.hash)| - Desired(c), c, b.faults);
            && g.fleet.pods == ResizedPods(fleet.pods, listing, c, b)
            && g.result == Ok(ReportOn(c, ResizedActive(listing, c, b)))
  {
    hide Trim, Sift, ReportOn, Actives;
    SiftExactly(fleet, listing, b.hash, b.faults);
    var s, active := Sift(fleet, listing, b.hash, b.faults), Actives(listing, b.hash);
    var n := Surplus(listing, c, b.hash);
    TrimClosedForm(s.fleet, active[..n], b.faults);
    MarkedTwice(fleet.pods, StaleListed(listing, b.hash), Keys(active[..n]));
    NoNewPods(Marked(fleet.pods, StaleListed(listing, b.hash) + Keys(active[..n])), b);
    assert active[n..] + NewWorkers(b, 0) == active[n..];
  }

  lemma NoNewPods(pods: Pods, b: Batch)
    ensures pods + NewPods(Below(0), b) == pods
  {
    assert NewPods({}, b) == map[];
  }

  // ---------- Which workers are current afterwards ----------

  lemma {:induction false} SlotKeyCount(n: nat, b: Batch, pods: Pods)
    requires FreshNames(pods, b)
    ensures |SlotKeys(Below(n), b)| == n
  {
    if n == 0 {
      assert SlotKeys(Below(0), b) == {};
    } else {
      SlotKeyCount(n - 1, b, pods);
      SlotKeyIsNew(pods, Below(n - 1), n - 1, b);
      hide FreshNames, SlotKeys;
      SlotKeysGrow(Below(n - 1), n - 1, b);
    }
  }

  /** Adding the pods of n slots under fresh names. */
  lemma AddNew(pods: Pods, n: nat, b: Batch)
    requires FreshNames(pods, b)
    ensures var keys := SlotKeys(Below(n), b);
            && |keys| == n && keys !! pods.Keys
            && Current(pods + NewPods(Below(n), b), b) == Current(pods, b) + keys
            && Stale(pods + NewPods(Below(n), b), b) == Stale(pods, b)
  {
    SlotKeyCount(n, b, pods);
    AddAt(pods, SlotKeys(Below(n), b), NewPods(Below(n), b), b);
  }

  lemma AddAt(pods: Pods, keys: set<Key>, added: Pods, b: Batch)
    requires added.Keys == keys && keys !! pods.Keys
    requires forall k :: k in added ==> IsCurrent(added[k], b)
    ensures Current(pods + added, b) == Current(pods, b) + keys
    ensures Stale(pods + added, b) == Stale(pods, b)
  {
  }

  lemma MarkedCurrent(pods: Pods, keys: set<Key>, b: Batch)
    ensures Current(Marked(pods, keys), b) == Current(pods, b) - keys
    ensures Stale(Marked(pods, keys), b) == Stale(pods, b) - keys
  {
  }

  lemma MarkedKeys(pods: Pods, keys: set<Key>)
    ensures Marked(pods, keys).Keys == pods.Keys
  {
  }

  lemma CurrentStored(pods: Pods, b: Batch)
    ensures Current(pods, b) <= pods.Keys
  {
  }

  lemma StaleListedIsNotCurrent(pods: Pods, listing: seq<Pod>, b: Batch)
    requires Listing(listing, pods, b)
    ensures StaleListed(listing, b.hash) !! Current(pods, b)
  {
  }

  lemma CurrentAfter(pods: Pods, listing: seq<Pod>, c: Cluster, b: Batch)
    requires Listing(listing, pods, b) && FreshNames(pods, b)
    ensures var after := ResizedPods(pods, listing, c, b);
            var added := SlotKeys(Below(Missing(listing, c, b.hash)), b);
            && added !! pods.Keys && |added| == Missing(listing, c, b.hash)
            && Current(after, b) == (Current(pods, b) - Released(listing, c, b)) + added
            && |Current(after, b)| == |Current(pods, b) - Released(listing, c, b)| + Missing(listing, c, b.hash)
            && Stale(after, b) == Stale(pods, b) - StaleListed(listing, b.hash) - Released(listing, c, b)
  {
    hide Actives, FreshNames, Current, Stale, StaleListed, Listing, Marked, NewPods, SlotKeys, Below, Missing, Released;
    var gone, n := StaleListed(listing, b.hash) + Released(listing, c, b), Missing(listing, c, b.hash);
    var left := Marked(pods, gone);
    StaleListedIsNotCurrent(pods, listing, b);
    MarkedCurrent(pods, gone, b);
    MarkedNames(pods, gone, b);
    MarkedKeys(pods, gone);
    AddNew(left, n, b);
    CurrentStored(left, b);
    assert Current(left, b) == Current(pods, b) - Released(listing, c, b);
    Disjoint(Current(left, b), SlotKeys(Below(n), b));
  }

  lemma Disjoint<T>(a: set<T>, b: set<T>)
    requires a !! b
    ensures |a + b| == |a| + |b|
  {
  }

  lemma ReleasedAreSeen(pods: Pods, listing: seq<Pod>, c: Cluster, b: Batch)
    requires Listing(listing, pods, b)
    ensures |Keys(Actives(listing, b.hash))| == |Actives(listing, b.hash)|
    ensures Released(listing, c, b) <= Keys(Actives(listing, b.hash))
    ensures |Released(listing, c, b)| == Surplus(listing, c, b.hash)
  {
    ActivesAreCandidates(listing, pods, pods, b);
    ListedKeys(Actives(listing, b.hash));
    PrefixCandidates(Actives(listing, b.hash), Surplus(listing, c, b.hash), pods, b);
  }

  // ---------- Out-of-date listings ----------

  /** The current workers the listing misses, and the workers it shows as current that are not any more. */
  ghost function Missed(pods: Pods, listing: seq<Pod>, b: Batch): set<Key> {
    Current(pods, b) - Keys(Actives(listing, b.hash))
  }

  ghost function Gone(pods: Pods, listing: seq<Pod>, b: Batch): set<Key> {
    Keys(Actives(listing, b.hash)) - Current(pods, b)
  }

  lemma SplitSet<T>(a: set<T>, b: set<T>)
    ensures |a| == |a * b| + |a - b|
  {
    assert a == (a * b) + (a - b);
  }

  /** Staleness bound, exactly: a fault-free pass whose listing misses m current workers and still shows g that are gone
      ends with desired + m - g + d of them, where d counts the released workers among the g. So the count lies between
      desired + m - g and desired + m, and is exactly the desired one when the listing is accurate. */
  lemma StalenessBound(fleet: Fleet, listing: seq<Pod>, c: Cluster, b: Batch, order: seq<nat>)
    requires Listing(listing, fleet.pods, b)
    requires FaultFree(b.faults) && FreshNames(fleet.pods, b) && Complete(order, Missing(listing, c, b.hash))
    ensures var after := Current(Resize(fleet, listing, c, b, order).fleet.pods, b);
            var m, g := |Missed(fleet.pods, listing, b)|, |Gone(fleet.pods, listing, b)|;
            var d := |Released(listing, c, b) * Gone(fleet.pods, listing, b)|;
            && |after| == Desired(c) + m - g + d
            && 0 <= d <= g
            && Desired(c) - g + m <= |after| <= Desired(c) + m
  {
    hide Resize, Actives, Listing, Complete, FreshNames, Current, Released, ReportOn, ResizedPods, ResizedActive;
    ResizeClosedForm(fleet, listing, c, b, order);
    CurrentAfter(fleet.pods, listing, c, b);
    ReleasedAreSeen(fleet.pods, listing, c, b);
    var all, seen, released := Current(fleet.pods, b), Keys(Actives(listing, b.hash)), Released(listing, c, b);
    SplitSet(all, seen);
    SplitSet(seen, all);
    assert seen * all == all * seen;
    SplitSet(all, released);
    SplitSet(released, all);
    assert released * all == all * released;
    assert released - all == released * (seen - all);
    Subset(released * (seen - all), seen - all);
  }

  // ---------- Up-to-date listings ----------

  lemma UpToDateSees(pods: Pods, listing: seq<Pod>, b: Batch)
    requires UpToDate(listing, pods, b)
    ensures Listing(listing, pods, b)
    ensures StaleListed(listing, b.hash) == Stale(pods, b)
    ensures Keys(Actives(listing, b.hash)) == Current(pods, b)
  {
    ActivesAreCurrent(listing, pods, b);
    forall k | k in Stale(pods, b) ensures k in StaleListed(listing, b.hash) {
      var i :| 0 <= i < |listing| && listing[i].key == k;
    }
  }

  ghost function Smaller(a: nat, b: nat): nat { if a < b then a else b }

  /** Functional specification. A fault-free pass with an up-to-date listing leaves exactly the desired number of
      current workers and no stale live one; it keeps as many of the earlier current workers as fit, releasing a prefix
      of the listed ones; and every pod outside the pool is as it was. */
  lemma PassMeetsSpec(fleet: Fleet, listing: seq<Pod>, c: Cluster, b: Batch, order: seq<nat>)
    requires UpToDate(listing, fleet.pods, b)
    requires FaultFree(b.faults) && FreshNames(fleet.pods, b) && Complete(order, Missing(listing, c, b.hash))
    ensures var after := Resize(fleet, listing, c, b, order).fleet.pods;
            var kept := Current(fleet.pods, b) - Released(listing, c, b);
            && |Current(after, b)| == Desired(c)
            && Stale(after, b) == {}
            && kept <= Current(after, b) && |kept| == Smaller(|Current(fleet.pods, b)|, Desired(c))
            && (Released(listing, c, b) == {} || Current(after, b) == kept)
            && OnlyPool(fleet.pods, after, b)
  {
    hide Resize, Actives, Listing, UpToDate, FreshNames, Current, Stale, StaleListed, Released, OnlyPool, ReportOn,
      ResizedPods, ResizedActive, Below, Keys, SlotKeys, Distinct, Elements, FaultFree;
    UpToDateSees(fleet.pods, listing, b);
    PassIsPoolOnly(fleet, listing, c, b, order);
    ResizeClosedForm(fleet, listing, c, b, order);
    CurrentAfter(fleet.pods, listing, c, b);
    ReleasedAreSeen(fleet.pods, listing, c, b);
    SplitSet(Current(fleet.pods, b), Released(listing, c, b));
    assert Current(fleet.pods, b) * Released(listing, c, b) == Released(listing, c, b);
  }
}
