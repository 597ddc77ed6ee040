/** reconcileWorkerPool of internal/controller/polarscluster_controller.go: delete the stale workers, then create the
    missing ones in parallel or delete the surplus, then report. */
module WorkerPool {
  import opened Kube
  import opened Errors
  import opened PolarsCluster
  import opened PodTemplates
  import opened ApiServer
  import opened Readiness

  const MAX_CONCURRENT_POD_CREATIONS := 4

  // ---------- Deleting stale workers ----------

  /** `active` are the live workers of the current template met so far. */
  datatype Sifted = Sifted(fleet: Fleet, active: seq<Pod>, err: Option<Error>)

  function Recreating(pod: Pod): Event {
    Event(Normal, "WorkerPodRecreating", "Deleted worker pod " + pod.key.name + " for a template change")
  }

  function SiftOne(s: Sifted, pod: Pod, hash: string, faults: Faults): Sifted {
    if pod.terminating then s
    else if pod.labels.templateHash != hash then
      var err := DeleteError(s.fleet.pods, pod.key, faults);
      if err.Some? && !IsNotFound(err.value) then s.(err := err)
      else s.(fleet := Record(DeleteFrom(s.fleet, pod.key, ReplaceWorker, faults), Recreating(pod)))
    else s.(active := s.active + [pod])
  }

  /** The listing is processed in order up to the first failed deletion. */
  function Sift(fleet: Fleet, listing: seq<Pod>, hash: string, faults: Faults): Sifted {
    if listing == [] then Sifted(fleet, [], None)
    else var n := |listing| - 1;
         var s := Sift(fleet, listing[..n], hash, faults);
         if s.err.Some? then s else SiftOne(s, listing[n], hash, faults)
  }

  lemma {:induction false} SiftStops(fleet: Fleet, listing: seq<Pod>, i: nat, hash: string, faults: Faults)
    requires i <= |listing| && Sift(fleet, listing[..i], hash, faults).err.Some?
    ensures Sift(fleet, listing, hash, faults) == Sift(fleet, listing[..i], hash, faults)
    decreases |listing| - i
  {
    if i < |listing| {
      assert listing[..i + 1][..i] == listing[..i];
      SiftStops(fleet, listing, i + 1, hash, faults);
    } else {
      assert listing[..i] == listing;
    }
  }

  /** The listed live workers of the current template, in listing order. */
  function Actives(listing: seq<Pod>, hash: string): (r: seq<Pod>)
    ensures |r| <= |listing|
  {
    if listing == [] then []
    else var n := |listing| - 1;
         var r := Actives(listing[..n], hash);
         if !listing[n].terminating && listing[n].labels.templateHash == hash then r + [listing[n]] else r
  }

  lemma {:induction false} SiftKeepsActives(fleet: Fleet, listing: seq<Pod>, hash: string, faults: Faults)
    requires Sift(fleet, listing, hash, faults).err.None?
    ensures Sift(fleet, listing, hash, faults).active == Actives(listing, hash)
  {
    if listing != [] {
      SiftKeepsActives(fleet, listing[..|listing| - 1], hash, faults);
    }
  }

  /** How many workers the listing lacks. */
  function Missing(listing: seq<Pod>, c: Cluster, hash: string): nat {
    var lacking := c.spec.workerPool.replicas as int - |Actives(listing, hash)|;
    if lacking > 0 then lacking else 0
  }

  method DeleteStaleWorkers(server: Server, listing: seq<Pod>, hash: string)
    returns (active: seq<Pod>, err: Option<Error>)
    modifies server`pods, server`writes, server`events
    ensures var s := Sift(old(server.Snapshot()), listing, hash, server.faults);
            server.Snapshot() == s.fleet && active == s.active && err == s.err
  {
    active, err := [], None;
    ghost var before := server.Snapshot();
    for i := 0 to |listing|
      invariant Sifted(server.Snapshot(), active, None) == Sift(before, listing[..i], hash, server.faults)
    {
      assert listing[..i + 1][..i] == listing[..i];
      var pod := listing[i];
      if pod.terminating {
        continue;
      }
      if pod.labels.templateHash != hash {
        err := server.DeletePod(pod.key, ReplaceWorker);
        if err.Some? && !IsNotFound(err.value) {
          SiftStops(before, listing, i + 1, hash, server.faults);
          return;
        }
        server.Eventf(Recreating(pod));
        continue;
      }
      active := active + [pod];
    }
    err := None;
    assert listing[..|listing|] == listing;
  }

  // ---------- Deleting surplus workers ----------

  datatype Trimmed = Trimmed(fleet: Fleet, err: Option<Error>)

  function ScaledDown(pod: Pod): Event {
    Event(Normal, "WorkerPodDeleted", "Deleted worker pod " + pod.key.name)
  }

  function TrimOne(s: Trimmed, pod: Pod, faults: Faults): Trimmed {
    var err := DeleteError(s.fleet.pods, pod.key, faults);
    if err.None? then s.(fleet := Record(DeleteFrom(s.fleet, pod.key, ScaleDown, faults), ScaledDown(pod)))
    else if IsNotFound(err.value) then s
    else s.(err := err)
  }

  function Trim(fleet: Fleet, surplus: seq<Pod>, faults: Faults): Trimmed {
    if surplus == [] then Trimmed(fleet, None)
    else var n := |surplus| - 1;
         var s := Trim(fleet, surplus[..n], faults);
         if s.err.Some? then s else TrimOne(s, surplus[n], faults)
  }

  lemma {:induction false} TrimStops(fleet: Fleet, surplus: seq<Pod>, i: nat, faults: Faults)
    requires i <= |surplus| && Trim(fleet, surplus[..i], faults).err.Some?
    ensures Trim(fleet, surplus, faults) == Trim(fleet, surplus[..i], faults)
    decreases |surplus| - i
  {
    if i < |surplus| {
      assert surplus[..i + 1][..i] == surplus[..i];
      TrimStops(fleet, surplus, i + 1, faults);
    } else {
      assert surplus[..i] == surplus;
    }
  }

  method DeleteSurplusWorkers(server: Server, active: seq<Pod>, count: nat) returns (err: Option<Error>)
    requires count <= |active|
    modifies server`pods, server`writes, server`events
    ensures Trimmed(server.Snapshot(), err) == Trim(old(server.Snapshot()), active[..count], server.faults)
  {
    ghost var before := server.Snapshot();
    for i := 0 to count
      invariant Trimmed(server.Snapshot(), None) == Trim(before, active[..i], server.faults)
    {
      assert active[..i + 1][..i] == active[..i];
      assert active[..count][..i + 1] == active[..i + 1];
      err := server.DeletePod(active[i].key, ScaleDown);
      if err.Some? {
        if IsNotFound(err.value) {
          continue;
        }
        TrimStops(before, active[..count], i + 1, server.faults);
        return;
      }
      server.Eventf(ScaledDown(active[i]));
    }
    err := None;
  }

  // ---------- Creating missing workers ----------

  /** What the creation tasks need: where the pods go, what they carry, and the server's choices. */
  datatype Batch = Batch(namespace: string, cluster: string, hash: string, names: nat -> string, faults: Faults)

  /** The pod of one slot: the template's labels, and a name the server picks. */
  function SlotPod(b: Batch, slot: nat): Pod {
    Pod(Key(b.namespace, b.names(slot)), Labels(b.cluster, COMPONENT_WORKER, b.hash), false, [], [])
  }

  /** A slot is absent while its task has not created anything yet, and for good when the task never ran. */
  datatype Spawned = Spawned(fleet: Fleet, slots: map<nat, Result<Pod, Error>>)

  function SlotResult(pods: Pods, b: Batch, slot: nat): Result<Pod, Error> {
    var err := CreateError(pods, SlotPod(b, slot).key, WorkerCreate(slot), b.faults);
    if err.Some? then Failed(ClassifyAPIError("WorkerPodRejected", err.value)) else Ok(SlotPod(b, slot))
  }

  /** The Create calls in the order they reach the server. */
  function Spawn(fleet: Fleet, order: seq<nat>, b: Batch): Spawned {
    if order == [] then Spawned(fleet, map[])
    else var s, slot := Spawn(fleet, order[..|order| - 1], b), order[|order| - 1];
         Spawned(CreateIn(s.fleet, SlotPod(b, slot), CreateWorker, WorkerCreate(slot), b.faults),
                 s.slots[slot := SlotResult(s.fleet.pods, b, slot)])
  }

  lemma SpawnOn(fleet: Fleet, order: seq<nat>, slot: nat, b: Batch)
    ensures var s := Spawn(fleet, order, b);
            Spawn(fleet, order + [slot], b) ==
            Spawned(CreateIn(s.fleet, SlotPod(b, slot), CreateWorker, WorkerCreate(slot), b.faults),
                    s.slots[slot := SlotResult(s.fleet.pods, b, slot)])
  {
    assert (order + [slot])[..|order|] == order;
  }

  function CreatedAt(slots: map<nat, Result<Pod, Error>>, i: nat): Option<Pod> {
    if i in slots && slots[i].Ok? then Some(slots[i].value) else None
  }

  function ErrorAt(slots: map<nat, Result<Pod, Error>>, i: nat): Option<Error> {
    if i in slots && slots[i].Failed? then Some(slots[i].error) else None
  }

  function CreatedSlots(slots: map<nat, Result<Pod, Error>>, n: nat): (r: seq<Option<Pod>>)
    ensures |r| == n && forall i :: 0 <= i < n ==> r[i] == CreatedAt(slots, i)
  {
    if n == 0 then [] else CreatedSlots(slots, n - 1) + [CreatedAt(slots, n - 1)]
  }

  function ErrorSlots(slots: map<nat, Result<Pod, Error>>, n: nat): (r: seq<Option<Error>>)
    ensures |r| == n && forall i :: 0 <= i < n ==> r[i] == ErrorAt(slots, i)
  {
    if n == 0 then [] else ErrorSlots(slots, n - 1) + [ErrorAt(slots, n - 1)]
  }

  /** An order in which tasks below n made their calls: any subset, any order, each at most once. */
  ghost predicate Schedule(order: seq<nat>, n: nat) {
    Distinct(order) && forall i :: 0 <= i < |order| ==> order[i] < n
  }

  /** The scheduler's state: the next index to hand out, the tasks taken from the queue, and those back from the server
      with their slot unwritten. */
  datatype Tasks = Tasks(next: nat, cancelled: bool, taken: set<nat>, back: map<nat, Result<Pod, Error>>)

  /** What happened so far: the Create calls in order, the slots they decide, and the slots already written. */
  datatype Progress = Progress(order: seq<nat>, slots: map<nat, Result<Pod, Error>>, written: set<nat>)

  ghost predicate InFlight(t: Tasks, p: Progress) {
    && Schedule(p.order, t.next)
    && Elements(p.order) == p.slots.Keys == t.back.Keys + p.written
    && t.back.Keys !! p.written
    && t.taken !! p.slots.Keys
    && (forall i :: i in t.taken ==> i < t.next)
    && (forall i :: i in t.back ==> p.slots[i] == t.back[i])
  }

  /** The slots written so far show their task's outcome, the others nothing. */
  ghost predicate Shown(created: seq<Option<Pod>>, errs: seq<Option<Error>>, p: Progress) {
    && |created| == |errs|
    && (forall i :: 0 <= i < |created| ==> created[i] == if i in p.written then CreatedAt(p.slots, i) else None)
    && (forall i :: 0 <= i < |errs| ==> errs[i] == if i in p.written then ErrorAt(p.slots, i) else None)
  }

  /** The steps left to make. */
  ghost function StepsLeft(t: Tasks, n: nat): int {
    3 * (n - t.next) + 2 * |t.taken| + |t.back| + if t.cancelled then 0 else 1
  }

  function TakeNext(t: Tasks): Tasks {
    t.(taken := t.taken + {t.next}, next := t.next + 1)
  }

  lemma TakeNextKeeps(t: Tasks, p: Progress, n: nat)
    requires InFlight(t, p)
    ensures InFlight(TakeNext(t), p) && StepsLeft(TakeNext(t), n) == StepsLeft(t, n) - 1
  {
    assert t.next !in t.taken;
    assert |t.taken + {t.next}| == |t.taken| + 1;
    forall i | i in p.slots ensures i < t.next { assert i in Elements(p.order); }
  }

  function Call(t: Tasks, i: nat, r: Result<Pod, Error>): Tasks {
    t.(taken := t.taken - {i}, back := t.back[i := r])
  }

  function Called(p: Progress, i: nat, r: Result<Pod, Error>): Progress {
    p.(order := p.order + [i], slots := p.slots[i := r])
  }

  lemma CallKeeps(t: Tasks, p: Progress, i: nat, r: Result<Pod, Error>)
    requires InFlight(t, p) && i in t.taken
    ensures InFlight(Call(t, i, r), Called(p, i, r)) && i !in p.written
  {
    assert i !in Elements(p.order);
    assert Elements(p.order + [i]) == Elements(p.order) + {i};
    assert t.back[i := r].Keys == t.back.Keys + {i};
  }

  lemma CallAdvances(t: Tasks, i: nat, r: Result<Pod, Error>, n: nat)
    requires i in t.taken && i !in t.back
    ensures StepsLeft(Call(t, i, r), n) == StepsLeft(t, n) - 1
  {
    assert |t.taken - {i}| == |t.taken| - 1;
    assert |t.back[i := r]| == |t.back| + 1;
  }

  function Write(t: Tasks, i: nat): Tasks {
    t.(back := t.back - {i})
  }

  lemma WriteKeeps(t: Tasks, p: Progress, i: nat, n: nat)
    requires InFlight(t, p) && i in t.back
    ensures InFlight(Write(t, i), p.(written := p.written + {i})) && StepsLeft(Write(t, i), n) < StepsLeft(t, n)
    ensures i < t.next && i in p.slots && i !in p.written && p.slots[i] == t.back[i]
  {
    assert i in Elements(p.order);
    assert (t.back - {i}).Keys == t.back.Keys - {i};
    assert |t.back - {i}| == |(t.back - {i}).Keys| < |t.back.Keys| == |t.back|;
  }

  function Drop(t: Tasks, i: nat): Tasks {
    t.(taken := t.taken - {i})
  }

  lemma DropKeeps(t: Tasks, p: Progress, i: nat, n: nat)
    requires InFlight(t, p) && i in t.taken
    ensures InFlight(Drop(t, i), p) && StepsLeft(Drop(t, i), n) < StepsLeft(t, n)
  {
    assert |t.taken - {i}| == |t.taken| - 1;
  }

  function Cancel(t: Tasks): Tasks {
    t.(cancelled := true)
  }

  lemma CancelKeeps(t: Tasks, p: Progress, n: nat)
    requires InFlight(t, p) && !t.cancelled
    ensures InFlight(Cancel(t), p) && StepsLeft(Cancel(t), n) < StepsLeft(t, n)
  {
  }

  /** More calls were made; the slots already written are the same. */
  ghost predicate Extends(after: Progress, p: Progress) {
    && after.written == p.written
    && forall i :: i in p.written ==> i in p.slots && i in after.slots && after.slots[i] == p.slots[i]
  }

  lemma ShownExtends(created: seq<Option<Pod>>, errs: seq<Option<Error>>, p: Progress, after: Progress)
    requires Shown(created, errs, p) && Extends(after, p)
    ensures Shown(created, errs, after)
  {
  }

  method MakeCall(server: Server, b: Batch, t: Tasks, i: nat, ghost before: Fleet, ghost p: Progress, ghost n: nat)
    returns (after: Tasks, ghost progress: Progress)
    requires b.faults == server.faults && InFlight(t, p) && i in t.taken
    requires Spawned(server.Snapshot(), p.slots) == Spawn(before, p.order, b)
    modifies server`pods, server`writes
    ensures InFlight(after, progress) && StepsLeft(after, n) < StepsLeft(t, n)
    ensures after.next == t.next && Extends(progress, p)
    ensures Spawned(server.Snapshot(), progress.slots) == Spawn(before, progress.order, b)
  {
    hide Spawn, StepsLeft, SlotPod, CreateIn, SlotResult, Schedule;
    var r := CreateWorkerPod(server, b, i);
    SpawnOn(before, p.order, i, b);
    CallKeeps(t, p, i, r);
    assert i !in t.back;
    CallAdvances(t, i, r, n);
    after, progress := Call(t, i, r), Called(p, i, r);
  }

  method WriteSlot(created: array<Option<Pod>>, errs: array<Option<Error>>, i: nat, r: Result<Pod, Error>,
                   ghost p: Progress)
    requires i < created.Length == errs.Length && created != errs as object
    requires Shown(created[..], errs[..], p)
    requires i in p.slots && p.slots[i] == r && i !in p.written
    modifies created, errs
    ensures Shown(created[..], errs[..], p.(written := p.written + {i}))
  {
    if r.Failed? {
      errs[i] := Some(r.error);
    } else {
      created[i] := Some(r.value);
    }
  }

  ghost predicate Running(fleet: Fleet, before: Fleet, b: Batch, t: Tasks, p: Progress) {
    InFlight(t, p) && Spawned(fleet, p.slots) == Spawn(before, p.order, b)
  }

  /** One step of some task, or the cancellation. */
  method Step(server: Server, b: Batch, created: array<Option<Pod>>, errs: array<Option<Error>>, t: Tasks,
              ghost before: Fleet, ghost p: Progress)
    returns (after: Tasks, ghost progress: Progress)
    requires created.Length == errs.Length && created != errs as object && b.faults == server.faults
    requires t.next <= created.Length && Running(server.Snapshot(), before, b, t, p) && Shown(created[..], errs[..], p)
    requires t.taken != {} || |t.back| > 0 || (!t.cancelled && t.next < created.Length)
    modifies server`pods, server`writes, created, errs
    ensures after.next <= created.Length && Running(server.Snapshot(), before, b, after, progress)
    ensures Shown(created[..], errs[..], progress)
    ensures StepsLeft(after, created.Length) < StepsLeft(t, created.Length)
  {
    hide InFlight, StepsLeft, Shown, Spawn, Extends;
    ghost var n := created.Length;
    after, progress := t, p;
    if
    case !t.cancelled && t.next < created.Length && |t.taken| + |t.back| < MAX_CONCURRENT_POD_CREATIONS =>
      TakeNextKeeps(t, p, n);
      after := TakeNext(t);
    case t.taken != {} =>
      var i :| i in t.taken;
      ghost var pods, failures := created[..], errs[..];
      after, progress := MakeCall(server, b, t, i, before, p, n);
      assert created[..] == pods && errs[..] == failures;
      ShownExtends(pods, failures, p, progress);
    case |t.back| > 0 =>
      var i :| i in t.back;
      WriteKeeps(t, p, i, n);
      WriteSlot(created, errs, i, t.back[i], p);
      after, progress := Write(t, i), p.(written := p.written + {i});
    case !t.cancelled =>
      CancelKeeps(t, p, n);
      after := Cancel(t);
    case t.cancelled && t.taken != {} =>
      var i :| i in t.taken;
      DropKeeps(t, p, i, n);
      after := Drop(t, i);
  }

  /** workqueue.ParallelizeUntil over the creation task. The loop is its scheduler: workers take indices in order, at
      most four at a time, each task makes its Create call and later writes its own slot, and any of these steps may
      come next. Once the context is cancelled no index is taken any more, and a task taken but not yet started is
      dropped. */
  method ParallelizeCreates(server: Server, b: Batch, created: array<Option<Pod>>, errs: array<Option<Error>>)
    returns (ghost order: seq<nat>)
    requires created.Length == errs.Length && created != errs as object && b.faults == server.faults
    requires Shown(created[..], errs[..], Progress([], map[], {}))
    modifies server`pods, server`writes, created, errs
    ensures Schedule(order, created.Length)
    ensures server.Snapshot() == Spawn(old(server.Snapshot()), order, b).fleet
    ensures var slots := Spawn(old(server.Snapshot()), order, b).slots;
            && created[..] == CreatedSlots(slots, created.Length)
            && errs[..] == ErrorSlots(slots, errs.Length)
  {
    var t := Tasks(0, false, {}, map[]);
    ghost var before, p := server.Snapshot(), Progress([], map[], {});
    while t.taken != {} || |t.back| > 0 || (!t.cancelled && t.next < created.Length)
      invariant t.next <= created.Length && Running(server.Snapshot(), before, b, t, p)
      invariant Shown(created[..], errs[..], p)
      decreases StepsLeft(t, created.Length)
    {
      t, p := Step(server, b, created, errs, t, before, p);
    }
    order := p.order;
    FinishedSlots(created[..], errs[..], p, t);
  }

  /** Once nothing is in flight, every slot the calls decided has been written. */
  lemma FinishedSlots(created: seq<Option<Pod>>, errs: seq<Option<Error>>, p: Progress, t: Tasks)
    requires Shown(created, errs, p) && InFlight(t, p) && |t.back| == 0
    ensures created == CreatedSlots(p.slots, |created|) && errs == ErrorSlots(p.slots, |errs|)
  {
    assert t.back.Keys == {};
  }

  method CreateWorkerPod(server: Server, b: Batch, slot: nat) returns (r: Result<Pod, Error>)
    requires b.faults == server.faults
    modifies server`pods, server`writes
    ensures server.Snapshot() ==
            CreateIn(old(server.Snapshot()), SlotPod(b, slot), CreateWorker, WorkerCreate(slot), b.faults)
    ensures r == SlotResult(old(server.pods), b, slot)
  {
    var pod := SlotPod(b, slot);
    var err := server.CreatePod(pod, WorkerCreate(slot), CreateWorker);
    if err.Some? {
      return Failed(ClassifyAPIError("WorkerPodRejected", err.value));
    }
    return Ok(pod);
  }

  // ---------- After the fan-out ----------

  function WorkerCreated(pod: Pod): Event {
    Event(Normal, "WorkerPodCreated", "Created worker pod " + pod.key.name)
  }

  datatype Announced = Announced(fleet: Fleet, active: seq<Pod>)

  /** The pods that were created are announced and join the active ones, in slot order. */
  function Announce(fleet: Fleet, active: seq<Pod>, created: seq<Option<Pod>>): Announced {
    if created == [] then Announced(fleet, active)
    else var n := |created| - 1;
         var a := Announce(fleet, active, created[..n]);
         match created[n]
         case None => a
         case Some(pod) => Announced(Record(a.fleet, WorkerCreated(pod)), a.active + [pod])
  }

  method AnnounceCreated(server: Server, before: seq<Pod>, created: array<Option<Pod>>) returns (active: seq<Pod>)
    modifies server`events
    ensures Announced(server.Snapshot(), active) == Announce(old(server.Snapshot()), before, created[..])
  {
    active := before;
    ghost var start := server.Snapshot();
    for i := 0 to created.Length
      invariant Announced(server.Snapshot(), active) == Announce(start, before, created[..i])
    {
      assert created[..i + 1][..i] == created[..i];
      if created[i].None? {
        continue;
      }
      var pod := created[i].value;
      server.Eventf(WorkerCreated(pod));
      active := active + [pod];
    }
    assert created[..created.Length] == created[..];
  }

  // ---------- Reporting ----------

  function CountReady(active: seq<Pod>): (n: nat)
    ensures n <= |active|
  {
    if active == [] then 0
    else CountReady(active[..|active| - 1]) + if PodIsReady(active[|active| - 1]) then 1 else 0
  }

  function FirstNotReady(active: seq<Pod>): Option<Pod> {
    if active == [] then None
    else var earlier, last := FirstNotReady(active[..|active| - 1]), active[|active| - 1];
         if earlier.Some? then earlier else if PodIsReady(last) then None else Some(last)
  }

  /** Go's int32 conversion, which wraps around. */
  function ToInt32(n: int): int32 {
    ((n + 0x8000_0000) % 0x1_0000_0000 - 0x8000_0000) as int32
  }

  lemma NoWrap(n: nat)
    requires n <= 0x7fff_ffff
    ensures ToInt32(n) as int == n
  {
  }

  datatype Report = Report(status: WorkerPoolStatus, message: string)

  function Selector(c: Cluster): string {
    "compute.pola.rs/cluster=" + c.key.name + ",compute.pola.rs/component=worker"
  }

  function ReportOn(c: Cluster, active: seq<Pod>): Report {
    var status := WorkerPoolStatus(ToInt32(|active|), ToInt32(CountReady(active)), Selector(c));
    var desired := c.spec.workerPool.replicas;
    var message :=
      if status.replicas != desired then
        FormatInt(status.replicas as int) + "/" + FormatInt(desired as int) + " desired worker pods exist"
      else if FirstNotReady(active).Some? then
        var pod := FirstNotReady(active).value;
        "worker pod " + pod.key.name + ": " + PodNotReadyMessage(pod)
      else "";
    Report(status, message)
  }

  method ReportWorkers(c: Cluster, active: seq<Pod>) returns (report: Report)
    requires |active| <= c.spec.workerPool.replicas as int
    ensures report == ReportOn(c, active)
  {
    hide ToInt32, FormatInt, PodIsReady, PodNotReadyMessage, Selector;
    NoWrap(|active|);
    NoWrap(CountReady(active));
    var readyReplicas: int32 := 0;
    var notReadyPod: Option<Pod> := None;
    for i := 0 to |active|
      invariant readyReplicas as int == CountReady(active[..i])
      invariant notReadyPod == FirstNotReady(active[..i])
    {
      assert active[..i + 1][..i] == active[..i];
      var ready := CheckPodIsReady(active[i]);
      if ready {
        readyReplicas := readyReplicas + 1;
      } else if notReadyPod.None? {
        notReadyPod := Some(active[i]);
      }
    }
    assert active[..|active|] == active;
    var status := WorkerPoolStatus(|active| as int32, readyReplicas, Selector(c));
    var message := "";
    if status.replicas != c.spec.workerPool.replicas {
      message := FormatInt(status.replicas as int) + "/" + FormatInt(c.spec.workerPool.replicas as int)
                 + " desired worker pods exist";
    } else if notReadyPod.Some? {
      var why := ExplainPodNotReady(notReadyPod.value);
      message := "worker pod " + notReadyPod.value.key.name + ": " + why;
    }
    report := Report(status, message);
  }

  // ---------- The whole pass ----------

  datatype WorkerOutcome = WorkerOutcome(fleet: Fleet, result: Result<Report, Error>)

  /** The pass once stale workers are gone and `lacking` > 0 workers are missing. */
  function Grow(fleet: Fleet, active: seq<Pod>, lacking: nat, c: Cluster, b: Batch, order: seq<nat>): WorkerOutcome {
    var spawned := Spawn(fleet, order, b);
    var announced := Announce(spawned.fleet, active, CreatedSlots(spawned.slots, lacking));
    match Reduce(ErrorSlots(spawned.slots, lacking)).err
    case Some(e) => WorkerOutcome(announced.fleet, Failed(e))
    case None => WorkerOutcome(announced.fleet, Ok(ReportOn(c, announced.active)))
  }

  /** The pass once stale workers are gone and `surplus` > 0 workers are too many. */
  function Shrink(fleet: Fleet, active: seq<Pod>, surplus: nat, c: Cluster, faults: Faults): WorkerOutcome
    requires surplus <= |active|
  {
    var trimmed := Trim(fleet, active[..surplus], faults);
    match trimmed.err
    case Some(e) => WorkerOutcome(trimmed.fleet, Failed(e))
    case None => WorkerOutcome(trimmed.fleet, Ok(ReportOn(c, active[surplus..])))
  }

  /** The pass on a listing, for a template with the given hash. */
  function Resize(fleet: Fleet, listing: seq<Pod>, c: Cluster, b: Batch, order: seq<nat>): WorkerOutcome {
    var s := Sift(fleet, listing, b.hash, b.faults);
    var desired := c.spec.workerPool.replicas as int;
    if s.err.Some? then WorkerOutcome(s.fleet, Failed(s.err.value))
    else if desired > |s.active| then Grow(s.fleet, s.active, desired - |s.active|, c, b, order)
    else Shrink(s.fleet, s.active, |s.active| - desired, c, b.faults)
  }

  function BatchOf(c: Cluster, spec: PodSpec, lib: Library, names: nat -> string, faults: Faults): Batch {
    Batch(c.key.namespace, c.key.name, lib.templateHash(spec), names, faults)
  }

  /** `template` is the result of building the worker template. */
  function WorkerPass(fleet: Fleet, listing: seq<Pod>, c: Cluster, template: Result<PodSpec, Error>, lib: Library,
                      names: nat -> string, faults: Faults, order: seq<nat>): WorkerOutcome {
    match template
    case Failed(e) => WorkerOutcome(fleet, Failed(e))
    case Ok(spec) =>
      if faults(WorkerList).Some? then WorkerOutcome(fleet, Failed(faults(WorkerList).value))
      else Resize(fleet, listing, c, BatchOf(c, spec, lib, names, faults), order)
  }

  /** The creation tasks of a pass run in some order, each at most once, below the number of missing workers. */
  ghost predicate PassSchedule(listing: seq<Pod>, c: Cluster, template: Result<PodSpec, Error>, lib: Library,
                               order: seq<nat>) {
    template.Ok? && Schedule(order, Missing(listing, c, lib.templateHash(template.value)))
  }

  method ReconcileWorkerPool(server: Server, c: Cluster, lib: Library)
    returns (result: Result<Report, Error>, ghost order: seq<nat>)
    modifies server`pods, server`writes, server`events
    ensures WorkerOutcome(server.Snapshot(), result) ==
            WorkerPass(old(server.Snapshot()), server.cache.workers, c, WorkerTemplate(c, lib), lib, server.names,
                       server.faults, order)
    ensures order == [] || PassSchedule(server.cache.workers, c, WorkerTemplate(c, lib), lib, order)
  {
    hide WorkerTemplate;
    order := [];
    var podTemplate := BuildWorkerPodTemplate(c, lib);
    if podTemplate.Failed? {
      return Failed(podTemplate.error), [];
    }
    if server.faults(WorkerList).Some? {
      return Failed(server.faults(WorkerList).value), [];
    }
    var b := BatchOf(c, podTemplate.value, lib, server.names, server.faults);
    result, order := ResizeWorkers(server, c, b);
  }

  method ResizeWorkers(server: Server, c: Cluster, b: Batch)
    returns (result: Result<Report, Error>, ghost order: seq<nat>)
    requires b.faults == server.faults
    modifies server`pods, server`writes, server`events
    ensures WorkerOutcome(server.Snapshot(), result) == Resize(old(server.Snapshot()), server.cache.workers, c, b, order)
    ensures Schedule(order, Missing(server.cache.workers, c, b.hash))
  {
    order := [];
    var active, err := DeleteStaleWorkers(server, server.cache.workers, b.hash);
    if err.Some? {
      return Failed(err.value), [];
    }
    SiftKeepsActives(old(server.Snapshot()), server.cache.workers, b.hash, server.faults);
    var lackingPodCount := c.spec.workerPool.replicas as int - |active|;
    if lackingPodCount > 0 {
      result, order := GrowPool(server, active, lackingPodCount, c, b);
    } else {
      result := ShrinkPool(server, active, -lackingPodCount, c);
    }
  }

  method GrowPool(server: Server, active: seq<Pod>, lacking: nat, c: Cluster, b: Batch)
    returns (result: Result<Report, Error>, ghost order: seq<nat>)
    requires b.faults == server.faults && |active| + lacking == c.spec.workerPool.replicas as int
    modifies server`pods, server`writes, server`events
    ensures WorkerOutcome(server.Snapshot(), result) == Grow(old(server.Snapshot()), active, lacking, c, b, order)
    ensures Schedule(order, lacking)
  {
    var created, errs := new Option<Pod>[lacking](_ => None), new Option<Error>[lacking](_ => None);
    order := ParallelizeCreates(server, b, created, errs);
    ghost var spawned := server.Snapshot();
    AnnounceBound(spawned, active, created[..]);
    var all := AnnounceCreated(server, active, created);
    var _, err := ReducePodErrors(errs[..]);
    if err.Some? {
      return Failed(err.value), order;
    }
    var report := ReportWorkers(c, all);
    return Ok(report), order;
  }

  method ShrinkPool(server: Server, active: seq<Pod>, surplus: nat, c: Cluster) returns (result: Result<Report, Error>)
    requires surplus + c.spec.workerPool.replicas as int == |active|
    modifies server`pods, server`writes, server`events
    ensures WorkerOutcome(server.Snapshot(), result) == Shrink(old(server.Snapshot()), active, surplus, c, server.faults)
  {
    var err := DeleteSurplusWorkers(server, active, surplus);
    if err.Some? {
      return Failed(err.value);
    }
    var report := ReportWorkers(c, active[surplus..]);
    return Ok(report);
  }

  lemma {:induction false} AnnounceBound(fleet: Fleet, active: seq<Pod>, created: seq<Option<Pod>>)
    ensures |Announce(fleet, active, created).active| <= |active| + |created|
  {
    if created != [] {
      AnnounceBound(fleet, active, created[..|created| - 1]);
    }
  }
}
