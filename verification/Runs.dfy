/** Runs: any interleaving of reconciles, with any reads, failures and cancellations, and of the environment's steps;
    and what holds of the persisted statuses and the recorded events throughout. */
module Runs {
  import opened Kube
  import opened Errors
  import opened PolarsCluster
  import opened ApiServer
  import opened Conditions
  import opened Reconcile
  import opened StatusLaws
  import opened PassEvents
  import opened SpecReasons
  import WorkerPool
  import Services

  // ---------- Steps and runs ----------

  /** A user's edit of the resource: the generation moves with the spec, the status is the operator's. */
  predicate Edited(a: Cluster, b: Cluster) {
    b == a.(spec := b.spec, metadata := b.metadata,
            generation := if b.spec != a.spec then a.generation + 1 else a.generation)
  }

  /** The environment may edit the resource and change pods, accounts, services and routes in any way at all; it does
      not write the status or record events. */
  ghost predicate EnvironmentStep(w: World, v: World) {
    && v.fleet.events == w.fleet.events && v.fleet.writes == w.fleet.writes
    && (v.history == w.history
        || (|v.history| == |w.history| + 1 && w.history < v.history && w.history != []
            && Edited(w.history[|w.history| - 1], v.history[|w.history|])))
  }

  datatype Action = Environment | Pass(inputs: Inputs, choice: Choice)

  ghost predicate Allowed(w: World, i: Inputs, choice: Choice) {
    && CachedVersion(w.history, i.cache) && Genuine(i.faults) && NamedTemplates(i.templates)
    && WorkerPool.Schedule(choice.services, Services.SERVICE_COUNT)
  }

  ghost predicate Step(w: World, a: Action, v: World) {
    match a
    case Environment => EnvironmentStep(w, v)
    case Pass(i, choice) => Allowed(w, i, choice) && v == ReconcileOnce(w, i, choice).world
  }

  /** `worlds[k]` becomes `worlds[k + 1]` by `actions[k]`. */
  ghost predicate Run(worlds: seq<World>, actions: seq<Action>) {
    && |worlds| == |actions| + 1
    && forall k :: 0 <= k < |actions| ==> Step(worlds[k], actions[k], worlds[k + 1])
  }

  predicate Initial(w: World) {
    && |w.history| == 1
    && w.history[0].status == Status([], 0, SchedulerStatus(false), WorkerPoolStatus(0, 0, ""))
    && w.fleet.events == [] && w.fleet.writes == []
  }

  // ---------- What one reconcile does to the history and the events ----------

  function Last(w: World): Cluster
    requires w.history != []
  {
    w.history[|w.history| - 1]
  }

  predicate IsReady(w: World)
    requires w.history != []
  {
    Holds(Last(w).status, READY)
  }

  /** The events a reconcile adds after those of its stages. */
  datatype Word = Nothing | Told(event: Event)

  function WordOf(w: World, v: World, f: Findings): Word
    requires w.history != [] && v.history != []
  {
    match f
    case Unexpected(_) => Nothing
    case SpecFailure(_, se, _) => if se.Spec? then Told(Event(Warning, se.reason, Text(se))) else Nothing
    case Full(s, workers, routes) =>
      if !IsReady(w) && IsReady(v) then Told(BECAME_READY)
      else if IsReady(w) && !IsReady(v) then Told(Event(Warning, NOT_READY, ReadyMessage(Last(w), s, workers, routes)))
      else Nothing
  }

  function Said(events: seq<Event>, word: Word): seq<Event> {
    match word case Nothing => events case Told(e) => events + [e]
  }

  /** A reconcile either leaves the history alone or appends the status it asked for to the version it read, which was
      then the last; its own event, if any, follows from the readiness persisted before and after. */
  ghost predicate Effect(w: World, v: World, c: Cluster, f: Findings, staged: seq<Event>) {
    && w.history != [] && v.history != []
    && QuietlyExtends(w.fleet.events, staged)
    && (v.history == w.history
        || (c == Last(w) && Sound(c, f) && AskedStatus(c, f).Some?
            && v.history == w.history + [c.(status := AskedStatus(c, f).value)]))
    && v.fleet.events == Said(staged, WordOf(w, v, f))
  }

  lemma ConcludeEffect(w: World, g: World, read: nat, f: Findings, faults: Faults)
    requires read < |w.history| && g.history == w.history && QuietlyExtends(w.fleet.events, g.fleet.events)
    requires Sound(w.history[read], f)
    ensures Effect(w, Conclude(g, read, w.history[read], f, faults).world, w.history[read], f, g.fleet.events)
  {
    hide FullStatus, SpecErrorStatus, Find, Sound, Text, ReadyMessage, QuietlyExtends;
    SoundSpec(w.history[read], f);
  }

  lemma SoundSpec(c: Cluster, f: Findings)
    requires Sound(c, f)
    ensures f.SpecFailure? ==> f.failure.Spec?
  {
  }

  /** The version a reconcile works on; the first one stands in when the read fails. */
  function VersionRead(w: World, i: Inputs): Cluster
    requires w.history != [] && CachedVersion(w.history, i.cache)
  {
    if ClusterGetError(i.cache, i.faults).Some? || i.cache.cluster.None? then w.history[0]
    else w.history[i.cache.cluster.value]
  }

  /** What its stages find, and the events they record. */
  function Staged(w: World, i: Inputs, choice: Choice): (Findings, seq<Event>)
    requires w.history != [] && CachedVersion(w.history, i.cache)
    requires WorkerPool.Schedule(choice.services, Services.SERVICE_COUNT)
  {
    match ClusterGetError(i.cache, i.faults)
    case Some(e) => (Unexpected(e), w.fleet.events)
    case None => var g := Gather(w, VersionRead(w, i), i, choice); (g.findings, g.world.fleet.events)
  }

  lemma PassEffect(w: World, i: Inputs, choice: Choice)
    requires w.history != [] && Allowed(w, i, choice)
    ensures var (f, events) := Staged(w, i, choice);
            Sound(VersionRead(w, i), f) && Effect(w, ReconcileOnce(w, i, choice).world, VersionRead(w, i), f, events)
  {
    hide Gather, Conclude, Sound, Effect, QuietlyExtends;
    if ClusterGetError(i.cache, i.faults).Some? {
      UnexpectedEffect(w, w.history[0], ClusterGetError(i.cache, i.faults).value);
    } else {
      var read := i.cache.cluster.value;
      var g := Gather(w, w.history[read], i, choice);
      GatherEvents(w, w.history[read], i, choice);
      GatherIsSound(w, w.history[read], i, choice);
      ConcludeEffect(w, g.world, read, g.findings, i.faults);
    }
  }

  lemma UnexpectedEffect(w: World, c: Cluster, e: Error)
    requires w.history != []
    ensures Sound(c, Unexpected(e)) && Effect(w, w, c, Unexpected(e), w.fleet.events)
  {
    QuietSelf(w.fleet.events);
  }

  // ---------- The invariant of the history ----------

  predicate Follows(a: Cluster, b: Cluster) {
    && b.key == a.key && b.uid == a.uid
    && a.generation <= b.generation && (b.generation == a.generation ==> b.spec == a.spec)
    && a.status.observedGeneration <= b.status.observedGeneration
  }

  ghost predicate GoodVersion(c: Cluster) {
    GoodStatus(c.status) && Tracks(c.status, c.generation)
  }

  ghost predicate GoodHistory(history: seq<Cluster>) {
    && history != []
    && (forall k :: 0 <= k < |history| ==> GoodVersion(history[k]))
    && (forall k :: 0 <= k < |history| - 1 ==> Follows(history[k], history[k + 1]))
  }

  lemma Appended(history: seq<Cluster>, c: Cluster)
    requires GoodHistory(history) && GoodVersion(c) && Follows(history[|history| - 1], c)
    ensures GoodHistory(history + [c])
  {
    hide GoodVersion, Follows;
    var h := history + [c];
    forall k | 0 <= k < |h| - 1 ensures Follows(h[k], h[k + 1]) {
      if k == |history| - 1 { assert h[k] == history[k] && h[k + 1] == c; }
    }
  }

  lemma EffectKeepsHistory(w: World, v: World, c: Cluster, f: Findings, staged: seq<Event>)
    requires GoodHistory(w.history) && Effect(w, v, c, f, staged)
    ensures GoodHistory(v.history) && w.history <= v.history
  {
    if v.history != w.history {
      var status := AskedStatus(c, f).value;
      hide GoodHistory, Sound, AskedStatus;
      LastIsGood(w.history);
      AskedStatusIsGood(c, f);
      hide GoodStatus;
      Appended(w.history, c.(status := status));
    }
  }

  lemma LastIsGood(history: seq<Cluster>)
    requires GoodHistory(history)
    ensures history != [] && GoodVersion(history[|history| - 1])
  {
  }

  lemma EditKeepsHistory(w: World, v: World)
    requires GoodHistory(w.history) && EnvironmentStep(w, v)
    ensures GoodHistory(v.history) && w.history <= v.history
    ensures IsReady(w) == IsReady(v) && v.fleet.events == w.fleet.events
  {
    if v.history != w.history {
      var c, d := Last(w), v.history[|w.history|];
      assert v.history == w.history + [d];
      hide GoodStatus, Find;
      Appended(w.history, d);
    }
  }

  // ---------- Alternation of events ----------

  ghost predicate WarnedBetween(events: seq<Event>, i: int, j: int) {
    exists k :: i < k < j && 0 <= k < |events| && events[k].etype == Warning
  }

  /** Between two announcements of readiness there is a warning. */
  ghost predicate Alternating(events: seq<Event>) {
    forall i, j :: 0 <= i < j < |events| && events[i] == BECAME_READY && events[j] == BECAME_READY ==>
      WarnedBetween(events, i, j)
  }

  /** Readiness was announced and not taken back since. */
  ghost predicate ReadyStands(events: seq<Event>) {
    exists i :: 0 <= i < |events| && events[i] == BECAME_READY && !WarnedBetween(events, i, |events|)
  }

  /** An announcement that stands is true of the persisted status. */
  ghost predicate Announced(w: World) {
    w.history != [] && Alternating(w.fleet.events) && (ReadyStands(w.fleet.events) ==> IsReady(w))
  }

  lemma WarnedPrefix(before: seq<Event>, after: seq<Event>, i: int, j: int)
    requires before <= after && j <= |before|
    ensures WarnedBetween(before, i, j) == WarnedBetween(after, i, j)
  {
    if WarnedBetween(before, i, j) {
      var k :| i < k < j && 0 <= k < |before| && before[k].etype == Warning;
      assert after[k].etype == Warning;
    }
    if WarnedBetween(after, i, j) {
      var k :| i < k < j && 0 <= k < |after| && after[k].etype == Warning;
      assert before[k].etype == Warning;
    }
  }

  /** Pod events leave both facts as they were. */
  lemma QuietKeeps(before: seq<Event>, after: seq<Event>)
    requires QuietlyExtends(before, after) && Alternating(before)
    ensures Alternating(after) && (ReadyStands(after) ==> ReadyStands(before))
  {
    hide WarnedBetween;
    forall i, j | 0 <= i < j < |after| && after[i] == BECAME_READY && after[j] == BECAME_READY
      ensures WarnedBetween(after, i, j)
    {
      WarnedPrefix(before, after, i, j);
      assert before[i] == after[i] && before[j] == after[j];
    }
    if ReadyStands(after) {
      var i :| 0 <= i < |after| && after[i] == BECAME_READY && !WarnedBetween(after, i, |after|);
      assert before[i] == BECAME_READY;
      WarnedPrefix(before, after, i, |before|);
      WarnedShorter(after, i, |before|, |after|);
    }
  }

  lemma WarnedShorter(events: seq<Event>, i: int, j: int, k: int)
    requires j <= k
    ensures WarnedBetween(events, i, j) ==> WarnedBetween(events, i, k)
  {
  }

  lemma WarningEnds(events: seq<Event>, e: Event)
    requires Alternating(events) && e.etype == Warning
    ensures Alternating(events + [e]) && !ReadyStands(events + [e])
  {
    var after := events + [e];
    forall i, j | 0 <= i < j < |after| && after[i] == BECAME_READY && after[j] == BECAME_READY
      ensures WarnedBetween(after, i, j)
    {
      WarnedPrefix(events, after, i, j);
    }
    forall i | 0 <= i < |after| && after[i] == BECAME_READY
      ensures WarnedBetween(after, i, |after|)
    {
      assert after[|events|].etype == Warning;
    }
  }

  lemma AnnouncementFollowsWarning(events: seq<Event>)
    requires Alternating(events) && !ReadyStands(events)
    ensures Alternating(events + [BECAME_READY])
  {
    hide WarnedBetween;
    var after := events + [BECAME_READY];
    forall i, j | 0 <= i < j < |after| && after[i] == BECAME_READY && after[j] == BECAME_READY
      ensures WarnedBetween(after, i, j)
    {
      WarnedPrefix(events, after, i, j);
      assert events[i] == BECAME_READY;
    }
  }

  lemma EffectKeepsAnnounced(w: World, v: World, c: Cluster, f: Findings, staged: seq<Event>)
    requires GoodHistory(w.history) && Announced(w) && Effect(w, v, c, f, staged)
    ensures Announced(v)
  {
    QuietKeeps(w.fleet.events, staged);
    WordFollowsReadiness(w, v, c, f, staged);
    hide Alternating, ReadyStands, QuietlyExtends, GoodHistory, AskedStatus, Sound, IsReady, Text, ReadyMessage;
    match WordOf(w, v, f)
    case Nothing =>
    case Told(e) =>
      if e.etype == Warning {
        WarningEnds(staged, e);
      } else {
        AnnouncementFollowsWarning(staged);
      }
  }

  /** A word of nothing leaves readiness as it was. */
  lemma WordFollowsReadiness(w: World, v: World, c: Cluster, f: Findings, staged: seq<Event>)
    requires GoodHistory(w.history) && Effect(w, v, c, f, staged)
    ensures WordOf(w, v, f).Nothing? ==> IsReady(w) == IsReady(v)
    ensures WordOf(w, v, f) == Told(BECAME_READY) ==> IsReady(v) && !IsReady(w)
    ensures WordOf(w, v, f).Told? ==> WordOf(w, v, f).event.etype == Warning || WordOf(w, v, f).event == BECAME_READY
  {
    hide Find, FullStatus, SpecErrorStatus, Text, ReadyMessage, QuietlyExtends, GoodHistory;
  }

  // ---------- The theorems ----------

  lemma InitialIsGood(w: World)
    requires Initial(w)
    ensures GoodHistory(w.history) && Announced(w)
  {
  }

  lemma StepKeepsAll(w: World, a: Action, v: World)
    requires GoodHistory(w.history) && Announced(w) && Step(w, a, v)
    ensures GoodHistory(v.history) && Announced(v) && w.history <= v.history
  {
    match a
    case Environment =>
      EditKeepsHistory(w, v);
    case Pass(i, choice) =>
      NotEmpty(w);
      hide GoodHistory, Announced, ReconcileOnce, Effect, Sound, Staged, VersionRead, Genuine;
      PassEffect(w, i, choice);
      var (f, staged) := Staged(w, i, choice);
      EffectKeepsHistory(w, v, VersionRead(w, i), f, staged);
      EffectKeepsAnnounced(w, v, VersionRead(w, i), f, staged);
  }

  lemma NotEmpty(w: World)
    requires GoodHistory(w.history)
    ensures w.history != []
  {
  }

  /** Persisted statuses and events over all runs. At every point of every run, every status ever persisted satisfies
      GoodStatus and tracks its generation, generations and observed generations never decrease along the history, and
      readiness announcements alternate with warnings. */
  lemma {:induction false} EveryRunIsGood(worlds: seq<World>, actions: seq<Action>, n: nat)
    requires Run(worlds, actions) && Initial(worlds[0]) && n < |worlds|
    ensures GoodHistory(worlds[n].history) && Announced(worlds[n])
  {
    hide Step, GoodHistory, Announced, Initial, ReconcileOnce;
    if n == 0 {
      InitialIsGood(worlds[0]);
    } else {
      EveryRunIsGood(worlds, actions, n - 1);
      assert Step(worlds[n - 1], actions[n - 1], worlds[n - 1 + 1]);
      StepKeepsAll(worlds[n - 1], actions[n - 1], worlds[n]);
    }
  }

  /** Along the history the observed generation never decreases, however far apart the versions are. */
  lemma {:induction false} ObservedGenerationNeverDecreases(history: seq<Cluster>, i: nat, j: nat)
    requires GoodHistory(history) && i <= j < |history|
    ensures history[i].status.observedGeneration <= history[j].status.observedGeneration
    ensures history[i].generation <= history[j].generation
    decreases j
  {
    if i < j {
      ObservedGenerationNeverDecreases(history, i, j - 1);
      assert Follows(history[j - 1], history[j - 1 + 1]);
    }
  }

  /** The event of readiness, exactly. After the pod events of its stages a reconcile records at most one more. It is
      the announcement exactly when the reconcile persists a change of Ready from not True to True, and a warning
      exactly when the stages met a spec error or the reconcile persists a change from True to not True. */
  lemma ReadinessEvents(w: World, i: Inputs, choice: Choice)
    requires GoodHistory(w.history) && Allowed(w, i, choice)
    ensures var (f, staged) := Staged(w, i, choice);
            var v := ReconcileOnce(w, i, choice).world;
            && v.history != [] && QuietlyExtends(w.fleet.events, staged)
            && exists word: Word ::
                 && v.fleet.events == Said(staged, word)
                 && (word == Told(BECAME_READY) <==> |v.history| > |w.history| && !IsReady(w) && IsReady(v))
                 && (word.Told? && word.event.etype == Warning <==>
                       f.SpecFailure? || (|v.history| > |w.history| && IsReady(w) && !IsReady(v)))
                 && (word.Told? ==> word.event == BECAME_READY || word.event.etype == Warning)
  {
    PassEffect(w, i, choice);
    var (f, staged) := Staged(w, i, choice);
    var v := ReconcileOnce(w, i, choice).world;
    hide GoodStatus, Tracks, Allowed, ReconcileOnce, Staged, QuietlyExtends;
    WordIsExact(w, v, VersionRead(w, i), f, staged);
  }

  lemma WordIsExact(w: World, v: World, c: Cluster, f: Findings, staged: seq<Event>)
    requires GoodHistory(w.history) && Sound(c, f) && Effect(w, v, c, f, staged)
    ensures var word := WordOf(w, v, f);
            && v.history != [] && v.fleet.events == Said(staged, word)
            && (word == Told(BECAME_READY) <==> |v.history| > |w.history| && !IsReady(w) && IsReady(v))
            && (word.Told? && word.event.etype == Warning <==>
                  f.SpecFailure? || (|v.history| > |w.history| && IsReady(w) && !IsReady(v)))
            && (word.Told? ==> word.event == BECAME_READY || word.event.etype == Warning)
  {
    LastIsGood(w.history);
    AskedReadiness(w, v, c, f, staged);
    hide GoodHistory, GoodStatus, Tracks, AskedStatus, Text, ReadyMessage, QuietlyExtends, Holds;
  }

  /** A spec failure never persists Ready as True. */
  lemma AskedReadiness(w: World, v: World, c: Cluster, f: Findings, staged: seq<Event>)
    requires GoodHistory(w.history) && Effect(w, v, c, f, staged)
    ensures f.SpecFailure? && |v.history| > |w.history| ==> !IsReady(v)
  {
    if |v.history| > |w.history| {
      LastIsGood(w.history);
      AskedStatusIsGood(c, f);
    }
  }
}
