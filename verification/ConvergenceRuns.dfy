/** Convergence over runs: any interleaving of fresh reconciles with an environment that leaves the spec and the
    operator's pods alone, except that terminating pods go and pods become Ready or fail to. */
module ConvergenceRuns {
  import opened Kube
  import opened PolarsCluster
  import opened PodTemplates
  import opened TemplateFrame
  import opened ApiServer
  import opened Reconcile
  import opened Runs
  import opened FreshPass
  import opened Convergence
  import opened Quiescence
  import SchedulerLaws
  import WorkerPool

  // ---------- Calm runs ----------

  ghost predicate HasSpec(w: World, c: Cluster) {
    w.history != [] && SameSpec(Last(w), c)
  }

  ghost predicate CalmStep(w: World, a: Action, v: World, c: Cluster, p: Plan) {
    match a
    case Environment => HasSpec(v, c) && Benign(w.fleet.pods, v.fleet.pods, c, p)
    case Pass(i, choice) => Fresh(w, i, choice, p)
  }

  /** A run for the spec of `c`, of which `p` are the templates. */
  ghost predicate CalmRun(worlds: seq<World>, actions: seq<Action>, c: Cluster, p: Plan) {
    && Run(worlds, actions) && HasSpec(worlds[0], c)
    && forall k :: 0 <= k < |actions| ==> CalmStep(worlds[k], actions[k], worlds[k + 1], c, p)
  }

  /** The reconcile `k` changes a pod. */
  predicate Changes(worlds: seq<World>, actions: seq<Action>, k: nat)
    requires |worlds| == |actions| + 1 && k < |actions|
  {
    actions[k].Pass? && worlds[k + 1].fleet.pods != worlds[k].fleet.pods
  }

  /** How many of the first `n` actions are reconciles that change a pod. */
  function Changing(worlds: seq<World>, actions: seq<Action>, n: nat): nat
    requires |worlds| == |actions| + 1 && n <= |actions|
  {
    if n == 0 then 0 else Changing(worlds, actions, n - 1) + if Changes(worlds, actions, n - 1) then 1 else 0
  }

  // ---------- One step ----------

  lemma PassIsNext(w: World, i: Inputs, choice: Choice, v: World, p: Plan)
    requires Fresh(w, i, choice, p) && Step(w, Pass(i, choice), v)
    ensures v == NextWorld(w, i, choice, p)
  {
    hide Fresh, Allowed, ReconcileOnce;
  }

  lemma PassKeepsSpec(w: World, i: Inputs, choice: Choice, c: Cluster, p: Plan)
    requires Fresh(w, i, choice, p) && HasSpec(w, c)
    ensures HasSpec(NextWorld(w, i, choice, p), c)
  {
    hide NextWorld, Gather, Conclude, FullStatus, Fresh, WorkerPool.Schedule, FaultFree, FreshPodsAfter;
    FreshListing(w, i, choice, p);
    FreshReconcile(w, i, choice, p);
    var g := Gather(w, Last(w), i, choice);
    FreshConclude(g.world, Last(w), g.findings, i.faults);
  }

  /** What a step does to the measure and the scheduler's phase. */
  ghost predicate Progress(before: Pods, after: Pods, a: Action, c: Cluster, p: Plan) {
    && Measure(after, c, p) <= Measure(before, c, p)
    && (a.Pass? && after != before ==> Measure(after, c, p) < Measure(before, c, p))
    && (a.Pass? ==> Phase(after, c, p) == SchedulerLaws.NextPhase(Phase(before, c, p)))
    && (a.Pass? && Phase(before, c, p) in {SchedulerLaws.Absent, SchedulerLaws.UpToDate} ==> Converged(after, c, p))
    && (a.Environment? && Phase(after, c, p) == SchedulerLaws.Superseded ==>
          Phase(before, c, p) == SchedulerLaws.Superseded)
  }

  lemma CalmStepProgress(w: World, a: Action, v: World, c: Cluster, p: Plan)
    requires HasSpec(w, c) && Step(w, a, v) && CalmStep(w, a, v, c, p)
    ensures HasSpec(v, c) && Progress(w.fleet.pods, v.fleet.pods, a, c, p)
  {
    hide ReconcileOnce, Fresh, NextWorld, Benign, Measure, Phase, Converged, Allowed, EnvironmentStep, FreshPodsAfter;
    match a
    case Environment =>
      BenignStep(w.fleet.pods, v.fleet.pods, c, p);
    case Pass(i, choice) =>
      PassIsNext(w, i, choice, v, p);
      PassKeepsSpec(w, i, choice, c, p);
      PassProgress(w, i, choice, c, p);
  }

  lemma PassProgress(w: World, i: Inputs, choice: Choice, c: Cluster, p: Plan)
    requires HasSpec(w, c) && Fresh(w, i, choice, p)
    ensures Progress(w.fleet.pods, NextWorld(w, i, choice, p).fleet.pods, Pass(i, choice), c, p)
  {
    hide Fresh, NextWorld, Measure, Phase, Converged, FreshPodsAfter;
    MeasureDrops(w, i, choice, p);
    NextPods(w, i, choice, p);
    FreshPassReaches(w, i, choice, p);
    ConvergedFollowsSpec(w.fleet.pods, Last(w), c, p);
    ConvergedFollowsSpec(NextWorld(w, i, choice, p).fleet.pods, Last(w), c, p);
    if Phase(w.fleet.pods, c, p) in {SchedulerLaws.Absent, SchedulerLaws.UpToDate} {
      OneReconcileSuffices(w, i, choice, p);
    }
  }

  lemma {:induction false} CalmProgress(worlds: seq<World>, actions: seq<Action>, c: Cluster, p: Plan, k: nat)
    requires CalmRun(worlds, actions, c, p) && k <= |actions|
    ensures HasSpec(worlds[k], c)
    ensures k < |actions| ==> Progress(worlds[k].fleet.pods, worlds[k + 1].fleet.pods, actions[k], c, p)
    decreases k
  {
    hide Step, CalmStep, HasSpec, Progress;
    if k > 0 {
      CalmProgress(worlds, actions, c, p, k - 1);
      assert Step(worlds[k - 1], actions[k - 1], worlds[k - 1 + 1]);
      assert CalmStep(worlds[k - 1], actions[k - 1], worlds[k - 1 + 1], c, p);
      CalmStepProgress(worlds[k - 1], actions[k - 1], worlds[k], c, p);
    }
    if k < |actions| {
      CalmStepProgress(worlds[k], actions[k], worlds[k + 1], c, p);
    }
  }

  // ---------- Over runs ----------

  /** The measure never rises, and every reconcile that changes a pod uses some of it up: between any two points of a
      calm run, and so in all, no more reconciles change a pod than the measure at the first one says. */
  lemma {:induction false} ChangesAreBounded(worlds: seq<World>, actions: seq<Action>, c: Cluster, p: Plan, m: nat,
                                             n: nat)
    requires CalmRun(worlds, actions, c, p) && m <= n <= |actions|
    ensures Measure(worlds[n].fleet.pods, c, p) + Changing(worlds, actions, n) - Changing(worlds, actions, m)
            <= Measure(worlds[m].fleet.pods, c, p)
    decreases n
  {
    hide CalmRun, Measure, Phase, Converged;
    if m < n {
      ChangesAreBounded(worlds, actions, c, p, m, n - 1);
      CalmProgress(worlds, actions, c, p, n - 1);
    }
  }

  lemma CalmPassAtRest(w: World, a: Action, v: World, c: Cluster, p: Plan)
    requires HasSpec(w, c) && Step(w, a, v) && CalmStep(w, a, v, c, p) && Converged(w.fleet.pods, c, p)
    ensures v.fleet.writes == w.fleet.writes
    ensures a.Pass? ==> v.fleet.pods == w.fleet.pods
  {
    hide ReconcileOnce, Fresh, NextWorld, Benign, Converged, Allowed;
    match a
    case Environment =>
    case Pass(i, choice) =>
      PassIsNext(w, i, choice, v, p);
      ConvergedFollowsSpec(w.fleet.pods, Last(w), c, p);
      FirstPass(w, i, choice, p);
  }

  /** Converged is for good: in a calm run the pods stay converged and no reconcile writes to a pod any more. */
  lemma {:induction false} StaysConverged(worlds: seq<World>, actions: seq<Action>, c: Cluster, p: Plan, m: nat, n: nat)
    requires CalmRun(worlds, actions, c, p) && m <= n <= |actions| && Converged(worlds[m].fleet.pods, c, p)
    ensures Converged(worlds[n].fleet.pods, c, p)
    ensures worlds[n].fleet.writes == worlds[m].fleet.writes
    ensures forall k :: m <= k < n && actions[k].Pass? ==> worlds[k + 1].fleet.pods == worlds[k].fleet.pods
    decreases n
  {
    hide Measure, Phase, Converged, Step, CalmStep, HasSpec;
    ZeroIsConverged(worlds[m].fleet.pods, c, p);
    ChangesAreBounded(worlds, actions, c, p, m, m);
    if m < n {
      StaysConverged(worlds, actions, c, p, m, n - 1);
      CalmProgress(worlds, actions, c, p, n - 1);
      ZeroIsConverged(worlds[n - 1].fleet.pods, c, p);
      ZeroIsConverged(worlds[n].fleet.pods, c, p);
      assert Step(worlds[n - 1], actions[n - 1], worlds[n - 1 + 1]);
      assert CalmStep(worlds[n - 1], actions[n - 1], worlds[n - 1 + 1], c, p);
      CalmPassAtRest(worlds[n - 1], actions[n - 1], worlds[n], c, p);
    }
  }

  /** After a first reconcile no live scheduler is outdated again. */
  lemma {:induction false} NeverSupersededAgain(worlds: seq<World>, actions: seq<Action>, c: Cluster, p: Plan, a: nat,
                                                n: nat)
    requires CalmRun(worlds, actions, c, p) && a < n <= |actions| && actions[a].Pass?
    ensures Phase(worlds[n].fleet.pods, c, p) != SchedulerLaws.Superseded
    decreases n
  {
    hide CalmRun, Measure, Phase, Converged;
    CalmProgress(worlds, actions, c, p, n - 1);
    if a < n - 1 { NeverSupersededAgain(worlds, actions, c, p, a, n - 1); }
  }

  /** Every calm run converges once its second reconcile, or a later one, no longer finds a terminating scheduler, and
      not with any reconcile that still does. From then on it stays converged. */
  lemma RunsConverge(worlds: seq<World>, actions: seq<Action>, c: Cluster, p: Plan, a: nat, b: nat)
    requires CalmRun(worlds, actions, c, p) && |worlds| == |actions| + 1
    requires a < b < |actions| && actions[a].Pass? && actions[b].Pass?
    ensures Converged(worlds[b + 1].fleet.pods, c, p) <==> Phase(worlds[b].fleet.pods, c, p) != SchedulerLaws.Terminating
    ensures Phase(worlds[b].fleet.pods, c, p) != SchedulerLaws.Terminating ==>
              forall n :: b < n <= |actions| ==> Converged(worlds[n].fleet.pods, c, p)
  {
    hide CalmRun, Measure, Phase;
    NeverSupersededAgain(worlds, actions, c, p, a, b);
    CalmProgress(worlds, actions, c, p, b);
    hide Converged;
    if Converged(worlds[b + 1].fleet.pods, c, p) {
      forall n | b < n <= |actions| ensures Converged(worlds[n].fleet.pods, c, p) {
        StaysConverged(worlds, actions, c, p, b + 1, n);
      }
    }
  }
}
