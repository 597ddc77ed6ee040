/** What the routes stage reports, which routes it may write or delete, and where it settles. */
module RouteLaws {
  import opened Kube
  import opened Errors
  import opened PolarsCluster
  import opened ApiServer
  import opened Routes

  // ---------- The priority fold ----------

  predicate IsProblem(v: Verdict) {
    v == InPlace(false) || v.Refused?
  }

  function ReasonOf(v: Verdict): string {
    if v.Refused? then v.reason else REASON_NOT_ACCEPTED
  }

  function DetailOf(v: Verdict): string {
    if v.Refused? then v.detail else "no parent has accepted it yet"
  }

  /** A problem that displaces a NotAccepted. */
  predicate Serious(v: Verdict) {
    IsProblem(v) && ReasonOf(v) != REASON_NOT_ACCEPTED
  }

  predicate IsRequested(v: Verdict) {
    !v.Unrequested?
  }

  predicate IsConflict(v: Verdict) {
    v.Refused? && v.reason == REASON_ROUTE_CONFLICT
  }

  ghost predicate Any(verdicts: seq<Verdict>, p: Verdict -> bool) {
    exists j :: 0 <= j < |verdicts| && p(verdicts[j])
  }

  lemma SomeSnoc(verdicts: seq<Verdict>, p: Verdict -> bool)
    requires verdicts != []
    ensures Any(verdicts, p) <==> Any(verdicts[..|verdicts| - 1], p) || p(verdicts[|verdicts| - 1])
  {
    var n := |verdicts| - 1;
    if Any(verdicts, p) && !p(verdicts[n]) {
      var j :| 0 <= j < |verdicts| && p(verdicts[j]);
      assert p(verdicts[..n][j]);
    }
  }

  /** The problem that is kept: the first serious one, or the first of all when none is serious. */
  ghost predicate Kept(verdicts: seq<Verdict>, i: nat) {
    && i < |verdicts|
    && if Serious(verdicts[i]) then !Any(verdicts[..i], Serious)
       else IsProblem(verdicts[i]) && !Any(verdicts, Serious) && !Any(verdicts[..i], IsProblem)
  }

  lemma KeptSnoc(verdicts: seq<Verdict>, i: nat)
    requires verdicts != []
    ensures var n := |verdicts| - 1;
            && (Kept(verdicts[..n], i) && (Serious(verdicts[i]) || !Serious(verdicts[n])) ==> Kept(verdicts, i))
            && (Kept(verdicts[..n], i) && !Serious(verdicts[i]) && Serious(verdicts[n]) ==> Kept(verdicts, n))
            && (!Any(verdicts[..n], IsProblem) && IsProblem(verdicts[n]) ==> Kept(verdicts, n))
  {
    var n := |verdicts| - 1;
    if i < n { assert verdicts[..n][..i] == verdicts[..i]; }
    SomeSnoc(verdicts, Serious);
  }

  /** Over any sequence of targets and verdicts: routes are requested if any verdict says so; they are ready exactly
      when no verdict is a problem; otherwise the kept problem gives reason and message; and a conflict is reported
      exactly when some verdict is one, also when another problem is kept. */
  lemma {:induction false} PriorityFold(targets: seq<Target>, verdicts: seq<Verdict>) returns (i: nat)
    requires |verdicts| == |targets|
    ensures var r := Fold(targets, verdicts);
            && (r.requested <==> Any(verdicts, IsRequested))
            && (r.ready <==> !Any(verdicts, IsProblem))
            && (r.conflict <==> Any(verdicts, IsConflict))
            && (if r.ready then r.reason == "" && r.message == ""
                else Kept(verdicts, i) && r.reason == ReasonOf(verdicts[i])
                     && r.message == RouteMessage(targets[i], DetailOf(verdicts[i])))
  {
    hide Any, Kept, RouteMessage;
    i := 0;
    if targets == [] {
      NothingIn(IsRequested);
      NothingIn(IsProblem);
      NothingIn(IsConflict);
    } else {
      var n := |targets| - 1;
      i := PriorityFold(targets[..n], verdicts[..n]);
      SomeSnoc(verdicts, IsRequested);
      SomeSnoc(verdicts, IsProblem);
      SomeSnoc(verdicts, IsConflict);
      KeptSnoc(verdicts, i);
      var before, v := Fold(targets[..n], verdicts[..n]), verdicts[n];
      KeptInside(verdicts[..n], i);
      if IsProblem(v) && (before.ready || (before.reason == REASON_NOT_ACCEPTED && ReasonOf(v) != REASON_NOT_ACCEPTED)) {
        i := n;
      }
    }
  }

  lemma NothingIn(p: Verdict -> bool)
    ensures !Any([], p)
  {
  }

  lemma KeptInside(verdicts: seq<Verdict>, i: nat)
    ensures Kept(verdicts, i) ==> i < |verdicts| && IsProblem(verdicts[i])
  {
  }

  // ---------- Verdicts of a pass ----------

  /** The reasons the operator itself refuses a route for. */
  predicate OperatorReason(v: Verdict) {
    v.Refused? ==> v.reason == REASON_ROUTE_CONFLICT || v.reason == REASON_ROUTE_REJECTED
  }

  ghost predicate OperatorReasons(verdicts: seq<Verdict>) {
    forall i :: 0 <= i < |verdicts| ==> OperatorReason(verdicts[i])
  }

  /** Without an injected spec error, a target is refused for a conflict or a rejection, never for lack of
      acceptance. */
  lemma RefusalReasons(store: RouteStore, cached: map<RouteKey, Route>, c: Cluster, t: Target, faults: Faults)
    requires Genuine(faults)
    ensures var v := TargetStep(store, cached, c, t, faults).verdict;
            v.Ok? ==> OperatorReason(v.value)
  {
    if t.spec.Some? {
      var e := CreateOrUpdate(store, cached, c, t, faults).err;
      if e.Some? {
        CreateOrUpdateErrors(store, cached, c, t, faults);
        AsFindsEveryOccurrence(e.value, SpecKind);
      }
    }
  }

  lemma CreateOrUpdateErrors(store: RouteStore, cached: map<RouteKey, Route>, c: Cluster, t: Target, faults: Faults)
    requires t.spec.Some? && Genuine(faults)
    ensures var e := CreateOrUpdate(store, cached, c, t, faults).err; e.Some? ==> !Occurs(e.value, SpecKind)
  {
    hide SchedulerObjectLabels, Mutated, As, AsAny, IsNotFound;
  }

  lemma {:induction false} WalkReasons(store: RouteStore, cached: map<RouteKey, Route>, c: Cluster,
                                       targets: seq<Target>, faults: Faults)
    requires Genuine(faults)
    ensures OperatorReasons(WalkTargets(store, cached, c, targets, faults).verdicts)
  {
    hide TargetStep, Genuine, OperatorReason;
    if targets != [] {
      WalkReasons(store, cached, c, targets[..|targets| - 1], faults);
      RefusalReasons(WalkTargets(store, cached, c, targets[..|targets| - 1], faults).store, cached, c,
                     targets[|targets| - 1], faults);
    }
  }

  /** Every report of a pass explains itself: ready with nothing to say, or not ready with a reason and a message, and
      then routes were requested. */
  lemma ReportsExplain(store: RouteStore, cached: map<RouteKey, Route>, c: Cluster, targets: seq<Target>,
                       enabled: bool, faults: Faults)
    requires Genuine(faults)
    ensures var out := RoutesPass(store, cached, c, targets, enabled, faults).result;
            out.Ok? ==>
              var r := out.value;
              if r.ready then r.reason == "" && r.message == "" && !r.conflict
              else r.requested && r.reason != "" && r.message != ""
  {
    hide WalkTargets, Fold, Any, Kept, OperatorReasons;
    var w := WalkTargets(store, cached, c, targets, faults);
    if enabled && w.err.None? {
      var i := PriorityFold(targets, w.verdicts);
      WalkReasons(store, cached, c, targets, faults);
      FoldExplains(targets, w.verdicts, i);
    }
  }

  lemma FoldExplains(targets: seq<Target>, verdicts: seq<Verdict>, i: nat)
    requires |verdicts| == |targets|
    requires OperatorReasons(verdicts)
    requires !Any(verdicts, IsProblem) || Kept(verdicts, i)
    ensures Any(verdicts, IsConflict) ==> Any(verdicts, IsProblem)
    ensures Kept(verdicts, i) ==> Any(verdicts, IsProblem) && Any(verdicts, IsRequested) && ReasonOf(verdicts[i]) != ""
                                  && RouteMessage(targets[i], DetailOf(verdicts[i])) != ""
  {
    KeptInside(verdicts, i);
    if Any(verdicts, IsConflict) {
      var j :| 0 <= j < |verdicts| && IsConflict(verdicts[j]);
      assert IsProblem(verdicts[j]);
    }
    if Kept(verdicts, i) {
      assert IsRequested(verdicts[i]);
    }
  }

  // ---------- The report of a pass ----------

  /** With the Gateway API enabled, a pass that ends without an unexpected error reports ready exactly when every
      requested target was applied and is accepted, and asks for the timed retry exactly when some target is in
      conflict. */
  lemma PassReport(store: RouteStore, cached: map<RouteKey, Route>, c: Cluster, targets: seq<Target>, faults: Faults)
    ensures var w := WalkTargets(store, cached, c, targets, faults);
            var out := RoutesPass(store, cached, c, targets, true, faults).result;
            && (out.Ok? <==> w.err.None?)
            && (out.Ok? ==>
                  && |w.verdicts| == |targets|
                  && (out.value.ready <==>
                        forall j :: 0 <= j < |targets| && w.verdicts[j] != Unrequested ==> w.verdicts[j] == InPlace(true))
                  && (out.value.conflict <==>
                        exists j :: 0 <= j < |targets| && IsConflict(w.verdicts[j])))
  {
    hide WalkTargets, Fold, Kept;
    var w := WalkTargets(store, cached, c, targets, faults);
    if w.err.None? {
      var _ := PriorityFold(targets, w.verdicts);
      assert forall v: Verdict :: IsProblem(v) <==> v != Unrequested && v != InPlace(true);
    }
  }
}
