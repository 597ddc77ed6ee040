/** internal/controller/errors.go: spec errors, their classification, and the reduction of a fan-out's errors. */
module Errors {
  import opened Kube

  datatype ApiReason = NotFound | AlreadyExists | Conflict | Invalid | Forbidden | Unavailable

  /** A Go error value. `Spec` is *specError; `Wrapped` is an error with one Unwrap target, such as fmt.Errorf("%w"). */
  datatype Error =
    | Api(status: ApiReason, text: string)
    | Plain(text: string)
    | AlreadyOwned(text: string)
    | Wrapped(text: string, inner: Error)
    | Spec(reason: string, inner: Error)
    | Joined(errs: seq<Error>)

  /** Error(): a spec error shows its cause, a joined error one line per child. */
  function Text(e: Error): string
    decreases e, 1
  {
    match e
    case Api(_, t) => t
    case Plain(t) => t
    case AlreadyOwned(t) => t
    case Wrapped(t, _) => t
    case Spec(_, inner) => Text(inner)
    case Joined(es) => TextLines(es)
  }

  function TextLines(es: seq<Error>): string
    decreases es, 0
  {
    if es == [] then ""
    else if |es| == 1 then Text(es[0])
    else Text(es[0]) + "\n" + TextLines(es[1..])
  }

  // ---------- errors.As ----------

  /** The node kinds the operator searches error trees for. */
  datatype Kind = SpecKind | ApiKind | OwnedKind

  predicate Is(e: Error, k: Kind) {
    match k
    case SpecKind => e.Spec?
    case ApiKind => e.Api?
    case OwnedKind => e.AlreadyOwned?
  }

  /** errors.As: the first node of kind k in pre-order, if any. */
  function As(e: Error, k: Kind): (r: Option<Error>)
    ensures r.Some? ==> Is(r.value, k)
    decreases e, 1
  {
    if Is(e, k) then Some(e) else
    match e
    case Wrapped(_, inner) => As(inner, k)
    case Spec(_, inner) => As(inner, k)
    case Joined(es) => AsAny(es, k)
    case _ => None
  }

  function AsAny(es: seq<Error>, k: Kind): (r: Option<Error>)
    ensures r.Some? ==> Is(r.value, k)
    decreases es, 0
  {
    if es == [] then None
    else var first := As(es[0], k);
         if first.Some? then first else AsAny(es[1..], k)
  }

  /** A node of kind k occurs somewhere in the tree, in any position. */
  ghost predicate Occurs(e: Error, k: Kind)
    decreases e
  {
    Is(e, k) ||
    match e
    case Wrapped(_, inner) => Occurs(inner, k)
    case Spec(_, inner) => Occurs(inner, k)
    case Joined(es) => exists i :: 0 <= i < |es| && Occurs(es[i], k)
    case _ => false
  }

  /** The pre-order search is complete: it fails only on trees without such a node. */
  lemma {:induction false} AsFindsEveryOccurrence(e: Error, k: Kind)
    ensures As(e, k).Some? <==> Occurs(e, k)
    decreases e, 1
  {
    match e
    case Wrapped(_, inner) => AsFindsEveryOccurrence(inner, k);
    case Spec(_, inner) => AsFindsEveryOccurrence(inner, k);
    case Joined(es) => AsAnyFindsFirst(es, k);
    case _ =>
  }

  lemma {:induction false} AsAnyFindsFirst(es: seq<Error>, k: Kind)
    ensures AsAny(es, k).Some? <==> exists i :: 0 <= i < |es| && Occurs(es[i], k)
    decreases es, 0
  {
    if es != [] {
      AsFindsEveryOccurrence(es[0], k);
      AsAnyFindsFirst(es[1..], k);
      forall i | 0 <= i < |es| && Occurs(es[i], k)
        ensures AsAny(es, k).Some?
      {
        if i > 0 { assert Occurs(es[1..][i - 1], k); }
      }
      if AsAny(es[1..], k).Some? {
        var i :| 0 <= i < |es[1..]| && Occurs(es[1..][i], k);
        assert Occurs(es[i + 1], k);
      }
    }
  }

  predicate IsSpecError(e: Error) {
    As(e, SpecKind).Some?
  }

  /** apierrors.ReasonForError: the status of the first API error in the tree. */
  predicate HasReason(e: Error, s: ApiReason) {
    var a := As(e, ApiKind);
    a.Some? && a.value.status == s
  }

  predicate IsNotFound(e: Error) {
    HasReason(e, NotFound)
  }

  // ---------- classifyAPIError ----------

  function ClassifyAPIError(reason: string, e: Error): Error {
    if HasReason(e, Invalid) || HasReason(e, Forbidden) then Spec(reason, e) else e
  }

  /** Rejections of the object's content become spec errors with the given reason around the original error;
      every other error passes through unchanged. */
  lemma ClassifyRouting(reason: string, e: Error)
    requires !Occurs(e, SpecKind)
    ensures IsSpecError(ClassifyAPIError(reason, e)) <==> HasReason(e, Invalid) || HasReason(e, Forbidden)
    ensures IsSpecError(ClassifyAPIError(reason, e)) ==> As(ClassifyAPIError(reason, e), SpecKind) == Some(Spec(reason, e))
    ensures !IsSpecError(ClassifyAPIError(reason, e)) ==> ClassifyAPIError(reason, e) == e
    ensures Text(ClassifyAPIError(reason, e)) == Text(e)
  {
    AsFindsEveryOccurrence(e, SpecKind);
  }

  // ---------- reducePodErrors ----------

  datatype Reduction = Reduction(setAside: seq<Error>, err: Option<Error>)

  /** The non-nil errors on one side of the spec/transient split, in slot order. */
  function Side(errs: seq<Option<Error>>, spec: bool): seq<Error> {
    if errs == [] then []
    else var init := Side(errs[..|errs| - 1], spec);
         var last := errs[|errs| - 1];
         if last.Some? && IsSpecError(last.value) == spec then init + [last.value] else init
  }

  function Reduce(errs: seq<Option<Error>>): Reduction {
    var transient, spec := Side(errs, false), Side(errs, true);
    if transient != [] then Reduction(spec, Some(Joined(transient)))
    else if spec != [] then
      SideIsPure(errs, true);
      assert IsSpecError(spec[0]);
      Reduction([], Some(Spec(As(spec[0], SpecKind).value.reason, Joined(spec))))
    else Reduction([], None)
  }

  lemma {:induction false} SideIsPure(errs: seq<Option<Error>>, spec: bool)
    ensures forall i :: 0 <= i < |Side(errs, spec)| ==> IsSpecError(Side(errs, spec)[i]) == spec
  {
    if errs != [] { SideIsPure(errs[..|errs| - 1], spec); }
  }

  method ReducePodErrors(errs: seq<Option<Error>>) returns (setAside: seq<Error>, err: Option<Error>)
    ensures Reduction(setAside, err) == Reduce(errs)
  {
    var transient: seq<Error>, spec: seq<Error> := [], [];
    for i := 0 to |errs|
      invariant transient == Side(errs[..i], false)
      invariant spec == Side(errs[..i], true)
    {
      assert errs[..i + 1][..i] == errs[..i];
      if errs[i].None? {
        continue;
      }
      var e := errs[i].value;
      if IsSpecError(e) {
        spec := spec + [e];
        continue;
      }
      transient := transient + [e];
    }
    assert errs[..|errs|] == errs;
    if |transient| > 0 {
      return spec, Some(Joined(transient));
    } else if |spec| > 0 {
      SideIsPure(errs, true);
      assert IsSpecError(spec[0]);
      var first := As(spec[0], SpecKind).value;
      return [], Some(Spec(first.reason, Joined(spec)));
    } else {
      return [], None;
    }
  }

  /** The non-nil errors among the slots. */
  ghost function NonNil(errs: seq<Option<Error>>): multiset<Error> {
    if errs == [] then multiset{}
    else var rest := NonNil(errs[..|errs| - 1]);
         if errs[|errs| - 1].Some? then rest + multiset{errs[|errs| - 1].value} else rest
  }

  lemma {:induction false} SidesPartition(errs: seq<Option<Error>>)
    ensures multiset(Side(errs, true)) + multiset(Side(errs, false)) == NonNil(errs)
  {
    if errs != [] {
      SidesPartition(errs[..|errs| - 1]);
    }
  }

  lemma {:induction false} NothingReduced(errs: seq<Option<Error>>)
    ensures Side(errs, true) == Side(errs, false) == [] <==> forall i :: 0 <= i < |errs| ==> errs[i].None?
  {
    if errs != [] {
      var n := |errs| - 1;
      NothingReduced(errs[..n]);
      assert forall i :: 0 <= i < n ==> errs[..n][i] == errs[i];
    }
  }

  /** The errors a reduction hands back: those set aside and those under the returned node. */
  ghost function Returned(r: Reduction): multiset<Error> {
    multiset(r.setAside) +
    match r.err
    case None => multiset{}
    case Some(Joined(es)) => multiset(es)
    case Some(Spec(_, Joined(es))) => multiset(es)
    case Some(_) => multiset{}
  }

  /** No non-nil error is lost or duplicated. */
  lemma ReduceConserves(errs: seq<Option<Error>>)
    ensures Returned(Reduce(errs)) == NonNil(errs)
    ensures Reduce(errs).err.None? <==> forall i :: 0 <= i < |errs| ==> errs[i].None?
  {
    SidesPartition(errs);
    NothingReduced(errs);
  }

  /** s is a sub-list of the non-nil slots: same errors, same order. */
  ghost predicate InSlotOrder(s: seq<Error>, at: seq<int>, errs: seq<Option<Error>>) {
    && |at| == |s|
    && (forall i :: 0 <= i < |at| ==> 0 <= at[i] < |errs| && errs[at[i]] == Some(s[i]))
    && (forall i, j :: 0 <= i < j < |at| ==> at[i] < at[j])
  }

  /** Each side lists its errors in slot order, and misses none of them. */
  lemma {:induction false} SideKeepsOrder(errs: seq<Option<Error>>, spec: bool) returns (at: seq<int>)
    ensures InSlotOrder(Side(errs, spec), at, errs)
    ensures forall k :: 0 <= k < |errs| && errs[k].Some? && IsSpecError(errs[k].value) == spec ==> k in at
  {
    at := [];
    if errs != [] {
      var n := |errs| - 1;
      at := SideKeepsOrder(errs[..n], spec);
      var before := at;
      if errs[n].Some? && IsSpecError(errs[n].value) == spec {
        at := at + [n];
      }
      forall k | 0 <= k < |errs| && errs[k].Some? && IsSpecError(errs[k].value) == spec
        ensures k in at
      {
        if k < n {
          assert errs[..n][k] == errs[k];
          assert k in before;
        } else {
          assert at[|at| - 1] == n;
        }
      }
    }
  }

  /** Where Reconcile routes the reduction: it is reported as a spec error, with the first one's reason, exactly when
      there is a spec error and no transient one; otherwise no spec error occurs anywhere in what is returned, so the
      reconcile is retried. */
  lemma ReduceRouting(errs: seq<Option<Error>>)
    ensures var r := Reduce(errs);
            && (r.err.Some? && IsSpecError(r.err.value) <==> Side(errs, true) != [] && Side(errs, false) == [])
            && (r.err.Some? && IsSpecError(r.err.value) ==>
                  var found, first := As(r.err.value, SpecKind).value, As(Side(errs, true)[0], SpecKind);
                  first.Some? && found.reason == first.value.reason && r.setAside == [])
            && (r.err.Some? && !IsSpecError(r.err.value) ==> !Occurs(r.err.value, SpecKind))
  {
    SideIsPure(errs, true);
    SideIsPure(errs, false);
    var transient := Side(errs, false);
    forall i | 0 <= i < |transient|
      ensures !Occurs(transient[i], SpecKind)
    {
      AsFindsEveryOccurrence(transient[i], SpecKind);
    }
    AsFindsEveryOccurrence(Joined(transient), SpecKind);
  }
}
