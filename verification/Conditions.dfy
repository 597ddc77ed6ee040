/** Status conditions: apimachinery's list operations on them, and the operator's setReadyCondition. */
module Conditions {
  import opened Kube
  import opened PolarsCluster

  /** meta.FindStatusCondition: the first condition of the type. */
  function Find(conditions: seq<Condition>, ctype: string): (r: Option<Condition>)
    ensures r.Some? ==> r.value in conditions && r.value.ctype == ctype
  {
    if conditions == [] then None
    else if conditions[0].ctype == ctype then Some(conditions[0])
    else Find(conditions[1..], ctype)
  }

  /** meta.SetStatusCondition: replace the first condition of the type, or append. */
  function Set(conditions: seq<Condition>, condition: Condition): (r: seq<Condition>)
    ensures forall c :: c in r ==> c == condition || c in conditions
  {
    if conditions == [] then [condition]
    else if conditions[0].ctype == condition.ctype then [condition] + conditions[1..]
    else [conditions[0]] + Set(conditions[1..], condition)
  }

  /** meta.RemoveStatusCondition: drop every condition of the type. */
  function Remove(conditions: seq<Condition>, ctype: string): (r: seq<Condition>)
    ensures forall c :: c in r ==> c in conditions
  {
    if conditions == [] then []
    else if conditions[0].ctype == ctype then Remove(conditions[1..], ctype)
    else [conditions[0]] + Remove(conditions[1..], ctype)
  }

  /** meta.IsStatusConditionTrue. */
  predicate IsTrue(conditions: seq<Condition>, ctype: string) {
    Find(conditions, ctype).Some? && Find(conditions, ctype).value.status == True
  }

  /** A condition that was set is found as it was set; the others are found as before. */
  lemma {:induction false} FindAfterSet(conditions: seq<Condition>, condition: Condition, ctype: string)
    ensures Find(Set(conditions, condition), ctype) ==
            if ctype == condition.ctype then Some(condition) else Find(conditions, ctype)
  {
    if conditions != [] {
      FindAfterSet(conditions[1..], condition, ctype);
      if conditions[0].ctype == condition.ctype {
        assert ([condition] + conditions[1..])[1..] == conditions[1..];
      } else {
        assert Set(conditions, condition)[1..] == Set(conditions[1..], condition);
      }
    }
  }

  /** A removed condition is not found any more, a second one of its type included; the others are found as before. */
  lemma {:induction false} FindAfterRemove(conditions: seq<Condition>, removed: string, ctype: string)
    ensures Find(Remove(conditions, removed), ctype) == if ctype == removed then None else Find(conditions, ctype)
  {
    if conditions != [] {
      FindAfterRemove(conditions[1..], removed, ctype);
      if conditions[0].ctype != removed {
        assert Remove(conditions, removed)[1..] == Remove(conditions[1..], removed);
      }
    }
  }

  /** Setting a condition as it already is changes nothing. */
  lemma {:induction false} SetSame(conditions: seq<Condition>, condition: Condition)
    requires Find(conditions, condition.ctype) == Some(condition)
    ensures Set(conditions, condition) == conditions
  {
    if conditions[0].ctype != condition.ctype {
      SetSame(conditions[1..], condition);
    }
  }

  /** Nor does removing a condition that is not there. */
  lemma {:induction false} RemoveAbsent(conditions: seq<Condition>, ctype: string)
    requires Find(conditions, ctype).None?
    ensures Remove(conditions, ctype) == conditions
  {
    if conditions != [] {
      RemoveAbsent(conditions[1..], ctype);
    }
  }

  const RECONCILED := "Reconciled"

  function ReadyCondition(c: Cluster, ctype: string, ready: bool, reason: string, message: string): Condition {
    if ready then Condition(ctype, True, RECONCILED, "", c.generation)
    else Condition(ctype, False, reason, message, c.generation)
  }

  function WithCondition(c: Cluster, condition: Condition): Cluster {
    c.(status := c.status.(conditions := Set(c.status.conditions, condition)))
  }

  /** The reconcile's own copy of the resource, whose status it fills in stage by stage. */
  class Copy {
    var cluster: Cluster

    constructor (c: Cluster)
      ensures cluster == c
    {
      cluster := c;
    }

    method SetStatusCondition(condition: Condition)
      modifies this
      ensures cluster == WithCondition(old(cluster), condition)
    {
      cluster := cluster.(status := cluster.status.(conditions := Set(cluster.status.conditions, condition)));
    }

    method RemoveStatusCondition(ctype: string)
      modifies this
      ensures cluster ==
              old(cluster).(status := old(cluster).status.(conditions := Remove(old(cluster).status.conditions, ctype)))
    {
      cluster := cluster.(status := cluster.status.(conditions := Remove(cluster.status.conditions, ctype)));
    }

    /** setReadyCondition: the explanation is dropped when ready, so no condition keeps a stale one. */
    method SetReadyCondition(ctype: string, ready: bool, notReadyReason: string, notReadyMessage: string)
      modifies this
      ensures cluster == WithCondition(old(cluster),
                                       ReadyCondition(old(cluster), ctype, ready, notReadyReason, notReadyMessage))
    {
      var status, reason, message := False, notReadyReason, notReadyMessage;
      if ready {
        status, reason, message := True, RECONCILED, "";
      }
      SetStatusCondition(Condition(ctype, status, reason, message, cluster.generation));
    }
  }
}
