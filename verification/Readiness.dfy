/** podIsReady and podNotReadyMessage of internal/controller/polarscluster_controller.go. */
module Readiness {
  import opened Kube

  const POD_READY := "Ready"

  predicate PodIsReady(pod: Pod) {
    exists i :: 0 <= i < |pod.conditions| && pod.conditions[i].ctype == POD_READY && pod.conditions[i].status == True
  }

  /** The message or else the reason of the first unmet Ready condition that has one. */
  function ConditionDetail(conditions: seq<PodCondition>): (r: Option<string>)
    ensures r.Some? ==> r.value != ""
  {
    if conditions == [] then None
    else
      var c := conditions[0];
      if c.ctype != POD_READY || c.status == True then ConditionDetail(conditions[1..])
      else if c.message != "" then Some(c.message)
      else if c.reason != "" then Some(c.reason)
      else ConditionDetail(conditions[1..])
  }

  /** The first container that says why it waits or why it terminated. */
  function ContainerDetail(containers: seq<ContainerStatus>): (r: Option<string>)
    ensures r.Some? ==> r.value != ""
  {
    if containers == [] then None
    else
      var c := containers[0];
      if c.waiting.Some? && c.waiting.value != "" then
        Some("container " + c.name + " is waiting: " + c.waiting.value)
      else if c.terminated.Some? && c.terminated.value != "" then
        Some("container " + c.name + " terminated: " + c.terminated.value)
      else ContainerDetail(containers[1..])
  }

  /** Why a pod is not Ready, never empty: the kubelet's own explanation first, then a container's. */
  function PodNotReadyMessage(pod: Pod): (m: string)
    ensures m != ""
  {
    if ConditionDetail(pod.conditions).Some? then ConditionDetail(pod.conditions).value
    else if ContainerDetail(pod.containers).Some? then ContainerDetail(pod.containers).value
    else "pod is not Ready"
  }

  method CheckPodIsReady(pod: Pod) returns (ready: bool)
    ensures ready <==> PodIsReady(pod)
  {
    for i := 0 to |pod.conditions|
      invariant forall k :: 0 <= k < i ==> !(pod.conditions[k].ctype == POD_READY && pod.conditions[k].status == True)
    {
      var cond := pod.conditions[i];
      if cond.ctype == POD_READY && cond.status == True {
        return true;
      }
    }
    return false;
  }

  method ExplainPodNotReady(pod: Pod) returns (message: string)
    ensures message == PodNotReadyMessage(pod)
  {
    for i := 0 to |pod.conditions|
      invariant ConditionDetail(pod.conditions[i..]) == ConditionDetail(pod.conditions)
    {
      var cond := pod.conditions[i];
      assert pod.conditions[i..][1..] == pod.conditions[i + 1..];
      if cond.ctype != POD_READY || cond.status == True {
        continue;
      }
      if cond.message != "" {
        return cond.message;
      }
      if cond.reason != "" {
        return cond.reason;
      }
    }
    for i := 0 to |pod.containers|
      invariant ContainerDetail(pod.containers[i..]) == ContainerDetail(pod.containers)
    {
      var cs := pod.containers[i];
      assert pod.containers[i..][1..] == pod.containers[i + 1..];
      if cs.waiting.Some? && cs.waiting.value != "" {
        return "container " + cs.name + " is waiting: " + cs.waiting.value;
      }
      if cs.terminated.Some? && cs.terminated.value != "" {
        return "container " + cs.name + " terminated: " + cs.terminated.value;
      }
    }
    return "pod is not Ready";
  }

  /** A condition that explains why its pod is not Ready. */
  predicate SaysWhy(c: PodCondition) {
    c.ctype == POD_READY && c.status != True && (c.message != "" || c.reason != "")
  }

  /** What such a condition contributes: its message, or else its reason. */
  function Why(c: PodCondition): string {
    if c.message != "" then c.message else c.reason
  }

  /** A container that says why it waits or why it terminated. */
  predicate Explains(c: ContainerStatus) {
    (c.waiting.Some? && c.waiting.value != "") || (c.terminated.Some? && c.terminated.value != "")
  }

  /** What such a container contributes: waiting comes first. */
  function Explanation(c: ContainerStatus): string
    requires Explains(c)
  {
    if c.waiting.Some? && c.waiting.value != "" then "container " + c.name + " is waiting: " + c.waiting.value
    else "container " + c.name + " terminated: " + c.terminated.value
  }

  lemma {:induction false} FirstConditionSpeaks(conditions: seq<PodCondition>) returns (k: nat)
    ensures k <= |conditions| && forall i :: 0 <= i < k ==> !SaysWhy(conditions[i])
    ensures if k < |conditions| then SaysWhy(conditions[k]) && ConditionDetail(conditions) == Some(Why(conditions[k]))
            else ConditionDetail(conditions) == None
  {
    k := 0;
    if conditions != [] && !SaysWhy(conditions[0]) {
      var next := FirstConditionSpeaks(conditions[1..]);
      k := next + 1;
    }
  }

  lemma {:induction false} FirstContainerSpeaks(containers: seq<ContainerStatus>) returns (k: nat)
    ensures k <= |containers| && forall i :: 0 <= i < k ==> !Explains(containers[i])
    ensures if k < |containers|
            then Explains(containers[k]) && ContainerDetail(containers) == Some(Explanation(containers[k]))
            else ContainerDetail(containers) == None
  {
    k := 0;
    if containers != [] && !Explains(containers[0]) {
      var next := FirstContainerSpeaks(containers[1..]);
      k := next + 1;
    }
  }

  /** No detail is missed: the explanation is that of the first unmet Ready condition that has one, `k`; if there is
      none, that of the first container that has one, `l`; and the generic text when no condition and no container says
      why. */
  lemma NoDetailMissed(pod: Pod) returns (k: nat, l: nat)
    ensures k <= |pod.conditions| && forall i :: 0 <= i < k ==> !SaysWhy(pod.conditions[i])
    ensures l <= |pod.containers| && forall i :: 0 <= i < l ==> !Explains(pod.containers[i])
    ensures k < |pod.conditions| ==> SaysWhy(pod.conditions[k])
    ensures l < |pod.containers| ==> Explains(pod.containers[l])
    ensures PodNotReadyMessage(pod) == if k < |pod.conditions| then Why(pod.conditions[k])
                                       else if l < |pod.containers| then Explanation(pod.containers[l])
                                       else "pod is not Ready"
  {
    k := FirstConditionSpeaks(pod.conditions);
    l := FirstContainerSpeaks(pod.containers);
  }
}
