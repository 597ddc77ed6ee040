/** What the three services are, field by field: where they lead, which ports they offer and what they take from the
    spec. */
module ServiceContents {
  import opened Kube
  import opened Errors
  import opened PolarsCluster
  import opened ApiServer
  import opened Services
  import opened ServiceLaws
  import Scheduler

  // ---------- Names, ports and configuration ----------

  function ServiceKey(c: Cluster, slot: nat): Key
    requires slot < SERVICE_COUNT
  {
    Key(c.key.namespace, c.key.name + ["-scheduler", "-scheduler-internal", "-observatory"][slot])
  }

  function ServicePorts(slot: nat): seq<nat>
    requires slot < SERVICE_COUNT
  {
    [[5051], [5050, 5049], [3001]][slot]
  }

  /** The entry of the spec that configures the service, if there is one. */
  function ServiceEntry(c: Cluster, slot: nat): Option<ServiceConfig>
    requires slot < SERVICE_COUNT
  {
    if c.spec.scheduler.None? || c.spec.scheduler.value.services.None? then None
    else
      var services := c.spec.scheduler.value.services.value;
      if slot == 0 then if services.scheduler.Some? then Some(services.scheduler.value.config) else None
      else if slot == 1 then services.internal
      else if services.observatory.Some? then Some(services.observatory.value.config)
      else None
  }

  /** The scheduler's pod has the name of its service. */
  lemma PodAndServiceShareTheName(c: Cluster)
    ensures SchedulerPodKey(c) == ServiceKey(c, 0)
  {
  }

  // ---------- Where a service leads ----------

  /** The labels of a pod as a selector sees them. */
  function LabelsOf(pod: Pod): map<string, string> {
    map["compute.pola.rs/cluster" := pod.labels.cluster, "compute.pola.rs/component" := pod.labels.component,
        "compute.pola.rs/template-hash" := pod.labels.templateHash]
  }

  ghost predicate Selects(selector: map<string, string>, pod: Pod) {
    forall k :: k in selector ==> k in LabelsOf(pod) && LabelsOf(pod)[k] == selector[k]
  }

  /** The selector picks the pods with the scheduler's two labels: the scheduler the operator creates for this cluster,
      and no pod of another cluster or component. */
  ghost predicate LeadsToScheduler(selector: map<string, string>, c: Cluster) {
    && (forall pod :: Selects(selector, pod) <==> pod.labels.cluster == c.key.name && pod.labels.component == "scheduler")
    && (forall hash :: Selects(selector, Scheduler.SchedulerPod(c, hash)))
    && (forall pod: Pod :: pod.labels.component == "worker" ==> !Selects(selector, pod))
  }

  /** The cluster and component labels of the scheduler's pod. */
  function SchedulerLabels(c: Cluster): map<string, string> {
    map["compute.pola.rs/cluster" := c.key.name, "compute.pola.rs/component" := "scheduler"]
  }

  lemma SelectorLeads(c: Cluster)
    ensures LeadsToScheduler(SchedulerLabels(c), c)
  {
    assert |"scheduler"| == 9 && |"worker"| == 6;
    LabelKeysDiffer();
    forall pod
      ensures Selects(SchedulerLabels(c), pod) <==>
              pod.labels.cluster == c.key.name && pod.labels.component == "scheduler"
    {
      PodLabels(pod);
      SelectorLabels(c);
      if Selects(SchedulerLabels(c), pod) {
        assert "compute.pola.rs/cluster" in SchedulerLabels(c) && "compute.pola.rs/component" in SchedulerLabels(c);
      }
    }
  }

  lemma LabelKeysDiffer()
    ensures "compute.pola.rs/cluster" != "compute.pola.rs/component"
    ensures "compute.pola.rs/cluster" != "compute.pola.rs/template-hash"
    ensures "compute.pola.rs/component" != "compute.pola.rs/template-hash"
  {
    assert |"compute.pola.rs/cluster"| == 23 && |"compute.pola.rs/component"| == 25;
    assert |"compute.pola.rs/template-hash"| == 29;
  }

  lemma PodLabels(pod: Pod)
    ensures var labels := LabelsOf(pod);
            && "compute.pola.rs/cluster" in labels && labels["compute.pola.rs/cluster"] == pod.labels.cluster
            && "compute.pola.rs/component" in labels && labels["compute.pola.rs/component"] == pod.labels.component
  {
    LabelKeysDiffer();
  }

  lemma SelectorLabels(c: Cluster)
    ensures var selector := SchedulerLabels(c);
            && selector.Keys == {"compute.pola.rs/cluster", "compute.pola.rs/component"}
            && selector["compute.pola.rs/cluster"] == c.key.name
            && selector["compute.pola.rs/component"] == "scheduler"
  {
    LabelKeysDiffer();
  }

  // ---------- What is stored ----------

  /** The service of this slot selects exactly the cluster and component labels of the scheduler's pod, offers its
      ports, and takes type, annotations and the publishing of unready addresses from its own entry of the spec, with
      the defaults where that says nothing. */
  predicate Serves(svc: Service, c: Cluster, slot: nat)
    requires slot < SERVICE_COUNT
  {
    && svc.selector == SchedulerLabels(c)
    && svc.ports == ServicePorts(slot)
    && match ServiceEntry(c, slot)
       case None => svc.serviceType == "ClusterIP" && svc.annotations == map[] && svc.publishNotReadyAddresses
       case Some(entry) =>
         && svc.annotations == entry.annotations
         && (entry.serviceType.Some? && entry.serviceType.value != "" ==> svc.serviceType == entry.serviceType.value)
         && (entry.serviceType.None? || entry.serviceType.value == "" ==> svc.serviceType == "ClusterIP")
         && (svc.publishNotReadyAddresses <==> entry.publishNotReadyAddresses != Some(false))
  }

  /** That is what it means for a stored service to be as desired. */
  lemma PresentMeans(items: map<Key, Service>, c: Cluster, slot: nat)
    requires slot < SERVICE_COUNT
    ensures Present(items, slot, c) <==> ServiceKey(c, slot) in items && Serves(items[ServiceKey(c, slot)], c, slot)
  {
    assert slot == 0 || slot == 1 || slot == 2;
  }

  /** A task that ends without error leaves its service so, whatever was read and stored before. */
  lemma TaskServes(store: ServiceStore, cached: map<Key, Service>, c: Cluster, slot: nat, faults: Faults)
    requires slot < SERVICE_COUNT && Reads(cached)
    ensures var r, key := ServiceStep(store, cached, c, slot, faults), ServiceKey(c, slot);
            r.err.None? ==>
              && key in r.store.items && Serves(r.store.items[key], c, slot)
              && LeadsToScheduler(r.store.items[key].selector, c)
  {
    hide ServiceStep, Serves, Present, LeadsToScheduler, SchedulerLabels;
    StepEffect(store, cached, c, slot, faults);
    PresentMeans(ServiceStep(store, cached, c, slot, faults).store.items, c, slot);
    SelectorLeads(c);
    ServesSelects(ServiceStep(store, cached, c, slot, faults).store.items, c, slot);
  }

  lemma ServesSelects(items: map<Key, Service>, c: Cluster, slot: nat)
    requires slot < SERVICE_COUNT
    ensures ServiceKey(c, slot) in items && Serves(items[ServiceKey(c, slot)], c, slot) ==>
              items[ServiceKey(c, slot)].selector == SchedulerLabels(c)
  {
  }

  // ---------- Labels, owner and cluster IP ----------

  predicate Labelled(labels: map<string, string>, key: string, value: string) {
    key in labels && labels[key] == value
  }

  /** The tag the runtime's dist image has, if a runtime is configured. */
  predicate HasTag(c: Cluster, tag: string) {
    c.spec.runtime.Some?
    && (if c.spec.runtime.value.distTag != "" then tag == c.spec.runtime.value.distTag else tag == c.spec.version)
  }

  /** The standard labels of a scheduler object, and the cluster's; the version only where there is a tag. */
  ghost predicate SchedulerObject(labels: map<string, string>, c: Cluster) {
    && Labelled(labels, "app.kubernetes.io/name", "polars")
    && Labelled(labels, "app.kubernetes.io/instance", c.key.name)
    && Labelled(labels, "app.kubernetes.io/component", "scheduler")
    && Labelled(labels, "app.kubernetes.io/managed-by", "polars-operator")
    && Labelled(labels, "compute.pola.rs/cluster", c.key.name)
    && (forall tag :: HasTag(c, tag) && tag != "" ==> Labelled(labels, "app.kubernetes.io/version", tag))
    && ("app.kubernetes.io/version" in labels ==> exists tag :: HasTag(c, tag) && tag != "")
    && |labels| <= 6
  }

  /** The lengths of the keys tell them apart. */
  lemma ObjectKeysDiffer()
    ensures var keys := ["app.kubernetes.io/name", "app.kubernetes.io/instance", "app.kubernetes.io/component",
                         "app.kubernetes.io/managed-by", "app.kubernetes.io/version", "compute.pola.rs/cluster"];
            forall i, j :: 0 <= i < j < 6 ==> keys[i] != keys[j]
  {
    assert |"app.kubernetes.io/name"| == 22 && |"app.kubernetes.io/instance"| == 26;
    assert |"app.kubernetes.io/component"| == 27 && |"app.kubernetes.io/managed-by"| == 28;
    assert |"app.kubernetes.io/version"| == 25 && |"compute.pola.rs/cluster"| == 23;
  }

  lemma SchedulerObjectLabelled(c: Cluster)
    ensures SchedulerObject(SchedulerObjectLabels(c), c)
  {
    ObjectKeysDiffer();
    var labels := SchedulerObjectLabels(c);
    assert labels.Keys <= {"app.kubernetes.io/name", "app.kubernetes.io/instance", "app.kubernetes.io/component",
                           "app.kubernetes.io/managed-by", "app.kubernetes.io/version", "compute.pola.rs/cluster"};
    if "app.kubernetes.io/version" in labels { assert HasTag(c, DistTag(c)); }
  }

  /** A service the task created also carries those labels, belongs to the cluster and has the cluster IP its entry asks
      for; one that was there before keeps its labels, cluster IP and owner. */
  lemma TaskKeepsOrCreates(store: ServiceStore, cached: map<Key, Service>, c: Cluster, slot: nat, faults: Faults)
    requires slot < SERVICE_COUNT && Reads(cached) && ServiceStep(store, cached, c, slot, faults).err.None?
    ensures var r, key := ServiceStep(store, cached, c, slot, faults), ServiceKey(c, slot);
            && key in r.store.items
            && var svc := r.store.items[key];
               if key !in store.items then
                 && SchedulerObject(svc.labels, c) && svc.controller == Some(OwnerRef("PolarsCluster", c.key.name, c.uid))
                 && svc.clusterIP == (if ServiceEntry(c, slot).Some? then ServiceEntry(c, slot).value.clusterIP else "")
               else
                 key in cached && svc.labels == cached[key].labels && svc.clusterIP == cached[key].clusterIP
                 && svc.controller == cached[key].controller
  {
    hide ClassifyAPIError, IsNotFound, SchedulerObject, SchedulerObjectLabels, ServiceSelector, TypeOf, PublishOf, Targets,
      ServiceEntry, ConfigOf;
    SchedulerObjectLabelled(c);
    TargetMeans(c, slot);
  }

  lemma TargetMeans(c: Cluster, slot: nat)
    requires slot < SERVICE_COUNT
    ensures Targets(c)[slot].key == ServiceKey(c, slot)
    ensures ConfigOf(Targets(c)[slot]).clusterIP ==
            if ServiceEntry(c, slot).Some? then ServiceEntry(c, slot).value.clusterIP else ""
  {
    assert slot == 0 || slot == 1 || slot == 2;
  }
}
