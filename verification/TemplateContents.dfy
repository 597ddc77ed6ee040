/** What the operator hands to the merge of a pod template, when it refuses to, and that the accounts pods run as
    exist. */
module TemplateContents {
  import opened Kube
  import opened Errors
  import opened EnvBuilder
  import opened PolarsCluster
  import opened PodEnv
  import opened PodTemplates
  import opened ApiServer
  import opened EnvTables
  import Services

  // ---------- The patch ----------

  /** What is merged onto the first container, if there is one, or onto a container of the component's name: the
      computed environment, and a probe unless the user has one. */
  ghost predicate Patches(patch: Patch, base: PodTemplate, component: string, table: set<EnvVar>) {
    && Elements(patch.env) == table
    && (if base.containers == [] then patch.containerName == component && patch.injectProbe
        else patch.containerName == base.containers[0].name
             && (patch.injectProbe <==> !base.containers[0].hasReadinessProbe))
  }

  /** The result of building a template: an error when there is no container to run and no runtime to bring one, or when
      the merge fails; otherwise what the merge makes of the user's template, under this account. */
  ghost predicate Builds(r: Result<PodSpec, Error>, base: PodTemplate, c: Cluster, lib: Library, component: string,
                         table: set<EnvVar>, account: string) {
    if base.containers == [] && c.spec.runtime.None? then
      r.Failed? && r.error.Spec? && r.error.reason == "InvalidPodTemplate"
    else
      exists patch :: Patches(patch, base, component, table)
        && match lib.mergePodSpec(base, patch)
           case Ok(merged) => r == Ok(PodSpec(merged, account))
           case Failed(e) => r.Failed? && r.error.Spec? && r.error.reason == "InvalidPodTemplate"
  }

  function UserTemplate(t: Option<PodTemplate>): PodTemplate {
    if t.Some? then t.value else PodTemplate([], "")
  }

  /** The account a component's pods run as: the one named, else the one created for it, else the default. */
  function RunsAs(spec: Option<ServiceAccountSpec>, created: string): string {
    if spec.Some? && spec.value.name != "" then spec.value.name
    else if spec.Some? && spec.value.create then created
    else "default"
  }

  lemma WorkerTemplateBuilds(c: Cluster, lib: Library)
    ensures var base := UserTemplate(c.spec.workerPool.podTemplate);
            var cpu := if base.containers == [] then None else base.containers[0].cpuRequest;
            Builds(WorkerTemplate(c, lib), base, c, lib, "worker", WorkerTable(c, cpu),
                   RunsAs(c.spec.workerPool.serviceAccount, c.key.name + "-worker"))
  {
    hide WorkerEnv, WorkerTable;
    var base := UserTemplate(c.spec.workerPool.podTemplate);
    var cpu := if base.containers == [] then None else base.containers[0].cpuRequest;
    WorkerEnvIsTable(c, cpu);
    assert Patches(WorkerPatch(c), base, "worker", WorkerTable(c, cpu));
  }

  lemma SchedulerTemplateBuilds(c: Cluster, lib: Library)
    ensures var s := c.spec.scheduler;
            var base := UserTemplate(if s.Some? then s.value.podTemplate else None);
            Builds(SchedulerTemplate(c, lib), base, c, lib, "scheduler", SchedulerTable(c),
                   RunsAs(if s.Some? then s.value.serviceAccount else None, c.key.name + "-scheduler"))
  {
    hide SchedulerEnv, SchedulerTable;
    var s := c.spec.scheduler;
    var base := UserTemplate(if s.Some? then s.value.podTemplate else None);
    SchedulerEnvIsTable(c);
    assert Patches(SchedulerPatch(c), base, "scheduler", SchedulerTable(c));
  }

  // ---------- The accounts ----------

  /** The account the spec asks the operator to create for a component. */
  function Asked(c: Cluster, spec: Option<ServiceAccountSpec>, created: string): set<Key> {
    if spec.Some? && spec.value.create
    then {Key(c.key.namespace, if spec.value.name != "" then spec.value.name else created)} else {}
  }

  function AllAsked(c: Cluster): set<Key> {
    Asked(c, if c.spec.scheduler.Some? then c.spec.scheduler.value.serviceAccount else None, c.key.name + "-scheduler")
    + Asked(c, c.spec.workerPool.serviceAccount, c.key.name + "-worker")
  }

  /** No creation reports that an account exists which does not. */
  ghost predicate NoFalseExists(accounts: set<Key>, faults: Faults) {
    forall k :: k !in accounts && faults(AccountCreate(k)).Some? ==>
      !HasReason(faults(AccountCreate(k)).value, AlreadyExists)
  }

  lemma AccountStepAsked(accounts: set<Key>, c: Cluster, spec: Option<ServiceAccountSpec>, created: string,
                         faults: Faults)
    ensures var r := Services.AccountStep(accounts, c, spec, created, faults);
            && accounts <= r.accounts <= accounts + Asked(c, spec, created)
            && (NoFalseExists(accounts, faults) && r.err.None? ==> Asked(c, spec, created) <= r.accounts)
            && (r.err.Some? ==> r.accounts == accounts)
  {
    hide ClassifyAPIError;
  }

  /** The accounts stage creates accounts the spec asks for and no others, and if it succeeds they all exist. */
  lemma AccountsAsAsked(accounts: set<Key>, c: Cluster, faults: Faults)
    ensures var r := Services.AccountsPass(accounts, c, faults);
            && accounts <= r.accounts <= accounts + AllAsked(c)
            && (NoFalseExists(accounts, faults) && r.err.None? ==> AllAsked(c) <= r.accounts)
  {
    hide Services.AccountStep, Asked, NoFalseExists;
    var scheduler := if c.spec.scheduler.Some? then c.spec.scheduler.value.serviceAccount else None;
    AccountStepAsked(accounts, c, scheduler, c.key.name + "-scheduler", faults);
    var first := Services.AccountStep(accounts, c, scheduler, c.key.name + "-scheduler", faults);
    AccountStepAsked(first.accounts, c, c.spec.workerPool.serviceAccount, c.key.name + "-worker", faults);
    StillNoFalseExists(accounts, first.accounts, faults);
  }

  lemma StillNoFalseExists(accounts: set<Key>, more: set<Key>, faults: Faults)
    requires accounts <= more
    ensures NoFalseExists(accounts, faults) ==> NoFalseExists(more, faults)
  {
  }

  /** The pods of a component whose account the operator creates run as an account that then exists. */
  lemma PodsRunAsCreated(accounts: set<Key>, c: Cluster, lib: Library, faults: Faults)
    requires NoFalseExists(accounts, faults) && Services.AccountsPass(accounts, c, faults).err.None?
    ensures var after, s, w := Services.AccountsPass(accounts, c, faults).accounts, c.spec.scheduler,
              c.spec.workerPool.serviceAccount;
            && (s.Some? && s.value.serviceAccount.Some? && s.value.serviceAccount.value.create
                && SchedulerTemplate(c, lib).Ok? ==>
                  Key(c.key.namespace, SchedulerTemplate(c, lib).value.serviceAccountName) in after)
            && (w.Some? && w.value.create && WorkerTemplate(c, lib).Ok? ==>
                  Key(c.key.namespace, WorkerTemplate(c, lib).value.serviceAccountName) in after)
  {
    hide Services.AccountsPass, NoFalseExists, WorkerEnv, SchedulerEnv, WorkerTable, SchedulerTable, WorkerTemplate,
      SchedulerTemplate, Patches;
    AccountsAsAsked(accounts, c, faults);
    WorkerTemplateBuilds(c, lib);
    SchedulerTemplateBuilds(c, lib);
  }
}
