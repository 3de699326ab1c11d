# HBase operator: what its reconcilers guarantee

A model, and proofs about it, of the Kubernetes operator that runs HBase clusters, tenants and
standalones; of the scripts with which the containers of one pod start and stop in step; and of the
rack topology file. Check it with `dafny verify dfyconfig.toml`.

## What is modelled

**The protocol.** A reconcile pass walks the objects a custom resource asks for in a fixed order. It
compares the digest of each with the one in a process-wide hash store, creates or updates the object
and usually stops there. `Protocol` gives this as functions on worlds (API server objects and hash
store) that take the API server's answers (failures, statuses, resource versions) as input; a run is
any sequence of passes of any custom resources, each as it is at that moment, and of operator
restarts. `Operator` has the same as it runs: classes for the API server and the reconcilers, with
their loops, early returns and the shared hash store. Each method is proved to do to the world, and
to append to a trace of writes, exactly what the protocol's functions say. `Builders` has the
builders as they run, with Go maps on the heap that are written in place and shared; each is tied to
the function in `Resources` that says what it builds.

**The theorems** are about an abstract plan (the tasks before the config version is read, where it is
read, the tasks after) in `TaskFacts`, `Passes`, `Convergence`, `Agreement`, `Staging`, `Provenance`,
`Rollout`, `Propagation` and `Interleaving`. `Plans` gives the plan of each custom resource and proves
that it has what the theorems ask for; `Names` proves from conditions on names that its hash keys do
not clash; `Controllers`, `Guarantees`, `Standalones`, `ServiceLabels`, `Selectors` and `Addresses` say what
follows for clusters, tenants and standalones. `Locality` shows that next to others a custom resource's
objects fare as in the run of its own passes, and `Together` lifts the theorems about runs to runs with
passes of any others that share no hash key; `Neighbours` says when several converge.

**What it comes to, value by value.** `Steps` says case by case what reconciling one object does, with the
seconds, hash keys and status fields that the operator uses; `Objects` says field by field what the objects
asked for look like; `Coverage` says, from the label's value and the fields of the custom resource, which
config maps its passes write and which config version they work with; `Reach` does so for the components'
objects and what a pass does before it writes one; `FirstPass` gives the writes of a first pass in order;
`RackLaws` has the rack file and the lookup by character. These are written with literal values and the
fields of the custom resource, without the helper functions that the methods' contracts are made of.

**Beside the operator.** `Lifecycle` and `Failover` model the start and stop scripts of the
regionserver with the datanode and of the namenode with the zkfc; `Rack` models the Java writer and
the shell reader of the topology file, character by character.

## Assumptions

The code needs these; they are preconditions of theorems or part of the data model, not proved.

- SHA-256 does not collide: a digest stands for the hashed part itself. That part is a Service's spec
  before its cluster IP is filled in, a ConfigMap's data, a whole StatefulSet or disruption budget.
- No two objects share a hash key. Only `cfg-` keys contain the namespace, without a separator
  (operator/controllers/utils.go:738, 795, 835, 963). `Names.DistinctNames` is a condition on names
  that implies this within one custom resource; across custom resources it is asked for, and
  `Neighbours.NeighboursConvergeIff` says what happens otherwise.
- The HBase and the Hadoop ConfigMap of a custom resource have different names (part of
  `Names.DistinctNames`), and each ConfigMap is written by one custom resource.
- Components bring no config-version annotation of their own (`Plans.Unstamped`).
- Nobody else edits hashed fields or deletes owned objects; `Agreement.ForeignDeletion` says what
  happens otherwise.
- Where a theorem says so, the read behind the config version succeeds or says that there is no such
  object. Other read errors also count as no version (operator/controllers/utils.go:87-97, 107-118);
  `Rollout.SettledPassIsQuietIff` says exactly when that does harm.
- An object's owner is identified by kind and name; the UID in the owner reference is not modelled.
- A failed write leaves no trace, an update replaces the whole object, and the answer to a create
  fills in the resource version of the object that was passed in.
- A pod carries the labels of its template and its own name under the pod-name label.
- Inputs are: a znode's children in the order in which they are listed, the address that each resolves
  to or that it does not, and its value; the lists of names that the scripts iterate over. Backslashes
  and glob characters do not occur in the rack file.

## What turned out not to hold

- An operator restart does change pod templates, in the true or yes mode of a cluster or tenant, exactly
  if the HBase ConfigMap carries the update-time annotation (`Together.RestartIsHarmlessIff`).
- A disruption budget matches the pods of another component of a cluster or standalone exactly if its
  own component has no label map (`Selectors.BudgetLeavesOthersAlone`); a tenant's with an empty one
  matches all pods of a cluster of the tenant's name (`Selectors.TenantBudgetsAreWide`); and it misses
  its own exactly if the component is labelled with another pod's name
  (`Selectors.BudgetCoversItsPods`).
- A standalone's config version is not that of an annotated ConfigMap, and wherever passes come to
  rest it is gone again (`Standalones`).
- Edited service labels do not reach the API server by themselves: a pass writes them exactly if it
  gets to the service and the service is absent or its digest out of date, which it is after a change
  of the spec or a restart but not after a change of the labels (`ServiceLabels.LabelsAreWrittenIff`,
  `ServiceLabels.LastEditIsWrittenIff`).
- A pod does not end on every SIGTERM. Each script ends exactly under the conditions of
  `Lifecycle.QuiescentEnds`, which depend on whether SIGTERM came before its trap (and whether the
  script survived that), between its trap and its launch, or later; `Lifecycle.ShutDownIff` combines
  them for the pod. Of the pods that do not end, three are shown: the datanode's handler waits for ever
  (`Lifecycle.DatanodeMayWaitForEver`), both daemons run on (`Lifecycle.BothMayMissTheSignal`), the
  regionserver runs on alone (`Lifecycle.RegionserverMayStay`).
- The datanode may stop before the regionserver: in the moment between the regionserver's flag and its
  stop, and for good if SIGTERM came between the regionserver's trap and its launch; in no other
  situation (`Lifecycle.OutlivesOnlyIf`, `Lifecycle.CanOutlive`, `Lifecycle.OutlivesForGoodIff`).
- Several custom resources, each reconciled again and again without a failure and with everything ready,
  do not all converge: they do if and only if wherever two of them share a hash key they ask for the
  same content, and otherwise something is written again and again, for ever
  (`Neighbours.NeighboursConvergeIff`). Sharing a service's hash key can be harmless; two components of
  one name (`Neighbours.SameNamesClash`), or two custom resources, such as a cluster and its tenant,
  that write one HBase ConfigMap with different files (`Neighbours.SharedConfigMapsClash`), are not.
- A rack value with a blank in it comes back cut at its first word (`Rack.RoundTrip`).

## Model

| member | source | states |
|---|---|---|
| Convergence.EveryWriteIsProgress | operator/controllers/hbasecluster_controller.go:91-183 | for a fixed resource every writing pass makes the lexicographic pair (work on config maps, work on the rest) smaller and every other pass changes nothing, whatever fails and whatever the statuses are |
| Convergence.EventuallyQuiet | operator/controllers/hbasecluster_controller.go:64-184 | every endless run has a pass from which on nothing is written and the world stays the same |
| Convergence.Converges | operator/controllers/hbasecluster_controller.go:64-184 | if from some pass on nothing fails and everything is ready, all passes from some point on are clean and write nothing |
| Controllers.ResourceConverges | operator/controllers/hbasetenant_controller.go:55-148 | both of these for every well-formed cluster, tenant and standalone |
| Neighbours.NeighboursConvergeIff | operator/controllers/hbasecluster_controller.go:48 | any clusters, tenants and standalones, each reconciled again and again without a failure and with everything ready, are all eventually left alone if and only if wherever two of them share a hash key they ask for the same content |
| Neighbours.AllConverge | operator/controllers/controller_options.go:6-8 | plans that never ask for different contents under one hash key, reconciled in any order under any failures and statuses, are all eventually left alone |
| Neighbours.QuietMeansClean | operator/controllers/hbasecluster_controller.go:64-184 | from then on a pass in which nothing fails and everything is ready is clean |
| Neighbours.NeighboursConverge | operator/controllers/hbasecluster_controller.go:48 | both for any custom resources that agree wherever they share a hash key |
| Neighbours.CompatibleOrClash | operator/controllers/utils.go:738-963 | two custom resources either agree under every shared hash key whatever their versions, or disagree under one whatever their versions |
| Neighbours.ClashesGoOnForEver | operator/controllers/utils.go:835-842 | two that clash are never both left alone: from any pass on, until each has been reconciled once without a failure and with everything ready, something is written |
| Neighbours.SameNamesClash | operator/controllers/utils.go:835 | so do any two with components of one name |
| Neighbours.SharedConfigMapsClash | operator/controllers/utils.go:738 | so do any two that write the HBase ConfigMap of one namespace under one name with different data |
| Locality.PassIsLocal | operator/controllers/utils.go:718-980 | a pass's outcome, writes and effect on its own objects and digests depend on these only |
| Locality.RunProjects | operator/controllers/hbasecluster_controller.go:48 | on its own objects and digests a run next to passes of others ends like the run of its own passes and the restarts |
| TaskFacts.WorkIsConserved | operator/controllers/utils.go:718-980 | each write does exactly one unit of work (one per absent object, one per outdated digest), and nothing else does any |
| TaskFacts.RunConcat | operator/controllers/hbasecluster_controller.go:109-181 | a pass stops at the first object that does not come out clean: lists of tasks compose |
| Passes.WriteDiscipline | operator/controllers/hbasecluster_controller.go:91-183 | the writes of a pass are creates of services and config maps followed by at most one other write, with which the pass ends without an error |
| Passes.AtMostOneOtherWrite | operator/controllers/utils.go:718-980 | so a pass makes at most one update and touches at most one StatefulSet or budget, and is then not clean |
| Passes.PassAccounted | operator/controllers/utils.go:718-980 | nothing disappears, and every changed object or digest is one of the recorded writes |
| Passes.VersionIsSteady | operator/controllers/utils.go:87-124 | as long as no ConfigMap is written, a pass leaves the config version that the next one will find as it was |
| Passes.PassVersionIsSteady | operator/controllers/hbasecluster_controller.go:125-139 | what a pass creates before it reads the version does not change that version, except for a standalone |
| Plans.PlanIsSound | operator/controllers/hbasecluster_controller.go:125-181 | every plan asks for config maps before and for none after the version is read, stamps exactly that version on every StatefulSet, and asks for the StatefulSet it may come from |
| Steps.GateIff | operator/controllers/utils.go:845-852 | the readiness gate: an up-to-date StatefulSet that can be read lets the pass go on if and only if its ready replicas are those asked for and its current revision is its update revision; otherwise the pass ends and asks for another after ten seconds |
| Steps.CurrentGoesOn | operator/controllers/utils.go:795-808 | any other up-to-date object lets it go on |
| Steps.CreateStep | operator/controllers/utils.go:722-735 | an absent object is created as asked for, unannotated, with no digest remembered, and after a StatefulSet or budget the pass ends for five seconds |
| Steps.UpdateStep | operator/controllers/utils.go:738-759 | an outdated one is replaced and its digest remembered; a ConfigMap is annotated if and only if a digest was remembered before; after a StatefulSet or budget the pass ends for ten seconds, otherwise for five |
| Steps.AddressStep | operator/controllers/utils.go:769-771 | a service keeps the address of its spec, or else the one it was given |
| Steps.FailureLeavesNoTrace | operator/controllers/utils.go:726-737 | a failed read, or a failed write where one is due, changes nothing and ends the pass with an error and five seconds |
| Steps.ChecksStop | operator/controllers/hbasecluster_controller.go:98-103 | a check that fails ends the pass with an error |
| Agreement.CacheAgreement | operator/controllers/utils.go:738-757 | in every reachable state a remembered digest is that of an object that is there, over edits, failures and restarts |
| Agreement.ForeignDeletion | operator/controllers/utils.go:722-735 | if somebody else deletes an object the agreement breaks, and the next create restores it if and only if what is asked for has the remembered digest |
| Agreement.CleanPassMeansDone | operator/controllers/hbasecluster_controller.go:91-183 | after a clean pass every wanted object is there with the wanted content, every check held and no StatefulSet was seen unready in that pass |
| Guarantees.CleanPassMeansUp | operator/controllers/hbasecluster_controller.go:141-183 | after a clean pass over a cluster, tenant or standalone its service and config maps and each component's objects are as asked for, and each StatefulSet was read in that pass with all replicas of its size ready at one revision |
| Coverage.ConfigMapsAreThere | operator/controllers/hbasecluster_controller.go:105-123 | after a clean pass both config maps, each file that of the last override for the namespace or else the base's, are there in every namespace of tenantNamespaces and the own one of a cluster, in that of a standalone, and in that of a tenant labelled config-only, true or yes |
| Coverage.ConfigWritesStay | operator/controllers/hbasecluster_controller.go:105-123 | no pass writes a ConfigMap of another name or in another namespace, a tenant with another label none at all |
| Coverage.OwnNamespaceLast | operator/controllers/hbasecluster_controller.go:105-123 | after a ConfigMap of a cluster's own namespace a pass writes none of a tenant namespace |
| Coverage.InvalidConfigurationStops | operator/controllers/hbasecluster_controller.go:91-103 | a pass over a custom resource whose configuration is looked at and invalid is never clean and writes nothing but the service of a cluster or standalone |
| Coverage.CleanMeansValid | operator/controllers/utils.go:451-474 | a clean pass means that no volume has a malformed limit and the configuration, where it is looked at, is valid |
| Coverage.UnreadStops | operator/controllers/hbasecluster_controller.go:64-79 | a pass that cannot read its custom resource changes nothing and ends with an error and five seconds |
| Reach.ComponentsAreThere | operator/controllers/hbasecluster_controller.go:141-181 | after a clean pass each component's StatefulSet is there, its budget if it has one, and in a cluster a service for each pod if it asks for them, with the content asked for |
| Reach.WritesAreOwn | operator/controllers/hbasecluster_controller.go:141-181 | and no pass writes anything else |
| Reach.PodServicesComeFirst | operator/controllers/hbasecluster_controller.go:143-170 | a pass that writes a component's StatefulSet leaves behind a service for each of its pods |
| Reach.BudgetComesLast | operator/controllers/hbasecluster_controller.go:166-181 | a pass that writes a component's budget has read its StatefulSet, current and with all replicas ready at one revision |
| FirstPass.FirstPassCreates | operator/controllers/hbasecluster_controller.go:64-181 | with no objects and no failures a pass creates, in this order, the service (a tenant's after its config maps), for each namespace the HBase and the Hadoop ConfigMap, the own one last, the pod services of the first component and its StatefulSet, and ends there for five seconds |
| Agreement.SettledPassWritesNothing | operator/controllers/utils.go:738-761 | passes over a settled world write nothing |
| Agreement.ConvergedIsSettled | operator/controllers/utils.go:738-761 | conversely, where a pass is clean and writes nothing everything is there and every digest up to date |
| Staging.WritesOnlyAfterSeen | operator/controllers/utils.go:810-853 | a pass that writes a StatefulSet or budget has in this pass seen each earlier one there, up to date and ready |
| Staging.StagedBringUp | operator/controllers/hbasecluster_controller.go:141-181 | in every reachable state the StatefulSets that exist are the first ones of the bring-up order |
| Controllers.BringUpOrder | operator/controllers/hbasecluster_controller.go:86-89 | the order is zookeeper, if it has a size, journalnode, namenode, datanode, hmaster, whatever the version |
| Controllers.ComponentsComeUpInOrder | operator/controllers/hbasecluster_controller.go:86-181 | starting with none, a component's StatefulSet exists only together with those of all earlier components |
| Guarantees.EarlierComponentsAreReady | operator/controllers/hbasecluster_controller.go:141-181 | a pass that writes a component's StatefulSet has read the StatefulSet of every earlier component, current and with all replicas ready at one revision |
| Controllers.KeysDoNotDependOnVersion | operator/controllers/utils.go:476-579 | the config version changes what is asked for but not of which objects |
| Controllers.LabelDecides | operator/controllers/hbasetenant_controller.go:79-115 | the label's values true and yes restart pods, these and config-only make a tenant write its config maps |
| Coverage.PassVersionByLabel | operator/controllers/hbasetenant_controller.go:104-115 | a pass whose read succeeds works with the resource version of the annotated HBase ConfigMap if the label's value is true or yes, and with the version on the datanode's StatefulSet for config-only, any other value or no label; the same before and after what it creates |
| Coverage.FailedReadIsNoVersion | operator/controllers/utils.go:87-97 | if the read fails it works with no version |
| Coverage.PodsCarryVersionByLabel | operator/controllers/utils.go:496-499 | after a clean pass the pods of every component carry exactly that version |
| Coverage.ConfigOnlyKeepsVersion | operator/controllers/hbasetenant_controller.go:111-115 | with any label but true and yes no pass changes the version on the datanodes, however the ConfigMap changes |
| Provenance.VersionProvenance | operator/controllers/utils.go:87-124 | every version on a StatefulSet was, at an earlier moment, the resource version of a ConfigMap while annotated, over any switches of the label |
| Guarantees.EveryVersionHasAPast | operator/controllers/hbasetenant_controller.go:104-115 | the same for all clusters and tenants, next to any other custom resources |
| Rollout.ConfigOnlyNonInterference | operator/controllers/hbasetenant_controller.go:79-115 | with everything else settled, passes that differ only in config maps leave everything else alone |
| Together.FileEditsLeavePodsAlone | operator/controllers/hbasetenant_controller.go:79-115 | with the label neither true nor yes, edits of configuration files lead in every later run to ConfigMap writes only, and no other object of the custom resource changes, next to passes of any others |
| Guarantees.FilesDoNotReachPods | operator/controllers/utils.go:476-579 | StatefulSets, budgets and services do not depend on the contents of configuration files |
| Rollout.UpgradeSafety | operator/controllers/utils.go:738-757 | as long as the data of the config maps stays the same, every digest a fresh operator remembers is that of an unannotated ConfigMap, also over further restarts, and it stamps no version |
| Rollout.UpdatesAreCounted | operator/controllers/utils.go:738-757 | over such a run each ConfigMap is updated at most once, not at all if its digest was known, and at most once more for each restart |
| Together.OneUpdatePerStart | operator/controllers/hbasecluster_controller.go:109-139 | so it is for the HBase ConfigMap of a cluster or tenant, whatever the label and however it changes, next to passes of any others |
| Together.UpgradesDoNotVersion | operator/controllers/hbasecluster_controller.go:125-139 | a freshly started operator never puts a version on an unversioned cluster or tenant, in any number of passes and restarts, whatever the label, next to passes of any others |
| Rollout.RestartSafety | operator/controllers/utils.go:107-124 | in the other modes any restarts and passes rewrite objects with the content they have |
| Rollout.RestartUnversions | operator/controllers/utils.go:741-752 | in the true or yes mode, if the ConfigMap was annotated, one and the same run after a restart takes the version off every StatefulSet of the plan |
| Together.RestartIsHarmlessIff | operator/controllers/utils.go:738-757 | restarts, in any run with passes of its own and of others, change the content of no object of a settled custom resource if and only if it is a standalone, its label is neither true nor yes or its HBase ConfigMap is unannotated |
| Rollout.SettledPassIsQuietIff | operator/controllers/utils.go:87-118 | a failed read of the version makes a pass over a settled world write if and only if there is a version to be lost |
| Propagation.RewriteComesFirst | operator/controllers/hbasecluster_controller.go:109-139 | until a changed ConfigMap has been rewritten no StatefulSet or budget is touched |
| Propagation.RewrittenOnce | operator/controllers/utils.go:738-759 | it is rewritten once and then stays as it is |
| Propagation.ChangePropagates | operator/controllers/utils.go:496-499 | the next clean pass comes after the rewrite and leaves every StatefulSet with exactly the rewritten ConfigMap's resource version |
| Together.ChangeReachesEveryComponent | operator/controllers/hbasecluster_controller.go:109-161 | the same for every component of a cluster or tenant whose label is true or yes, next to passes of any others |
| Together.NothingRestartsBeforeTheRewrite | operator/controllers/hbasecluster_controller.go:109-139 | and nothing of it is restarted before |
| Interleaving.SoloPass | operator/controllers/hbasecluster_controller.go:64-184 | a pass made of single reads, writes and hash store accesses has the effect of the pass as a function |
| Interleaving.StepIsLocal | operator/controllers/utils.go:718-980 | one such step depends on and changes only the pass's own objects and hash keys |
| Interleaving.EachAsAlone | operator/controllers/hbasetenant_controller.go:153 | in the midst of any interleaving each pass, and its part of the world, is as if it were alone |
| Interleaving.InterleavingDoesNotMatter | operator/controllers/controller_options.go:6-8 | two complete interleavings of the same passes end in the same state |
| Interleaving.Serializable | operator/controllers/hbasecluster_controller.go:48 | and that is the state and these are the outcomes of running the passes one after the other |
| Guarantees.ResourcesAreSerializable | operator/controllers/hbasetenant_controller.go:153 | the same for custom resources whose objects share no hash key |
| Standalones.StandaloneVersionIff | operator/controllers/hbasestandalone_controller.go:90-101 | a standalone's pass works with a version if and only if this pass created its Hadoop ConfigMap, which is not the HBase one, and then with that create's resource version |
| Standalones.StandaloneVersionHasNoPast | operator/controllers/hbasestandalone_controller.go:97-101 | that ConfigMap is not annotated |
| Standalones.StandaloneRestsUnversioned | operator/controllers/hbasestandalone_controller.go:97-108 | where passes come to rest a standalone's StatefulSet has no version |
| ServiceLabels.LabelsAreWrittenIff | operator/controllers/utils.go:764-804 | after any pass over a cluster, tenant or standalone its service has the labels asked for if and only if it had them, or the pass got to the service and that was absent or its digest out of date |
| ServiceLabels.RestartWritesLabels | operator/controllers/utils.go:795-803 | the first pass after a restart that gets to the service writes edited labels |
| ServiceLabels.LabelEditsWaitForRestart | operator/controllers/utils.go:795-803 | without a restart no edits of the labels, in any number of passes, next to passes of any others, change an up-to-date service |
| ServiceLabels.ActsDecide | operator/controllers/utils.go:795-803 | after any run of label edits, failures, restarts and passes of others the service is up to date if and only if a pass has got to it since the last restart, and has the labels of the latest pass that was the first since a restart to get to it |
| ServiceLabels.LastEditIsWrittenIff | operator/controllers/utils.go:795-803 | after such a run a last edit is in the API server if and only if its labels are those written last, or its pass gets to the service and none has since the last restart |
| Guarantees.LabelEditsAreNotWritten | operator/controllers/hbasecluster_controller.go:84-139 | one pass with other service labels that keep the rollout mode writes nothing at all over a world settled before the edit |
| Addresses.PodServiceKeepsItsAddress | operator/controllers/utils.go:783-803 | a pod service keeps the address it was given, although updates replace the object and the spec leaves it open |
| HashKeys.KindsNeverCollide | operator/controllers/utils.go:738-963 | hash keys of objects of different kinds never coincide, whatever the names |
| HashKeys.SameKindKeys | operator/controllers/utils.go:738-963 | within a kind they coincide exactly if the names do, for config maps name and namespace joined |
| HashKeys.ConfigMapKeysCanCollide | operator/controllers/utils.go:738 | two config maps of different namespaces that share a hash key |
| Names.PodNameIsInjective | operator/controllers/hbasecluster_controller.go:143-156 | component and ordinal can be read off a pod's name |
| Names.DistinctNamesSuffice | operator/controllers/utils.go:738-963 | a custom resource with distinct names has no clashing hash keys |
| Names.NamesOfOneComponent | operator/controllers/utils.go:738-963 | for a tenant or standalone its names are distinct if and only if no pod is called like it and, where it writes config maps, the two have different names |
| Selectors.SelectorMatchesExactly | operator/controllers/utils.go:480-512 | which pods a StatefulSet's selector matches, for any two components of any two custom resources and any user labels |
| Selectors.SelectorCoversItsPods | operator/controllers/utils.go:855-901 | always its own pods |
| Selectors.SelectorsDoNotOverlap | operator/controllers/utils.go:876-901 | with several StatefulSets per resource never those of another component |
| Selectors.BudgetCoversItsPods | operator/controllers/utils.go:912-941 | a disruption budget built after its StatefulSet matches a pod of it unless the component is labelled with another pod's name |
| Selectors.BudgetMatchesPodsExactly | operator/controllers/utils.go:912-941 | which pods a budget matches, for any two components of any two custom resources: everybody's without a label map, otherwise those that the StatefulSet selects and that have the user's labels |
| Selectors.BudgetLeavesOthersAlone | operator/controllers/utils.go:922-926 | for components of any two clusters or standalones it matches no pod of another component or resource if and only if its component has labels of its own |
| Selectors.TenantBudgetsAreWide | operator/controllers/utils.go:496-512 | a tenant's budget whose component has an empty label map matches exactly the pods of custom resources of the tenant's name |
| Selectors.PodServiceMatchesOnePod | operator/controllers/utils.go:607-614 | a pod service matches exactly one pod |
| Selectors.OverlayIgnoresOthers | operator/controllers/utils.go:631-664 | a ConfigMap does not depend on the override elements for other namespaces |
| Selectors.OverlayTakesTheLast | operator/controllers/utils.go:631-664 | the last override of a file wins, files nobody overrides are the base's, the namespace entry is never copied |
| Objects.ConfigMapsAre | operator/controllers/utils.go:631-664 | the HBase and the Hadoop ConfigMap of a namespace, by key, labels and every file: that of the last override element for the namespace that has it, else the base's, the namespace entry never copied |
| Objects.InvalidIff | operator/controllers/utils.go:451-474 | a configuration is rejected if and only if one of the nine XML files is malformed, where a Hadoop file hides an HBase file of the same name |
| Objects.VolumesAre | operator/controllers/utils.go:126-210 | the volumes by source and field: first the two ConfigMaps, each under its own name, then the component's in order; the build fails if and only if the limit of an empty directory is malformed |
| Objects.MountsAre | operator/controllers/utils.go:436-446 | in a component's pods the directory for HBase shows the ConfigMap under whose key the HBase files are written, and the one for Hadoop that of the Hadoop files |
| Objects.StatefulSetIs | operator/controllers/utils.go:519-555 | name, namespace, owner, replicas, service name and images of a StatefulSet |
| Objects.TemplateIs | operator/controllers/utils.go:480-508 | the labels and annotations of its pods, one by one: the operator's own take the place of the user's |
| Objects.SelectorIs | operator/controllers/utils.go:509-512 | its selector, with the component's name except for tenants |
| Objects.BudgetIs | operator/controllers/utils.go:912-941 | a budget's name, labels and selector, and a minimum, or a maximum if no minimum is given, never both |
| Objects.ClusterServiceIs | operator/controllers/utils.go:581-629 | name, labels, lack of an address and selector of a custom resource's service |
| Objects.ServicePortsAre | operator/controllers/utils.go:585-596 | its ports: those of the components in bring-up order |
| Objects.PodServiceIs | operator/controllers/hbasecluster_controller.go:143-156 | name, selector and ports of a pod service |
| Objects.DecimalIs | operator/controllers/hbasecluster_controller.go:147 | the ordinal in a pod's name reads back as the ordinal, without leading zeros |
| Builders.BuildConfigMap | operator/controllers/utils.go:631-664 | grouping by namespace and copying, in any map order, gives a ConfigMap with the name, namespace and, file by file, the contents asked for |
| Builders.ValidateConfiguration | operator/controllers/utils.go:451-474 | accepts, in any map order, exactly the configurations without malformed XML |
| Builders.BuildVolumes | operator/controllers/utils.go:126-210 | the two ConfigMap volumes, each showing the ConfigMap of its name, and then the component's in order with the source and field of each, or an error exactly if an empty directory's limit is malformed |
| Builders.BuildLabels | operator/controllers/utils.go:480-512 | the selector, and the template's labels written into the component's own map |
| Builders.BuildStatefulSet | operator/controllers/utils.go:476-579 | the StatefulSet that `Objects` describes, an error exactly if a limit is malformed, and the component's own label map now being the template's |
| Builders.BuildPodDisruptionBudget | operator/controllers/utils.go:912-941 | a budget that selects by what the component's label map holds now |
| Builders.BuildService | operator/controllers/utils.go:581-629 | ports of all containers in order, selector written into the map that is passed in |
| Operator.ApiServer.Create | operator/controllers/utils.go:726-733 | adds the object and hands out its resource version, or fails without a trace |
| Operator.ApiServer.Update | operator/controllers/utils.go:753-756 | replaces the whole object, or fails without a trace |
| Operator.Reconciler.ReconcileConfigMap | operator/controllers/utils.go:718-762 | its effect on API server, hash store and trace, and its result, are those of the protocol's step; the new resource version exactly if it created the object |
| Operator.Reconciler.ReconcileService | operator/controllers/utils.go:764-808 | its whole effect is the protocol's step |
| Operator.Reconciler.ReconcileStatefulSet | operator/controllers/utils.go:810-853 | its whole effect, including the readiness gate, is the protocol's step |
| Operator.Reconciler.ReconcilePodDisruptionBudget | operator/controllers/utils.go:943-980 | its whole effect is the protocol's step |
| Operator.Reconciler.GetCfgResourceVersionIfV2OrNil | operator/controllers/utils.go:72-97 | the resource version if the ConfigMap can be read and is annotated, otherwise nothing |
| Operator.Reconciler.GetStatefulSetAnnotation | operator/controllers/utils.go:107-124 | the version on the pod template if it can be read and is there |
| Operator.Reconciler.ReconcileConfigs | operator/controllers/hbasecluster_controller.go:105-123 | the loop over the namespaces has the effect of the list of its tasks |
| Operator.Reconciler.ReconcilePodServices | operator/controllers/hbasecluster_controller.go:143-156 | the loop over the ordinals has the effect of the list of its tasks |
| Operator.Reconciler.ReconcileComponents | operator/controllers/hbasecluster_controller.go:141-181 | the loop over the components has the effect of the list of its tasks |
| Operator.Reconciler.ReconcileCluster | operator/controllers/hbasecluster_controller.go:64-184 | one pass over a cluster has the effect, outcome and writes of the pass that the theorems are about |
| Operator.Reconciler.ReconcileTenant | operator/controllers/hbasetenant_controller.go:55-148 | the same for a tenant |
| Operator.Reconciler.ReconcileStandalone | operator/controllers/hbasestandalone_controller.go:51-123 | the same for a standalone |
| Lifecycle.Handshake | helm-charts/hbase-chart/templates/meta/_rsscript.tpl:18-44 | in every interleaving the regionserver starts only after the datanode's daemon was launched, its socket was there and its flag raised, and the datanode or zkfc is told to stop only after the unload or failover has finished and the leader's flag is raised |
| Lifecycle.RunsEnd | helm-charts/hbase-chart/templates/meta/_zkfcscript.tpl:14-29 | rounds of waiting loops apart, every run of a pod is finite |
| Lifecycle.QuiescentEnds | helm-charts/hbase-chart/templates/meta/_dnscript.tpl:14-31 | where nothing can go on, the leader's script has ended if and only if SIGTERM came after its launch or killed it before its trap, the follower's if and only if SIGTERM killed it before its trap or came after its launch and found the leader's trap set |
| Lifecycle.QuiescentWaits | helm-charts/hbase-chart/templates/meta/_nnscript.tpl:59-61 | a script that has not ended waits for its running daemon, for the datanode's flag, or in its handler for the leader's flag |
| Lifecycle.ShutDownIff | helm-charts/hbase-chart/templates/meta/_dnscript.tpl:14-31 | a pod has shut down in order if and only if SIGTERM reached both containers after their launch; it has ended at all if and only if so, or SIGTERM killed the follower's script and came late to the leader or killed its script too; the follower waits for ever if and only if SIGTERM found its trap set but not the leader's |
| Lifecycle.DatanodeMayWaitForEver | helm-charts/hbase-chart/templates/meta/_rsscript.tpl:33-43 | a run in which it does |
| Lifecycle.BothMayMissTheSignal | helm-charts/hbase-chart/templates/meta/_rsscript.tpl:33-43 | a run in which both survive an early SIGTERM and run on |
| Lifecycle.SignalsAfterLaunch | helm-charts/hbase-chart/templates/meta/_rsscript.tpl:18-45 | if SIGTERM comes after the regionserver was launched every run ends in an orderly shutdown |
| Lifecycle.OutlivesOnlyIf | helm-charts/hbase-chart/templates/meta/_rsscript.tpl:28-30 | the follower is told to stop while the leader's daemon runs only between the leader's flag and its stop, or if SIGTERM came between the leader's trap and its launch |
| Lifecycle.CanOutlive | helm-charts/hbase-chart/templates/meta/_rsscript.tpl:28-44 | from every state of either kind it can happen, unless SIGTERM missed the follower's trap |
| Lifecycle.OutlivesForGoodIff | helm-charts/hbase-chart/templates/meta/_rsscript.tpl:43-45 | where nothing can go on it has happened if and only if SIGTERM came between the leader's trap and its launch and found the follower's trap set |
| Lifecycle.DatanodeMayStopFirst | helm-charts/hbase-chart/templates/meta/_rsscript.tpl:28-30 | a run of the first kind |
| Lifecycle.RegionserverMayStay | helm-charts/hbase-chart/templates/meta/_rsscript.tpl:43-45 | a run of the second kind, after which the regionserver runs on without a datanode |
| Failover.MyService | helm-charts/hbase-chart/templates/meta/_nnscript.tpl:46-55 | the last namenode with the host's address |
| Failover.Shutdown | helm-charts/hbase-chart/templates/meta/_nnscript.tpl:14-35 | a failover is asked for exactly if the namenode is active, knows its name and another one is the first on standby; never to itself |
| Rack.RefreshRacks | utilities/rackuitls/src/main/java/com/flipkart/hbase/HbaseRackUtils.java:55-70 | writes one line for each child that resolves, in order |
| Rack.RackTopology | examples/utilities/scripts/rack_topology:4-33 | one answer for each argument, from the last matching line; one default answer without arguments or file |
| Rack.LinesOfText | examples/utilities/scripts/rack_topology:17 | the lines that are read are those that were written |
| RackLaws.FileJoins | utilities/rackuitls/src/main/java/com/flipkart/hbase/HbaseRackUtils.java:55-70 | the file of some children and then others is that of the former and then that of the latter |
| RackLaws.FileOfOne | utilities/rackuitls/src/main/java/com/flipkart/hbase/HbaseRackUtils.java:61-66 | that of one child is its address, a space, its data and a line end, or nothing if it does not resolve |
| RackLaws.LinesAre | examples/utilities/scripts/rack_topology:17 | lines end at line ends, and what follows the last is dropped |
| RackLaws.WordsJoin | examples/utilities/scripts/rack_topology:18 | a space, tab or line end between two parts of a line separates the words of both |
| RackLaws.WordsOfSolid | examples/utilities/scripts/rack_topology:18 | and nothing else does |
| RackLaws.LastMatchAt | examples/utilities/scripts/rack_topology:16-22 | the second word of the last line whose first word is the argument, or nothing if it has none |
| RackLaws.NoMatch | examples/utilities/scripts/rack_topology:16-22 | nothing if no line starts with it |
| RackLaws.AnswersInOrder | examples/utilities/scripts/rack_topology:13-29 | each further argument adds its rack, or the default rack, and a space |
| Rack.RoundTrip | examples/utilities/scripts/rack_topology:13-29 | a lookup in the written file yields the data of the last child with that address, cut at its first word: all of it if and only if it has no blank |
| Rack.AnswersAreRacks | examples/utilities/scripts/rack_topology:13-29 | so for blank-free data every argument list is answered with the racks, in order, or the default rack |

## Left out

- The Kubernetes client, informers, leader election, manager set-up and flags; only get, create and
  update with their failures are modelled.
- SHA-256, JSON, the XML decoder and the parsing of quantities: digests, a flag for well-formed XML and
  a malformed size limit stand for them.
- Logging, events and the value of the update-time annotation.
- The field-copying builders of containers, probes, ports' protocols, security contexts and volume
  claims: one opaque field stands for what they copy; mounts of the configuration are explicit.
- Owner references beyond the owner's name.
- The observed generation of a StatefulSet, which the code does not look at: readiness is a statement
  about the status that was read.
- Data races on the hash store: its accesses are atomic steps.
- Lifecycle.Handshake: does not model time (pauses, grace periods) or restarts of single containers, nor
  daemons that exit by themselves; waiting loops are steps that become possible.
- Rack.RefreshRacks: does not model ZooKeeper, DNS, character sets or a crash while writing.
- Rack.RackTopology: does not model backslashes and glob characters in the file.
