/** The plan of a custom resource: the tasks of its reconciler, in order. */
module Plans {
  import opened Kube
  import opened Resources
  import opened Protocol
  import opened TaskFacts
  import opened Passes

  function ConfigTasks(c: Configuration, namespaces: seq<string>): seq<Task> {
    if namespaces == [] then []
    else [Ensure(HbaseConfigMap(c, namespaces[0])), Ensure(HadoopConfigMap(c, namespaces[0]))]
         + ConfigTasks(c, namespaces[1..])
  }

  /** The tasks before the config version is read. */
  function Pre(cr: CR): seq<Task> {
    if cr.flavour.Tenant? then
      if Namespaces(cr) == [] then []
      else [Check(ValidConfiguration(cr.config))] + ConfigTasks(cr.config, Namespaces(cr))
    else
      [Ensure(ClusterService(cr)), Check(ValidConfiguration(cr.config))] + ConfigTasks(cr.config, Namespaces(cr))
  }

  function PodTasks(cr: CR, d: Deployment, index: nat): seq<Task>
    decreases d.size - index
  {
    if index < d.size then [Ensure(PodService(cr, d, index))] + PodTasks(cr, d, index + 1) else []
  }

  function PdbTasks(cr: CR, d: Deployment): seq<Task> {
    if d.pdb.Some? then [Ensure(PdbFor(cr, d))] else []
  }

  /** A component's own tasks, after its pod services. */
  function WorkloadTasks(cr: CR, d: Deployment, version: string): seq<Task> {
    [Check(ValidVolumes(d)), Ensure(StatefulSetFor(cr, d, version))] + PdbTasks(cr, d)
  }

  function ComponentTasks(cr: CR, d: Deployment, version: string): seq<Task> {
    (if cr.flavour.Cluster? && d.podServiceRequired then PodTasks(cr, d, 0) else []) + WorkloadTasks(cr, d, version)
  }

  function AllComponentTasks(cr: CR, ds: seq<Deployment>, version: string): seq<Task> {
    if ds == [] then [] else ComponentTasks(cr, ds[0], version) + AllComponentTasks(cr, ds[1..], version)
  }

  /** The tasks after the config version is read. */
  function Post(cr: CR, version: string): seq<Task> {
    (if cr.flavour.Tenant? then [Ensure(ClusterService(cr))] else [])
    + AllComponentTasks(cr, Components(cr), version)
  }

  function SourceOf(cr: CR): Source {
    if cr.flavour.Standalone? then
      FromCreate(Key(ConfigMapKind, cr.namespace, cr.config.hadoopName), cr.config.hbaseName != cr.config.hadoopName)
    else if Rolling(cr) then FromConfigMap(Key(ConfigMapKind, cr.namespace, cr.config.hbaseName))
    else FromStatefulSet(StatefulSetKey(cr, cr.main))
  }

  function PlanOf(cr: CR): Plan {
    Plan(Pre(cr), SourceOf(cr), version => Post(cr, version))
  }

  // ---------- the shape of the task lists ----------

  lemma {:induction false} ConfigTasksAre(c: Configuration, namespaces: seq<string>)
    ensures forall x :: x in Wants(ConfigTasks(c, namespaces)) <==>
              exists i :: 0 <= i < |namespaces| &&
                (x == HbaseConfigMap(c, namespaces[i]) || x == HadoopConfigMap(c, namespaces[i]))
    decreases |namespaces|
  {
    if namespaces != [] {
      var n, rest := namespaces[0], namespaces[1..];
      var head := [Ensure(HbaseConfigMap(c, n)), Ensure(HadoopConfigMap(c, n))];
      ConfigTasksAre(c, rest);
      WantsOfConcat(head, ConfigTasks(c, rest));
      assert head[0] in head && head[1] in head;
      forall x ensures x in Wants(ConfigTasks(c, namespaces)) <==>
          exists i :: 0 <= i < |namespaces| &&
            (x == HbaseConfigMap(c, namespaces[i]) || x == HadoopConfigMap(c, namespaces[i]))
      {
        if x in Wants(ConfigTasks(c, rest)) {
          var i :| 0 <= i < |rest| && (x == HbaseConfigMap(c, rest[i]) || x == HadoopConfigMap(c, rest[i]));
          assert namespaces[i + 1] == rest[i];
        }
        if i :| 0 <= i < |namespaces| && x in {HbaseConfigMap(c, namespaces[i]), HadoopConfigMap(c, namespaces[i])} {
          if i > 0 {
            assert namespaces[i] == rest[i - 1];
          }
        }
      }
    }
  }

  lemma {:induction false} PodTasksAre(cr: CR, d: Deployment, index: nat)
    ensures forall x :: x in Wants(PodTasks(cr, d, index)) <==>
              exists i: nat :: index <= i < d.size && x == PodService(cr, d, i)
    decreases d.size - index
  {
    if index < d.size {
      var head := [Ensure(PodService(cr, d, index))];
      PodTasksAre(cr, d, index + 1);
      WantsOfConcat(head, PodTasks(cr, d, index + 1));
      assert head[0] in head;
    }
  }

  /** The wants of one component, apart from its pod services. */
  ghost predicate WorkloadWant(cr: CR, d: Deployment, version: string, x: Want) {
    x == StatefulSetFor(cr, d, version) || (d.pdb.Some? && x == PdbFor(cr, d))
  }

  ghost predicate PodWant(cr: CR, d: Deployment, x: Want) {
    cr.flavour.Cluster? && d.podServiceRequired && exists i: nat :: i < d.size && x == PodService(cr, d, i)
  }

  lemma ComponentTasksAre(cr: CR, d: Deployment, version: string)
    ensures forall x :: x in Wants(ComponentTasks(cr, d, version)) <==>
              WorkloadWant(cr, d, version, x) || PodWant(cr, d, x)
  {
    var pods := if cr.flavour.Cluster? && d.podServiceRequired then PodTasks(cr, d, 0) else [];
    PodTasksAre(cr, d, 0);
    var workload := WorkloadTasks(cr, d, version);
    WantsOfConcat(pods, workload);
    var two := [Check(ValidVolumes(d)), Ensure(StatefulSetFor(cr, d, version))];
    WantsOfConcat(two, PdbTasks(cr, d));
    assert two[1] in two;
    if d.pdb.Some? {
      assert PdbTasks(cr, d)[0] in PdbTasks(cr, d);
    }
  }

  lemma {:induction false} AllComponentTasksAre(cr: CR, ds: seq<Deployment>, version: string)
    ensures forall x :: x in Wants(AllComponentTasks(cr, ds, version)) <==>
              exists d :: d in ds && (WorkloadWant(cr, d, version, x) || PodWant(cr, d, x))
    decreases |ds|
  {
    if ds != [] {
      ComponentTasksAre(cr, ds[0], version);
      AllComponentTasksAre(cr, ds[1..], version);
      WantsOfConcat(ComponentTasks(cr, ds[0], version), AllComponentTasks(cr, ds[1..], version));
      assert forall d :: d in ds <==> d == ds[0] || d in ds[1..];
    }
  }

  lemma PreWantsAre(cr: CR)
    ensures forall x :: x in Wants(Pre(cr)) <==>
              || (x == ClusterService(cr) && !cr.flavour.Tenant?)
              || exists i :: 0 <= i < |Namespaces(cr)| &&
                   (x == HbaseConfigMap(cr.config, Namespaces(cr)[i])
                    || x == HadoopConfigMap(cr.config, Namespaces(cr)[i]))
  {
    ConfigTasksAre(cr.config, Namespaces(cr));
    var check := Check(ValidConfiguration(cr.config));
    var head := if cr.flavour.Tenant? then [check] else [Ensure(ClusterService(cr)), check];
    WantsOfConcat(head, ConfigTasks(cr.config, Namespaces(cr)));
    if !cr.flavour.Tenant? {
      assert head[0] in head;
    }
    assert Wants([]) == {};
  }

  lemma PostWantsAre(cr: CR, version: string)
    ensures forall x :: x in Wants(Post(cr, version)) <==>
              || (x == ClusterService(cr) && cr.flavour.Tenant?)
              || exists d :: d in Components(cr) && (WorkloadWant(cr, d, version, x) || PodWant(cr, d, x))
  {
    AllComponentTasksAre(cr, Components(cr), version);
    var head := if cr.flavour.Tenant? then [Ensure(ClusterService(cr))] else [];
    WantsOfConcat(head, AllComponentTasks(cr, Components(cr), version));
    if cr.flavour.Tenant? {
      assert head[0] in head;
    }
  }

  lemma KindsOfPre(cr: CR)
    ensures forall x :: x in Wants(Pre(cr)) ==> !Gated(x.key.kind)
  {
    PreWantsAre(cr);
  }

  lemma KindsOfPost(cr: CR, version: string)
    ensures forall x :: x in Wants(Post(cr, version)) ==> !x.key.kind.ConfigMapKind?
  {
    PostWantsAre(cr, version);
    forall x | x in Wants(Post(cr, version)) ensures !x.key.kind.ConfigMapKind? {
      if !(x == ClusterService(cr) && cr.flavour.Tenant?) {
        var d :| d in Components(cr) && (WorkloadWant(cr, d, version, x) || PodWant(cr, d, x));
      }
    }
  }

  lemma MainIsWanted(cr: CR, version: string)
    ensures cr.main in Components(cr)
    ensures StatefulSetFor(cr, cr.main, version) in Wants(Post(cr, version))
  {
    PostWantsAre(cr, version);
    assert WorkloadWant(cr, cr.main, version, StatefulSetFor(cr, cr.main, version));
  }

  // ---------- soundness ----------

  /** No component brings its own config-version annotation. */
  predicate Unstamped(cr: CR) {
    forall d <- Components(cr) :: STATEFULSET_V2_ANNOTATION !in OrEmpty(d.annotations)
  }

  lemma OneStamp(cr: CR, d: Deployment, version: string, x: Want)
    requires WorkloadWant(cr, d, version, x) || PodWant(cr, d, x)
    requires x.key.kind.StatefulSetKind? && STATEFULSET_V2_ANNOTATION !in OrEmpty(d.annotations)
    ensures Stamp(x.content) == version
  {
    hide OwnerOf, Pod, SelectorLabels, TemplateLabels, Multi;
  }

  lemma PostStamps(cr: CR, version: string)
    requires Unstamped(cr)
    ensures forall x :: x in Wants(Post(cr, version)) && x.key.kind.StatefulSetKind? ==> Stamp(x.content) == version
  {
    PostWantsAre(cr, version);
    forall x | x in Wants(Post(cr, version)) && x.key.kind.StatefulSetKind? ensures Stamp(x.content) == version {
      assert x != ClusterService(cr);
      hide Post, Components, OwnerOf, Pod, SelectorLabels, TemplateLabels, Multi, PodService, ClusterService, Wants;
      var d :| d in Components(cr) && (WorkloadWant(cr, d, version, x) || PodWant(cr, d, x));
      OneStamp(cr, d, version, x);
    }
  }

  /** The plan of every custom resource without config-version annotations of its own is sound. */
  lemma PlanIsSound(cr: CR)
    requires Unstamped(cr)
    ensures Sound(PlanOf(cr))
  {
    var p := PlanOf(cr);
    KindsOfPre(cr);
    forall version: string ensures SoundPost(p.source, p.post(version), version) {
      KindsOfPost(cr, version);
      PostStamps(cr, version);
      MainIsWanted(cr, version);
    }
  }
}
