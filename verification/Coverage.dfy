/** Which objects the passes of a custom resource get to, in the terms of the custom resource. */
module Coverage {
  import opened Kube
  import opened Resources
  import opened Protocol
  import opened TaskFacts
  import opened Passes
  import opened Plans
  import opened Names
  import opened Agreement
  import opened Convergence
  import opened Provenance
  import opened Objects
  import opened Controllers
  import opened Guarantees

  // ---------- components ----------

  /** The components of a custom resource, by name. */
  predicate IsComponent(cr: CR, d: Deployment) {
    match cr.flavour
    case Cluster(_, _, zookeeper, journalnode, namenode, hmaster) =>
      (zookeeper.size != 0 && d == zookeeper) || d == journalnode || d == namenode || d == cr.main || d == hmaster
    case _ => d == cr.main
  }

  lemma ComponentsAre(cr: CR)
    ensures forall d :: d in Components(cr) <==> IsComponent(cr, d)
  {
  }

  // ---------- config maps ----------

  /** A cluster's configuration is for the tenant namespaces it names and for its own, a standalone's for
      its own, a tenant's for its own if its rollout label is config-only, true or yes. */
  predicate ConfigNamespace(cr: CR, n: string) {
    match cr.flavour
    case Cluster(_, tenantNamespaces, _, _, _, _) => n in tenantNamespaces || n == cr.namespace
    case Tenant => n == cr.namespace && RolloutLabel(cr) in {Some("config-only"), Some("true"), Some("yes")}
    case Standalone => n == cr.namespace
  }

  lemma NamespacesAre(cr: CR)
    ensures forall n :: n in Namespaces(cr) <==> ConfigNamespace(cr, n)
  {
    LabelDecides(cr);
    hide RolloutLabel, LabelIn;
  }

  /** The ConfigMap is there, with these files and overrides. */
  ghost predicate ConfigMapIn(w: World, name: string, namespace: string, base: map<string, File>,
                              overrides: seq<map<string, File>>)
  {
    var k := Key(ConfigMapKind, namespace, name);
    && k in w.objects && w.objects[k].content.ConfigMapContent?
    && forall f :: FileIs(w.objects[k].content.data, base, overrides, namespace, f)
  }

  lemma DoneIsIn(w: World, x: Want, name: string, namespace: string, base: map<string, File>,
                 overrides: seq<map<string, File>>)
    requires Done(w, x) && ConfigMapAsAsked(x, name, namespace, base, overrides)
    ensures ConfigMapIn(w, name, namespace, base, overrides)
  {
    hide FileIs;
  }

  /** After a clean pass both config maps are there, with the files asked for, in each namespace that the
      configuration is for. */
  lemma ConfigMapsAreThere(cr: CR, w: World, env: Env, n: string)
    requires DistinctNames(cr) && Agrees(w, Keys(cr)) && ConfigNamespace(cr, n)
    requires Pass(PlanOf(cr), w, env).outcome == Outcome(false, 0, false)
    ensures var v := Pass(PlanOf(cr), w, env).world;
            && ConfigMapIn(v, cr.config.hbaseName, n, cr.config.hbase, cr.config.hbaseOverrides)
            && ConfigMapIn(v, cr.config.hadoopName, n, cr.config.hadoop, cr.config.hadoopOverrides)
  {
    ComponentsAre(cr);
    NamespacesAre(cr);
    ConfigMapsAre(cr.config, n);
    hide DistinctNames, Agrees, Keys, Pass, PlanOf, ConfigMapAsAsked, ConfigMapIn, Done, Components, Namespaces,
      HbaseConfigMap, HadoopConfigMap, ConfigNamespace;
    var m := CleanPassMeansUp(cr, w, env, cr.main);
    var v := Pass(PlanOf(cr), w, env).world;
    DoneIsIn(v, HbaseConfigMap(cr.config, n), cr.config.hbaseName, n, cr.config.hbase, cr.config.hbaseOverrides);
    DoneIsIn(v, HadoopConfigMap(cr.config, n), cr.config.hadoopName, n, cr.config.hadoop, cr.config.hadoopOverrides);
  }

  /** And no pass, clean or not, writes a ConfigMap of another name or in another namespace. */
  lemma ConfigWritesStay(cr: CR, w: World, env: Env, i: nat)
    requires i < |Pass(PlanOf(cr), w, env).writes| && Pass(PlanOf(cr), w, env).writes[i].key.kind.ConfigMapKind?
    ensures var k := Pass(PlanOf(cr), w, env).writes[i].key;
            ConfigNamespace(cr, k.namespace) && k.name in {cr.config.hbaseName, cr.config.hadoopName}
  {
    var version := PassVersion(PlanOf(cr), w, env);
    PassWritesAreWanted(PlanOf(cr), w, env);
    NamespacesAre(cr);
    hide Pass, PassVersion, PassWants, ConfigNamespace, Namespaces;
    var k := Pass(PlanOf(cr), w, env).writes[i].key;
    assert k in KeysOf(PassWants(PlanOf(cr), version));
    var x :| x in PassWants(PlanOf(cr), version) && x.key == k;
    PassWantsAre(cr, version, x);
    KindOfWants(cr, version, x);
  }

  lemma {:induction false} ConfigTasksJoin(c: Configuration, a: seq<string>, b: seq<string>)
    ensures ConfigTasks(c, a + b) == ConfigTasks(c, a) + ConfigTasks(c, b)
    decreases |a|
  {
    if a == [] {
      assert a + b == b;
    } else {
      assert (a + b)[1..] == a[1..] + b;
      ConfigTasksJoin(c, a[1..], b);
    }
  }

  lemma NoneWithin(writes: seq<Write>, ks: set<Key>)
    requires writes == []
    ensures WritesWithin(writes, ks)
  {
  }

  /** The writes of a list of tasks are those of its first part and then those of its second. */
  lemma WritesInTwo(w: World, a: seq<Task>, b: seq<Task>, env: Env, i: nat) returns (n: nat)
    ensures var writes := RunTasks(w, a + b, env, i).writes;
            && n <= |writes|
            && WritesWithin(writes[..n], KeysOf(Wants(a))) && WritesWithin(writes[n..], KeysOf(Wants(b)))
  {
    RunConcat(w, a, b, env, i);
    var e := RunTasks(w, a, env, i);
    var r := RunTasks(e.world, b, env, i + |a|);
    WritesAreWanted(w, a, env, i);
    WritesAreWanted(e.world, b, env, i + |a|);
    hide RunTasks, KeysOf, Wants, WritesWithin;
    n := |e.writes|;
    var rest := if e.outcome == CLEAN then r.writes else [];
    NoneWithin([], KeysOf(Wants(b)));
    CutApart(RunTasks(w, a + b, env, i).writes, e.writes, rest);
  }

  lemma CutApart(writes: seq<Write>, a: seq<Write>, b: seq<Write>)
    requires writes == a + b
    ensures writes[..|a|] == a && writes[|a|..] == b
  {
  }

  /** The service, the check and the tenants' config maps. */
  function TenantsFirst(cr: CR): seq<Task>
    requires cr.flavour.Cluster?
  {
    [Ensure(ClusterService(cr)), Check(ValidConfiguration(cr.config))]
    + ConfigTasks(cr.config, cr.flavour.tenantNamespaces)
  }

  lemma ConfigKeys(c: Configuration, namespaces: seq<string>)
    ensures forall k :: k in KeysOf(Wants(ConfigTasks(c, namespaces))) ==>
              k.kind.ConfigMapKind? && k.namespace in namespaces
  {
    ConfigTasksAre(c, namespaces);
    hide ConfigTasks, Wants;
  }

  lemma PreOfCluster(cr: CR)
    requires cr.flavour.Cluster?
    ensures Pre(cr) == TenantsFirst(cr) + ConfigTasks(cr.config, [cr.namespace])
  {
    ConfigTasksJoin(cr.config, cr.flavour.tenantNamespaces, [cr.namespace]);
    hide ClusterService, ValidConfiguration, ConfigTasks;
  }

  lemma TenantsFirstKeys(cr: CR)
    requires cr.flavour.Cluster?
    ensures forall k :: k in KeysOf(Wants(TenantsFirst(cr))) && k.kind.ConfigMapKind? ==>
              k.namespace in cr.flavour.tenantNamespaces
  {
    var head := [Ensure(ClusterService(cr)), Check(ValidConfiguration(cr.config))];
    assert ClusterService(cr).key.kind.ServiceKind?;
    ConfigKeys(cr.config, cr.flavour.tenantNamespaces);
    hide ClusterService, ValidConfiguration, ConfigTasks;
    WantsOfConcat(head, ConfigTasks(cr.config, cr.flavour.tenantNamespaces));
    assert Wants(head) <= {ClusterService(cr)};
  }

  lemma PassWrites(cr: CR, w: World, env: Env)
    ensures var pre := RunTasks(w, Pre(cr), env, 1);
            var post := RunTasks(pre.world, Post(cr, PassVersion(PlanOf(cr), w, env)), env, 2 + |Pre(cr)|);
            var writes := Pass(PlanOf(cr), w, env).writes;
            writes == [] || writes == pre.writes || writes == pre.writes + post.writes
  {
    hide RunTasks, Pre, Post;
  }

  /** In these writes what is within the first keys comes before what is within the second. */
  lemma FirstThenSecond(writes: seq<Write>, n: nat, ks: set<Key>, ls: set<Key>, i: nat, j: nat)
    requires n <= |writes| && WritesWithin(writes[..n], ks) && WritesWithin(writes[n..], ls)
    requires i < j < |writes| && writes[i].key !in ks
    ensures writes[j].key in ls
  {
    forall k | 0 <= k < n ensures writes[k].key in ks {
      assert writes[..n][k] == writes[k];
    }
    forall k | n <= k < |writes| ensures writes[k].key in ls {
      assert writes[n..][k - n] == writes[k];
    }
  }

  lemma OwnNamespaceLastBefore(cr: CR, w: World, env: Env, i: nat, j: nat)
    requires cr.flavour.Cluster? && cr.namespace !in cr.flavour.tenantNamespaces
    requires i < j < |RunTasks(w, Pre(cr), env, 1).writes|
    requires var k := RunTasks(w, Pre(cr), env, 1).writes[i].key; k.kind.ConfigMapKind? && k.namespace == cr.namespace
    ensures RunTasks(w, Pre(cr), env, 1).writes[j].key.namespace == cr.namespace
  {
    var own, first := ConfigTasks(cr.config, [cr.namespace]), TenantsFirst(cr);
    PreOfCluster(cr);
    TenantsFirstKeys(cr);
    ConfigKeys(cr.config, [cr.namespace]);
    hide RunTasks, Pre, KeysOf, Wants, TenantsFirst, ConfigTasks, WritesWithin;
    var n := WritesInTwo(w, first, own, env, 1);
    FirstThenSecond(RunTasks(w, Pre(cr), env, 1).writes, n, KeysOf(Wants(first)), KeysOf(Wants(own)), i, j);
  }

  lemma ConfigWriteIsEarly(cr: CR, w: World, env: Env, i: nat)
    requires i < |Pass(PlanOf(cr), w, env).writes| && Pass(PlanOf(cr), w, env).writes[i].key.kind.ConfigMapKind?
    ensures var pre := RunTasks(w, Pre(cr), env, 1);
            i < |pre.writes| && Pass(PlanOf(cr), w, env).writes[i] == pre.writes[i]
  {
    PassWrites(cr, w, env);
    hide RunTasks, Pre, Post, Pass, PassVersion, PlanOf;
    PostWritesNoConfig(cr, PassVersion(PlanOf(cr), w, env), RunTasks(w, Pre(cr), env, 1).world, env, 2 + |Pre(cr)|);
  }

  /** A cluster's own namespace comes last: after one of its config maps a pass writes none of another. */
  lemma OwnNamespaceLast(cr: CR, w: World, env: Env, i: nat, j: nat)
    requires cr.flavour.Cluster? && cr.namespace !in cr.flavour.tenantNamespaces
    requires i < j < |Pass(PlanOf(cr), w, env).writes|
    requires var writes := Pass(PlanOf(cr), w, env).writes;
             && writes[i].key.kind.ConfigMapKind? && writes[j].key.kind.ConfigMapKind?
             && writes[i].key.namespace == cr.namespace
    ensures Pass(PlanOf(cr), w, env).writes[j].key.namespace == cr.namespace
  {
    hide RunTasks, Pre, Pass, PlanOf;
    ConfigWriteIsEarly(cr, w, env, i);
    ConfigWriteIsEarly(cr, w, env, j);
    OwnNamespaceLastBefore(cr, w, env, i, j);
  }

  lemma PostWritesNoConfig(cr: CR, version: string, w: World, env: Env, i: nat)
    ensures var writes := RunTasks(w, Post(cr, version), env, i).writes;
            forall j :: 0 <= j < |writes| ==> !writes[j].key.kind.ConfigMapKind?
  {
    KindsOfPost(cr, version);
    WritesAreWanted(w, Post(cr, version), env, i);
    hide RunTasks, Post;
    var writes := RunTasks(w, Post(cr, version), env, i).writes;
    forall j | 0 <= j < |writes| ensures !writes[j].key.kind.ConfigMapKind? {
      assert writes[j].key in KeysOf(Wants(Post(cr, version)));
      var x :| x in Wants(Post(cr, version)) && x.key == writes[j].key;
    }
  }

  // ---------- passes that end early ----------

  /** A pass that cannot read its custom resource does nothing and is tried again after five seconds. */
  lemma UnreadStops(cr: CR, w: World, env: Env)
    requires env(0).getFails
    ensures Pass(PlanOf(cr), w, env) == Effect(w, Outcome(false, 5, true), [])
  {
    hide Pre, Post, SourceOf;
  }

  /** Whether the reconciler looks at the configuration at all. */
  predicate Validates(cr: CR) {
    !cr.flavour.Tenant? || RolloutLabel(cr) in {Some("config-only"), Some("true"), Some("yes")}
  }

  lemma InvalidPre(cr: CR, w: World, env: Env)
    requires Validates(cr) && !ValidConfiguration(cr.config)
    ensures var e := RunTasks(w, Pre(cr), env, 1);
            && e.outcome != CLEAN
            && forall i :: 0 <= i < |e.writes| ==> e.writes[i].key == ClusterService(cr).key && !cr.flavour.Tenant?
  {
    LabelDecides(cr);
    var check, configs := [Check(ValidConfiguration(cr.config))], ConfigTasks(cr.config, Namespaces(cr));
    hide ClusterService, ConfigTasks, ValidConfiguration, RolloutLabel, LabelIn;
    assert (check + configs)[0] == check[0];
    if cr.flavour.Tenant? {
      assert Pre(cr) == check + configs;
    } else {
      assert Pre(cr) == [Ensure(ClusterService(cr))] + (check + configs);
      assert ([Ensure(ClusterService(cr))] + (check + configs))[1..] == check + configs;
    }
  }

  /** An invalid configuration ends every pass that looks at it, before anything but the service of a
      cluster or standalone is written. */
  lemma InvalidConfigurationStops(cr: CR, w: World, env: Env)
    requires Validates(cr) && !ValidConfiguration(cr.config)
    ensures var e := Pass(PlanOf(cr), w, env);
            && e.outcome != Outcome(false, 0, false)
            && forall i :: 0 <= i < |e.writes| ==>
                 e.writes[i].key == Key(ServiceKind, cr.namespace, cr.name) && !cr.flavour.Tenant?
  {
    InvalidPre(cr, w, env);
    hide RunTasks, Pre, Post, Validates;
  }

  /** A clean pass means that there is no limit that cannot be read and, if the reconciler looks at it,
      that the configuration is valid. */
  lemma CleanMeansValid(cr: CR, w: World, env: Env, d: Deployment)
    requires DistinctNames(cr) && Agrees(w, Keys(cr)) && IsComponent(cr, d)
    requires Pass(PlanOf(cr), w, env).outcome == Outcome(false, 0, false)
    ensures forall i :: 0 <= i < |d.volumes| ==> !BadLimit(d.volumes[i])
    ensures Validates(cr) ==> ValidConfiguration(cr.config)
  {
    var version := PassVersion(PlanOf(cr), w, env);
    ComponentsAre(cr);
    VolumesAre(cr.config, d);
    if Validates(cr) && !ValidConfiguration(cr.config) {
      InvalidConfigurationStops(cr, w, env);
    }
    hide Pass, PassVersion, Agrees, Keys, DistinctNames, Validates, ValidConfiguration, IsComponent, Components,
      BadLimit, Pre;
    AllOfItIsDone(cr, w, env);
    CheckIsThere(cr, d, version);
    var tasks := Post(cr, version);
    var m :| 0 <= m < |tasks| && tasks[m] == Check(ValidVolumes(d));
    assert Passed(tasks[m], env(2 + |Pre(cr)| + m));
  }

  lemma {:induction false} CheckIsAmong(cr: CR, ds: seq<Deployment>, d: Deployment, version: string)
    requires d in ds
    ensures Check(ValidVolumes(d)) in AllComponentTasks(cr, ds, version)
    decreases |ds|
  {
    hide ValidVolumes, StatefulSetFor;
    if d == ds[0] {
      assert WorkloadTasks(cr, d, version)[0] in ComponentTasks(cr, d, version);
    } else {
      CheckIsAmong(cr, ds[1..], d, version);
    }
  }

  lemma CheckIsThere(cr: CR, d: Deployment, version: string)
    requires d in Components(cr)
    ensures Check(ValidVolumes(d)) in Post(cr, version)
  {
    CheckIsAmong(cr, Components(cr), d, version);
    hide AllComponentTasks, ValidVolumes, Components;
  }

  // ---------- the config version ----------

  /** The config version on the pods of a StatefulSet, or "" if it or its annotation is not there. */
  function VersionOn(w: World, namespace: string, name: string): string {
    var k := Key(StatefulSetKind, namespace, name);
    if k in w.objects && w.objects[k].content.StatefulSetContent?
       && "hbase-operator/hbase-config-version" in w.objects[k].content.workload.templateAnnotations
    then w.objects[k].content.workload.templateAnnotations["hbase-operator/hbase-config-version"] else ""
  }

  /** The resource version of a ConfigMap with the update-time annotation, or "". */
  function VersionOf(w: World, namespace: string, name: string): string {
    var k := Key(ConfigMapKind, namespace, name);
    if k in w.objects && w.objects[k].annotated then w.objects[k].version else ""
  }

  lemma VersionsAre(w: World, namespace: string, name: string)
    ensures StampOf(w, Key(StatefulSetKind, namespace, name)) == VersionOn(w, namespace, name)
    ensures AnnotatedVersion(w, Key(ConfigMapKind, namespace, name)) == VersionOf(w, namespace, name)
  {
  }

  /** The version that a cluster or tenant finds: with the rollout label true or yes that of its annotated
      HBase ConfigMap; with config-only, any other value or no label the one on its datanodes. */
  function VersionByLabel(cr: CR, w: World): string {
    if && cr.serviceLabels.Some?
       && "hbase-operator.cfg-statefulset-update/enable" in cr.serviceLabels.value
       && (cr.serviceLabels.value["hbase-operator.cfg-statefulset-update/enable"] == "true"
           || cr.serviceLabels.value["hbase-operator.cfg-statefulset-update/enable"] == "yes")
    then VersionOf(w, cr.namespace, cr.config.hbaseName)
    else VersionOn(w, cr.namespace, cr.main.name)
  }

  lemma SourceByLabel(cr: CR, w: World)
    requires !cr.flavour.Standalone?
    ensures SteadyVersion(SourceOf(cr), w) == VersionByLabel(cr, w)
    ensures !SourceOf(cr).FromCreate?
  {
    VersionsAre(w, cr.namespace, cr.config.hbaseName);
    VersionsAre(w, cr.namespace, cr.main.name);
    hide VersionOf, VersionOn, StampOf, AnnotatedVersion;
  }

  /** A pass over a cluster or tenant that gets to the read of the version, and whose read succeeds, works
      with the version that its label says, as it was before the pass and as it is then. */
  lemma PassVersionByLabel(cr: CR, w: World, env: Env)
    requires !cr.flavour.Standalone? && Unstamped(cr)
    requires !env(0).getFails && RunTasks(w, Pre(cr), env, 1).outcome == Outcome(false, 0, false)
    requires !env(1 + |Pre(cr)|).getFails
    ensures PassVersion(PlanOf(cr), w, env) == VersionByLabel(cr, w)
    ensures PassVersion(PlanOf(cr), w, env) == VersionByLabel(cr, RunTasks(w, Pre(cr), env, 1).world)
  {
    PlanIsSound(cr);
    SourceByLabel(cr, w);
    SourceByLabel(cr, RunTasks(w, Pre(cr), env, 1).world);
    hide RunTasks, Pre, Post, SourceOf, VersionByLabel, Sound, Pass;
    PassVersionIsSteady(PlanOf(cr), w, env);
  }

  /** So after a clean pass the pods of every component carry exactly that version. */
  lemma PodsCarryVersionByLabel(cr: CR, w: World, env: Env, d: Deployment)
    requires !cr.flavour.Standalone? && WellFormed(cr) && Agrees(w, Keys(cr)) && IsComponent(cr, d)
    requires Pass(PlanOf(cr), w, env).outcome == Outcome(false, 0, false) && !env(1 + |Pre(cr)|).getFails
    ensures VersionOn(Pass(PlanOf(cr), w, env).world, cr.namespace, d.name) == VersionByLabel(cr, w)
  {
    var v, version := Pass(PlanOf(cr), w, env).world, PassVersion(PlanOf(cr), w, env);
    ComponentsAre(cr);
    CleanPassGotThere(cr, w, env);
    PassVersionByLabel(cr, w, env);
    SetHasVersion(cr, d, version);
    hide Pass, PassVersion, Agrees, Keys, DistinctNames, IsComponent, Components, RunTasks, VersionByLabel,
      StatefulSetFor, Unstamped;
    var m := CleanPassMeansUp(cr, w, env, d);
    assert WorkloadWant(cr, d, version, StatefulSetFor(cr, d, version));
    assert Done(v, StatefulSetFor(cr, d, version));
  }

  lemma CleanPassGotThere(cr: CR, w: World, env: Env)
    requires Pass(PlanOf(cr), w, env).outcome == CLEAN
    ensures !env(0).getFails && RunTasks(w, Pre(cr), env, 1).outcome == CLEAN
  {
    hide RunTasks, Pre, Post;
  }

  lemma SetHasVersion(cr: CR, d: Deployment, version: string)
    requires Unstamped(cr) && d in Components(cr)
    ensures var x := StatefulSetFor(cr, d, version);
            && x.key == Key(StatefulSetKind, cr.namespace, d.name) && x.content.StatefulSetContent?
            && var annotations := x.content.workload.templateAnnotations;
               && (version == "" <==> "hbase-operator/hbase-config-version" !in annotations)
               && (version != "" ==> annotations["hbase-operator/hbase-config-version"] == version)
  {
    TemplateIs(cr, d, version, "hbase-operator/hbase-config-version");
    StatefulSetIs(cr, d, version);
    assert "hbase-operator/hbase-config-version" !in OrEmpty(d.annotations);
    hide StatefulSetFor;
  }

  lemma SteadyByLabel(cr: CR, w: World, env: Env)
    requires !cr.flavour.Standalone? && Unstamped(cr) && !env(1 + |Pre(cr)|).getFails
    ensures PassVersion(PlanOf(cr), w, env) == VersionByLabel(cr, w)
  {
    PlanIsSound(cr);
    SourceByLabel(cr, w);
    hide RunTasks, Pre, Post, SourceOf, VersionByLabel, Sound, Pass, PassVersion, SteadyVersion;
    PassVersionIsSteady(PlanOf(cr), w, env);
  }

  /** With config-only, any label but true and yes, or none, no pass whose read succeeds changes the version
      on the datanodes of a cluster or tenant, however the ConfigMap changes. */
  lemma ConfigOnlyKeepsVersion(cr: CR, w: World, env: Env)
    requires !cr.flavour.Standalone? && Unstamped(cr) && !env(1 + |Pre(cr)|).getFails
    requires RolloutLabel(cr) !in {Some("true"), Some("yes")}
    ensures VersionOn(Pass(PlanOf(cr), w, env).world, cr.namespace, cr.main.name)
         == VersionOn(w, cr.namespace, cr.main.name)
  {
    var v := Pass(PlanOf(cr), w, env).world;
    assert VersionByLabel(cr, w) == VersionOn(w, cr.namespace, cr.main.name);
    hide RolloutLabel, RunTasks, Pre, Post, Pass, SourceOf, StampOf, VersionOn, VersionByLabel, Sound, Unstamped,
      PassVersion;
    PlanIsSound(cr);
    VersionsAre(w, cr.namespace, cr.main.name);
    VersionsAre(v, cr.namespace, cr.main.name);
    SteadyByLabel(cr, w, env);
    StampAfterPass(PlanOf(cr), w, env, Key(StatefulSetKind, cr.namespace, cr.main.name));
  }

  /** A read that fails counts as no version. */
  lemma FailedReadIsNoVersion(cr: CR, w: World, env: Env)
    requires !cr.flavour.Standalone? && env(1 + |Pre(cr)|).getFails
    requires !env(0).getFails && RunTasks(w, Pre(cr), env, 1).outcome == Outcome(false, 0, false)
    ensures PassVersion(PlanOf(cr), w, env) == ""
  {
    hide RunTasks, Pre, Post;
  }
}
