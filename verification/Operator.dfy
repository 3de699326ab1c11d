/** The operator as it runs: an API server, a process-wide hash store, and the reconcile functions
    and reconcilers with their loops and early returns. Each method does to the world exactly what
    the protocol's functions say. */
module Operator {
  import opened Kube
  import opened Resources
  import opened Protocol
  import opened TaskFacts
  import opened Plans
  import opened Builders

  datatype Fetched = Found(stored: Stored) | NotFound | Failed

  class ApiServer {
    var objects: map<Key, Stored>

    constructor ()
      ensures objects == map[]
    {
      objects := map[];
    }

    method Get(k: Key, a: Answer) returns (r: Fetched)
      ensures r == if a.getFails then Failed else if k in objects then Found(objects[k]) else NotFound
    {
      if a.getFails {
        r := Failed;
      } else if k in objects {
        r := Found(objects[k]);
      } else {
        r := NotFound;
      }
    }

    /** Hands back the resource version of the new object; a failed create leaves no trace. */
    method Create(x: Want, a: Answer) returns (r: Option<Version>)
      modifies this
      ensures r.Some? <==> !a.writeFails && x.key !in old(objects)
      ensures objects == if r.Some? then old(objects)[x.key := CreatedObject(x, a)] else old(objects)
      ensures r.Some? ==> r.value == a.version
    {
      if a.writeFails || x.key in objects {
        return None;
      }
      objects := objects[x.key := Stored(x.content, x.labels, false, a.version, Address(x.content, a.clusterIP))];
      r := Some(a.version);
    }

    /** Replaces the whole object; a failed update leaves no trace. */
    method Update(x: Want, annotated: bool, clusterIP: string, a: Answer) returns (ok: bool)
      modifies this
      ensures ok <==> !a.writeFails && x.key in old(objects)
      ensures objects ==
        if ok then old(objects)[x.key := Stored(x.content, x.labels, annotated, a.version, clusterIP)] else old(objects)
    {
      if a.writeFails || x.key !in objects {
        return false;
      }
      objects := objects[x.key := Stored(x.content, x.labels, annotated, a.version, clusterIP)];
      ok := true;
    }
  }

  /** An effect after writes made earlier. */
  function Resume(earlier: seq<Write>, e: Effect): Effect {
    Effect(e.world, e.outcome, earlier + e.writes)
  }

  function AsSha256(c: Content): Digest {
    Digest(c)
  }

  lemma {:induction false} ConfigTasksSplit(c: Configuration, namespaces: seq<string>)
    requires namespaces != []
    ensures ConfigTasks(c, namespaces) == ConfigTasks(c, namespaces[..1]) + ConfigTasks(c, namespaces[1..])
    ensures |ConfigTasks(c, namespaces[..1])| == 2
  {
    var n := namespaces[0];
    assert namespaces[..1] == [n] && [n][1..] == [];
    assert ConfigTasks(c, [n]) == [Ensure(HbaseConfigMap(c, n)), Ensure(HadoopConfigMap(c, n))];
  }

  class Reconciler {
    const api: ApiServer
    var hashStore: map<string, Digest>
    /** The successful writes so far. */
    ghost var trace: seq<Write>

    /** A freshly started operator remembers no digest. */
    constructor (api: ApiServer)
      ensures this.api == api && hashStore == map[] && trace == []
    {
      this.api := api;
      hashStore := map[];
      trace := [];
    }

    ghost function Now(): World
      reads this, api
    {
      World(api.objects, hashStore)
    }

    /** What has happened so far, with this outcome. */
    ghost function So(outcome: Outcome): Effect
      reads this, api
    {
      Effect(Now(), outcome, trace)
    }

    // ---------- reconcile functions ----------

    method ReconcileConfigMap(x: Want, a: Answer) returns (r: Outcome, version: string)
      requires x.key.kind.ConfigMapKind? && x.content.ConfigMapContent?
      modifies this, api
      ensures So(r) == Resume(old(trace), Reconcile(old(Now()), x, a))
      ensures version == if x.key !in old(api.objects) && r == CLEAN then a.version else ""
    {
      version := "";
      var config := api.Get(x.key, a);
      match config
      case Failed =>
        assert trace + [] == trace;
        r := RETRY;
      case NotFound =>
        var created := api.Create(x, a);
        if created.None? {
          assert trace + [] == trace;
          return RETRY, "";
        }
        trace := trace + [Created(x.key, a.version)];
        r, version := CLEAN, created.value;
      case Found(_) =>
        var hash, key := AsSha256(x.content), HashKey(x.key);
        if key !in hashStore || hashStore[key] != hash {
          var bootstrapDone := key in hashStore;
          var ok := api.Update(x, bootstrapDone, "", a);
          if !ok {
            assert trace + [] == trace;
            return RETRY, "";
          }
          hashStore := hashStore[key := hash];
          trace := trace + [Updated(x.key)];
          r := Outcome(false, 5, false);
        } else {
          assert trace + [] == trace;
          r := CLEAN;
        }
    }

    method ReconcileService(x: Want, a: Answer) returns (r: Outcome)
      requires x.key.kind.ServiceKind? && x.content.ServiceContent?
      modifies this, api
      ensures So(r) == Resume(old(trace), Reconcile(old(Now()), x, a))
    {
      var hash, key := AsSha256(x.content), HashKey(x.key);
      var service := api.Get(x.key, a);
      match service
      case Failed =>
        assert trace + [] == trace;
        r := RETRY;
      case NotFound =>
        var created := api.Create(x, a);
        if created.None? {
          assert trace + [] == trace;
          return RETRY;
        }
        trace := trace + [Created(x.key, a.version)];
        r := CLEAN;
      case Found(existing) =>
        var clusterIP := existing.clusterIP;
        if x.content.spec.clusterIP != "" {
          clusterIP := x.content.spec.clusterIP;
        }
        if key !in hashStore || hashStore[key] != hash {
          var ok := api.Update(x, false, clusterIP, a);
          if !ok {
            assert trace + [] == trace;
            return RETRY;
          }
          hashStore := hashStore[key := hash];
          trace := trace + [Updated(x.key)];
          r := Outcome(false, 5, false);
        } else {
          assert trace + [] == trace;
          r := CLEAN;
        }
    }

    method ReconcileStatefulSet(x: Want, size: int, a: Answer) returns (r: Outcome)
      requires x.key.kind.StatefulSetKind? && x.content.StatefulSetContent? && x.content.workload.replicas == size
      modifies this, api
      ensures So(r) == Resume(old(trace), Reconcile(old(Now()), x, a))
    {
      var hash, key := AsSha256(x.content), HashKey(x.key);
      var existing := api.Get(x.key, a);
      match existing
      case Failed =>
        assert trace + [] == trace;
        r := RETRY;
      case NotFound =>
        var created := api.Create(x, a);
        if created.None? {
          assert trace + [] == trace;
          return RETRY;
        }
        trace := trace + [Created(x.key, a.version)];
        r := Outcome(true, 5, false);
      case Found(_) =>
        if key !in hashStore || hashStore[key] != hash {
          var ok := api.Update(x, false, "", a);
          if !ok {
            assert trace + [] == trace;
            return RETRY;
          }
          hashStore := hashStore[key := hash];
          trace := trace + [Updated(x.key)];
          r := Outcome(true, 10, false);
        } else if a.status.readyReplicas != size || a.status.currentRevision != a.status.updateRevision {
          assert trace + [] == trace;
          r := Outcome(true, 10, false);
        } else {
          assert trace + [] == trace;
          r := CLEAN;
        }
    }

    method ReconcilePodDisruptionBudget(x: Want, a: Answer) returns (r: Outcome)
      requires x.key.kind.PdbKind? && x.content.PdbContent?
      modifies this, api
      ensures So(r) == Resume(old(trace), Reconcile(old(Now()), x, a))
    {
      var hash, key := AsSha256(x.content), HashKey(x.key);
      var existing := api.Get(x.key, a);
      match existing
      case Failed =>
        assert trace + [] == trace;
        r := RETRY;
      case NotFound =>
        var created := api.Create(x, a);
        if created.None? {
          assert trace + [] == trace;
          return RETRY;
        }
        trace := trace + [Created(x.key, a.version)];
        r := Outcome(true, 5, false);
      case Found(_) =>
        if key !in hashStore || hashStore[key] != hash {
          var ok := api.Update(x, false, "", a);
          if !ok {
            assert trace + [] == trace;
            return RETRY;
          }
          hashStore := hashStore[key := hash];
          trace := trace + [Updated(x.key)];
          r := Outcome(true, 10, false);
        } else {
          assert trace + [] == trace;
          r := CLEAN;
        }
    }

    // ---------- config version ----------

    method GetCfgResourceVersionIfV2OrNil(k: Key, a: Answer) returns (r: string)
      ensures r == VersionRead(FromConfigMap(k), Now(), trace, a)
    {
      r := "";
      var config := api.Get(k, a);
      if config.Found? && config.stored.annotated {
        r := config.stored.version;
      }
    }

    method GetStatefulSetAnnotation(k: Key, a: Answer) returns (r: string)
      ensures r == VersionRead(FromStatefulSet(k), Now(), trace, a)
    {
      r := "";
      var existing := api.Get(k, a);
      if existing.Found? {
        var c := existing.stored.content;
        if c.StatefulSetContent? && STATEFULSET_V2_ANNOTATION in c.workload.templateAnnotations {
          r := c.workload.templateAnnotations[STATEFULSET_V2_ANNOTATION];
        }
      }
    }

    // ---------- the parts that the reconcilers have in common ----------

    /** The HBase and then the Hadoop ConfigMap of one namespace. */
    method ReconcileConfig(c: Configuration, namespace: string, env: Env, i: nat) returns (r: Outcome, version: string)
      modifies this, api
      ensures So(r) == Resume(old(trace), RunTasks(old(Now()), ConfigTasks(c, [namespace]), env, i))
      ensures r == CLEAN ==>
        version == if c.hbaseName == c.hadoopName then "" else
          CreatedVersion(RunTasks(old(Now()), ConfigTasks(c, [namespace]), env, i).writes,
              HadoopConfigMap(c, namespace).key)
    {
      ghost var w0, t0 := Now(), trace;
      ghost var one, two := HbaseConfigMap(c, namespace), HadoopConfigMap(c, namespace);
      ConfigPair(c, namespace);
      ConfigPairRuns(w0, c, namespace, env, i);
      hide RunTasks, ConfigTasks, ConfigMapFor, HbaseConfigMap, HadoopConfigMap, Reconcile, CreatedVersion;
      var cfg := BuildConfigMap(c.hbaseName, namespace, c.hbase, c.hbaseOverrides);
      r, version := ReconcileConfigMap(cfg, env(i));
      if r != CLEAN {
        return;
      }
      cfg := BuildConfigMap(c.hadoopName, namespace, c.hadoop, c.hadoopOverrides);
      r, version := ReconcileConfigMap(cfg, env(i + 1));
    }

    /** A component's StatefulSet and disruption budget, built from the same maps. */
    method ReconcileWorkload(cr: CR, d: Deployment, version: string, env: Env, i: nat) returns (r: Outcome)
      modifies this, api
      ensures So(r) == Resume(old(trace), RunTasks(old(Now()), WorkloadTasks(cr, d, version), env, i))
    {
      ghost var w0, t0 := Now(), trace;
      WorkloadRuns(w0, cr, d, version, env, i);
      WorkloadShapes(cr, d, version);
      hide RunTasks, WorkloadTasks, Reconcile, StatefulSetFor, PdbFor, ValidVolumes, TemplateLabels, OwnerOf, Multi;
      var h := Fetch(d);
      var newSet := BuildStatefulSet(cr, version, h);
      if newSet.None? {
        assert t0 + [] == t0;
        return INVALID;
      }
      r := ReconcileStatefulSet(newSet.value, d.size, env(i + 1));
      if r != CLEAN {
        return;
      }
      var pdb := BuildPodDisruptionBudget(cr, h);
      if pdb.Some? {
        ghost var e := Reconcile(w0, StatefulSetFor(cr, d, version), env(i + 1));
        ghost var f := Reconcile(e.world, pdb.value, env(i + 2));
        assert (t0 + e.writes) + f.writes == t0 + (e.writes + f.writes);
        r := ReconcilePodDisruptionBudget(pdb.value, env(i + 2));
      }
    }

    // ---------- the loops of the cluster reconciler ----------

    method ReconcileConfigs(c: Configuration, namespaces: seq<string>, env: Env, first: nat) returns (r: Outcome)
      modifies this, api
      ensures So(r) == Resume(old(trace), RunTasks(old(Now()), ConfigTasks(c, namespaces), env, first))
    {
      hide RunTasks, ConfigTasks;
      ghost var total := Resume(trace, RunTasks(Now(), ConfigTasks(c, namespaces), env, first));
      var i := first;
      assert namespaces[0..] == namespaces;
      for n := 0 to |namespaces|
        invariant total == Resume(trace, RunTasks(Now(), ConfigTasks(c, namespaces[n..]), env, i))
      {
        ghost var here, rest := ConfigTasks(c, [namespaces[n]]), ConfigTasks(c, namespaces[n + 1..]);
        ConfigTasksSplit(c, namespaces[n..]);
        assert namespaces[n..][..1] == [namespaces[n]] && namespaces[n..][1..] == namespaces[n + 1..];
        Continue(Now(), trace, here, rest, env, i);
        var version;
        r, version := ReconcileConfig(c, namespaces[n], env, i);
        if r != CLEAN {
          return;
        }
        i := i + 2;
      }
      ConfigTasksLength(c, namespaces[|namespaces|..]);
      NoTasks(Now(), trace, ConfigTasks(c, namespaces[|namespaces|..]), env, i);
      r := CLEAN;
    }

    method ReconcilePodServices(cr: CR, d: Deployment, env: Env, first: nat) returns (r: Outcome, i: nat)
      modifies this, api
      ensures So(r) == Resume(old(trace), RunTasks(old(Now()), PodTasks(cr, d, 0), env, first))
      ensures r == CLEAN ==> i == first + |PodTasks(cr, d, 0)|
    {
      hide RunTasks, PodTasks, PodService;
      ghost var total := Resume(trace, RunTasks(Now(), PodTasks(cr, d, 0), env, first));
      i := first;
      var index := 0;
      while index < d.size
        invariant 0 <= index
        invariant i + |PodTasks(cr, d, index)| == first + |PodTasks(cr, d, 0)|
        invariant total == Resume(trace, RunTasks(Now(), PodTasks(cr, d, index), env, i))
      {
        var name := PodName(d.name, index);
        PodTasksSplit(cr, d, index);
        Continue(Now(), trace, [Ensure(PodService(cr, d, index))], PodTasks(cr, d, index + 1), env, i);
        OneTask(Now(), PodService(cr, d, index), env, i);
        var svc := BuildService(name, cr.name, cr.namespace, None, null, [d], false);
        PodServiceIs(cr, d, index);
        r := ReconcileService(svc, env(i));
        if r != CLEAN {
          return;
        }
        index := index + 1;
        i := i + 1;
      }
      PodTasksSplit(cr, d, index);
      NoTasks(Now(), trace, PodTasks(cr, d, index), env, i);
      r := CLEAN;
    }

    method ReconcileComponents(cr: CR, ds: seq<Deployment>, version: string, env: Env, first: nat) returns (r: Outcome)
      requires cr.flavour.Cluster?
      modifies this, api
      ensures So(r) == Resume(old(trace), RunTasks(old(Now()), AllComponentTasks(cr, ds, version), env, first))
    {
      hide RunTasks, PodTasks, WorkloadTasks, AllComponentTasks;
      ghost var total := Resume(trace, RunTasks(Now(), AllComponentTasks(cr, ds, version), env, first));
      var i := first;
      assert ds[0..] == ds;
      for j := 0 to |ds|
        invariant total == Resume(trace, RunTasks(Now(), AllComponentTasks(cr, ds[j..], version), env, i))
      {
        var d := ds[j];
        ghost var pods, workload := PodTasks(cr, d, 0), WorkloadTasks(cr, d, version);
        ghost var others := AllComponentTasks(cr, ds[j + 1..], version);
        ComponentsSplit(cr, ds, version, j);
        if d.podServiceRequired {
          Continue(Now(), trace, pods, workload + others, env, i);
          r, i := ReconcilePodServices(cr, d, env, i);
          if r != CLEAN {
            return;
          }
        }
        Continue(Now(), trace, workload, others, env, i);
        r := ReconcileWorkload(cr, d, version, env, i);
        if r != CLEAN {
          return;
        }
        i := i + if d.pdb.Some? then 3 else 2;
      }
      NoComponents(cr, ds[|ds|..], version);
      NoTasks(Now(), trace, AllComponentTasks(cr, ds[|ds|..], version), env, i);
      r := CLEAN;
    }

    /** The service of the custom resource, and then the check of its configuration. */
    method ReconcileServiceThenCheck(cr: CR, deployments: seq<Deployment>, env: Env) returns (r: Outcome)
      requires deployments == Components(cr)
      modifies this, api
      ensures So(r) == Resume(old(trace), RunTasks(old(Now()), ServiceAndCheck(cr), env, 1))
    {
      ServiceThenCheck(Now(), ClusterService(cr), ValidConfiguration(cr.config), env, 1);
      hide RunTasks, ValidConfiguration;
      var selector := Copy(cr.serviceSelector);
      var svc := BuildService(cr.name, cr.name, cr.namespace, cr.serviceLabels, selector, deployments, true);
      assert svc == ClusterService(cr);
      r := ReconcileService(svc, env(1));
      if r != CLEAN {
        return;
      }
      var valid := ValidateConfiguration(cr.config);
      if !valid {
        return INVALID;
      }
    }

    /** What the cluster reconciler does before it reads the config version. */
    method ReconcileServiceAndConfigs(cr: CR, deployments: seq<Deployment>, env: Env) returns (r: Outcome)
      requires cr.flavour.Cluster? && deployments == Components(cr)
      modifies this, api
      ensures So(r) == Resume(old(trace), RunTasks(old(Now()), Pre(cr), env, 1))
    {
      hide Pre, RunTasks, ClusterService;
      PreSplit(cr);
      Continue(Now(), trace, ServiceAndCheck(cr), ConfigTasks(cr.config, Namespaces(cr)), env, 1);
      r := ReconcileServiceThenCheck(cr, deployments, env);
      if r != CLEAN {
        return;
      }
      var namespaces := cr.flavour.tenantNamespaces + [cr.namespace];
      r := ReconcileConfigs(cr.config, namespaces, env, 3);
    }

    /** The validation and config maps of a tenant whose label asks for them. */
    method ReconcileTenantConfigs(cr: CR, env: Env) returns (r: Outcome)
      requires cr.flavour.Tenant? && LabelIn(cr, {"config-only", "true", "yes"})
      modifies this, api
      ensures So(r) == Resume(old(trace), RunTasks(old(Now()), Pre(cr), env, 1))
    {
      hide RunTasks, Pre;
      TenantPre(cr, Now(), env);
      assert trace + [] == trace;
      var valid := ValidateConfiguration(cr.config);
      if !valid {
        return INVALID;
      }
      var unused;
      r, unused := ReconcileConfig(cr.config, cr.namespace, env, 2);
    }

    /** The service and workload of a tenant, after the config version is known. */
    method ReconcileTenantWorkload(cr: CR, version: string, env: Env, i: nat) returns (r: Outcome)
      requires cr.flavour.Tenant?
      modifies this, api
      ensures So(r) == Resume(old(trace), RunTasks(old(Now()), Post(cr, version), env, i))
    {
      hide RunTasks, WorkloadTasks, Post;
      TenantPost(cr, version);
      Continue(Now(), trace, [Ensure(ClusterService(cr))], WorkloadTasks(cr, cr.main, version), env, i);
      OneTask(Now(), ClusterService(cr), env, i);
      var selector := Copy(cr.serviceSelector);
      var svc := BuildService(cr.name, cr.name, cr.namespace, cr.serviceLabels, selector, [cr.main], true);
      assert svc == ClusterService(cr);
      r := ReconcileService(svc, env(i));
      if r != CLEAN {
        return;
      }
      r := ReconcileWorkload(cr, cr.main, version, env, i + 1);
    }

    /** What the standalone reconciler does before the StatefulSet, and the resource version that
        its Hadoop ConfigMap got, if this pass created it. */
    method ReconcileStandaloneConfigs(cr: CR, env: Env) returns (r: Outcome, version: string)
      requires cr.flavour.Standalone?
      modifies this, api
      ensures So(r) == Resume(old(trace), RunTasks(old(Now()), Pre(cr), env, 1))
      ensures r == CLEAN ==>
        version == if cr.config.hbaseName == cr.config.hadoopName then "" else
          CreatedVersion(RunTasks(old(Now()), Pre(cr), env, 1).writes, HadoopConfigMap(cr.config, cr.namespace).key)
    {
      hide Pre, RunTasks, ClusterService, ConfigTasks, CreatedVersion;
      ghost var w0 := Now();
      PreSplit(cr);
      Continue(w0, trace, ServiceAndCheck(cr), ConfigTasks(cr.config, [cr.namespace]), env, 1);
      version := "";
      r := ReconcileServiceThenCheck(cr, [cr.main], env);
      if r != CLEAN {
        return;
      }
      r, version := ReconcileConfig(cr.config, cr.namespace, env, 3);
      if r == CLEAN {
        StandaloneVersion(cr, w0, env);
      }
    }

    // ---------- the reconcilers ----------

    /** One pass over an HbaseCluster; `req` is what the read of it finds. */
    method ReconcileCluster(req: Option<CR>, env: Env) returns (r: Outcome)
      requires req.Some? ==> req.value.flavour.Cluster?
      modifies this, api
      ensures req.None? ==> So(r) == Effect(old(Now()), if env(0).getFails then RETRY else CLEAN, old(trace))
      ensures req.Some? ==> So(r) == Resume(old(trace), Pass(PlanOf(req.value), old(Now()), env))
    {
      hide Pass, Pre, Post, RunTasks, WorkloadTasks, ConfigTasks, ValidConfiguration;
      if req.Some? {
        PassStopsEarly(req.value, Now(), trace, env);
      }
      if env(0).getFails {
        return RETRY;
      }
      if req.None? {
        return CLEAN;
      }
      var cr := req.value;
      ghost var w0, t0 := Now(), trace;
      var labelled := cr.serviceLabels.Some? && RECONCILE_CONFIG_LABEL in cr.serviceLabels.value;
      var value := if labelled then cr.serviceLabels.value[RECONCILE_CONFIG_LABEL] else "";
      var deployments := [cr.flavour.journalnode, cr.flavour.namenode, cr.main, cr.flavour.hmaster];
      if cr.flavour.zookeeper.size != 0 {
        deployments := [cr.flavour.zookeeper] + deployments;
      }
      assert deployments == Components(cr);
      r := ReconcileServiceAndConfigs(cr, deployments, env);
      if r != CLEAN {
        return;
      }
      var i := 3 + 2 * (|cr.flavour.tenantNamespaces| + 1);
      PreLength(cr);
      var version;
      if labelled && (value == "true" || value == "yes") {
        version := GetCfgResourceVersionIfV2OrNil(Key(ConfigMapKind, cr.namespace, cr.config.hbaseName), env(i));
      } else {
        version := GetStatefulSetAnnotation(Key(StatefulSetKind, cr.namespace, cr.main.name), env(i));
      }
      assert forall writes :: version == VersionRead(SourceOf(cr), Now(), writes, env(i));
      AfterVersion(cr, w0, t0, env, Now(), trace, version);
      PostSplit(cr, version);
      r := ReconcileComponents(cr, deployments, version, env, i + 1);
    }

    /** One pass over an HbaseTenant. */
    method ReconcileTenant(req: Option<CR>, env: Env) returns (r: Outcome)
      requires req.Some? ==> req.value.flavour.Tenant?
      modifies this, api
      ensures req.None? ==> So(r) == Effect(old(Now()), if env(0).getFails then RETRY else CLEAN, old(trace))
      ensures req.Some? ==> So(r) == Resume(old(trace), Pass(PlanOf(req.value), old(Now()), env))
    {
      hide Pass, Pre, Post, RunTasks, WorkloadTasks, ConfigTasks, ValidConfiguration;
      if req.Some? {
        PassStopsEarly(req.value, Now(), trace, env);
      }
      if env(0).getFails {
        return RETRY;
      }
      if req.None? {
        return CLEAN;
      }
      var cr := req.value;
      ghost var w0, t0 := Now(), trace;
      var labelled := cr.serviceLabels.Some? && RECONCILE_CONFIG_LABEL in cr.serviceLabels.value;
      var value := if labelled then cr.serviceLabels.value[RECONCILE_CONFIG_LABEL] else "";
      var i := 1;
      TenantPre(cr, w0, env);
      if labelled && (value == "config-only" || value == "true" || value == "yes") {
        r := ReconcileTenantConfigs(cr, env);
        if r != CLEAN {
          return;
        }
        i := 4;
      }
      var version;
      if labelled && (value == "true" || value == "yes") {
        version := GetCfgResourceVersionIfV2OrNil(Key(ConfigMapKind, cr.namespace, cr.config.hbaseName), env(i));
      } else {
        version := GetStatefulSetAnnotation(Key(StatefulSetKind, cr.namespace, cr.main.name), env(i));
      }
      assert forall writes :: version == VersionRead(SourceOf(cr), Now(), writes, env(i));
      AfterVersion(cr, w0, t0, env, Now(), trace, version);
      r := ReconcileTenantWorkload(cr, version, env, i + 1);
    }

    /** One pass over an HbaseStandalone. */
    method ReconcileStandalone(req: Option<CR>, env: Env) returns (r: Outcome)
      requires req.Some? ==> req.value.flavour.Standalone?
      modifies this, api
      ensures req.None? ==> So(r) == Effect(old(Now()), if env(0).getFails then RETRY else CLEAN, old(trace))
      ensures req.Some? ==> So(r) == Resume(old(trace), Pass(PlanOf(req.value), old(Now()), env))
    {
      hide Pass, Pre, Post, RunTasks, WorkloadTasks, ConfigTasks, ValidConfiguration;
      if req.Some? {
        PassStopsEarly(req.value, Now(), trace, env);
      }
      if env(0).getFails {
        return RETRY;
      }
      if req.None? {
        return CLEAN;
      }
      var cr := req.value;
      ghost var w0, t0 := Now(), trace;
      var version;
      r, version := ReconcileStandaloneConfigs(cr, env);
      if r != CLEAN {
        return;
      }
      PreLength(cr);
      AfterVersion(cr, w0, t0, env, Now(), trace, version);
      PostSplit(cr, version);
      r := ReconcileWorkload(cr, cr.main, version, env, 6);
    }
  }

  // ---------- how the parts make up a pass ----------

  /** Going on after a first list of tasks. */
  lemma Continue(w: World, t: seq<Write>, a: seq<Task>, b: seq<Task>, env: Env, i: nat)
    ensures var e := RunTasks(w, a, env, i);
            Resume(t, RunTasks(w, a + b, env, i)) ==
              if e.outcome != CLEAN then Resume(t, e)
              else Resume(t + e.writes, RunTasks(e.world, b, env, i + |a|))
  {
    RunConcat(w, a, b, env, i);
    var e := RunTasks(w, a, env, i);
    var r := RunTasks(e.world, b, env, i + |a|);
    assert t + (e.writes + r.writes) == (t + e.writes) + r.writes;
  }

  lemma ServiceThenCheck(w: World, x: Want, ok: bool, env: Env, i: nat)
    ensures RunTasks(w, [Ensure(x), Check(ok)], env, i) ==
              var e := Reconcile(w, x, env(i));
              if e.outcome != CLEAN || ok then e else Effect(e.world, INVALID, e.writes)
  {
    var e := Reconcile(w, x, env(i));
    assert [Ensure(x), Check(ok)][1..] == [Check(ok)] && [Check(ok)][1..] == [];
    assert RunTasks(e.world, [Check(ok)], env, i + 1) == Effect(e.world, if ok then CLEAN else INVALID, []);
    assert e.writes + [] == e.writes;
  }

  lemma WorkloadRuns(w: World, cr: CR, d: Deployment, version: string, env: Env, i: nat)
    ensures RunTasks(w, WorkloadTasks(cr, d, version), env, i) ==
              if !ValidVolumes(d) then Effect(w, INVALID, [])
              else
                var e := Reconcile(w, StatefulSetFor(cr, d, version), env(i + 1));
                if e.outcome != CLEAN || d.pdb.None? then e
                else
                  var f := Reconcile(e.world, PdbFor(cr, d), env(i + 2));
                  Effect(f.world, f.outcome, e.writes + f.writes)
  {
    var s := StatefulSetFor(cr, d, version);
    var tasks := WorkloadTasks(cr, d, version);
    hide StatefulSetFor, PdbFor, Reconcile, ValidVolumes;
    assert tasks[0] == Check(ValidVolumes(d)) && tasks[1..] == [Ensure(s)] + PdbTasks(cr, d);
    if d.pdb.Some? {
      assert tasks[1..] == [Ensure(s), Ensure(PdbFor(cr, d))];
      TwoTasks(w, s, PdbFor(cr, d), env, i + 1);
    } else {
      assert tasks[1..] == [Ensure(s)];
      OneTask(w, s, env, i + 1);
    }
    assert [] + RunTasks(w, tasks[1..], env, i + 1).writes == RunTasks(w, tasks[1..], env, i + 1).writes;
  }

  /** What the builders make of a component, in the terms of their contracts. */
  lemma WorkloadShapes(cr: CR, d: Deployment, version: string)
    ensures var x := StatefulSetFor(cr, d, version);
            x.key.kind.StatefulSetKind? && x.content.StatefulSetContent? && x.content.workload.replicas == d.size
    ensures d.pdb.Some? ==>
      var labels := if d.labels.Some? then TemplateLabels(cr.name, d, Multi(cr)) else map[];
      PdbFor(cr, d) == Want(
        Key(PdbKind, cr.namespace, d.name + "-pdb"),
        PdbContent(Pdb(
          d.name + "-pdb", cr.namespace, OwnerOf(cr),
          map["app.kubernetes.io/name" := cr.name, "app.kubernetes.io/instance" := "pdb-" + d.name],
          labels, d.pdb.value.minAvailable,
          if d.pdb.value.minAvailable.None? then d.pdb.value.maxUnavailable else None)),
        map[])
  {
    hide TemplateLabels;
  }

  lemma PassStopsEarly(cr: CR, w: World, t: seq<Write>, env: Env)
    ensures env(0).getFails ==> Resume(t, Pass(PlanOf(cr), w, env)) == Effect(w, RETRY, t)
    ensures var pre := RunTasks(w, Pre(cr), env, 1);
            !env(0).getFails && pre.outcome != CLEAN ==> Resume(t, Pass(PlanOf(cr), w, env)) == Resume(t, pre)
  {
    hide Pre, RunTasks, Post;
    assert t + [] == t;
  }

  /** A pass whose first tasks came out clean goes on with the tasks after the version is read. */
  lemma AfterVersion(cr: CR, w0: World, t0: seq<Write>, env: Env, w1: World, t1: seq<Write>, version: string)
    requires !env(0).getFails
    requires Resume(t0, RunTasks(w0, Pre(cr), env, 1)) == Effect(w1, CLEAN, t1)
    requires version == VersionRead(SourceOf(cr), w1, RunTasks(w0, Pre(cr), env, 1).writes, env(1 + |Pre(cr)|))
    ensures Resume(t0, Pass(PlanOf(cr), w0, env)) == Resume(t1, RunTasks(w1, Post(cr, version), env, 2 + |Pre(cr)|))
  {
    hide Pre, Post, SourceOf;
    var pre := RunTasks(w0, Pre(cr), env, 1);
    var post := RunTasks(w1, Post(cr, version), env, 2 + |Pre(cr)|);
    assert t0 + (pre.writes + post.writes) == (t0 + pre.writes) + post.writes;
  }

  function ServiceAndCheck(cr: CR): seq<Task> {
    [Ensure(ClusterService(cr)), Check(ValidConfiguration(cr.config))]
  }

  lemma NoTasks(w: World, t: seq<Write>, tasks: seq<Task>, env: Env, i: nat)
    requires tasks == []
    ensures Resume(t, RunTasks(w, tasks, env, i)) == Effect(w, CLEAN, t)
  {
    assert t + [] == t;
  }

  lemma NoComponents(cr: CR, ds: seq<Deployment>, version: string)
    requires ds == []
    ensures AllComponentTasks(cr, ds, version) == []
  {
  }

  lemma PodTasksSplit(cr: CR, d: Deployment, index: nat)
    ensures index < d.size ==> PodTasks(cr, d, index) == [Ensure(PodService(cr, d, index))] + PodTasks(cr, d, index + 1)
    ensures index >= d.size ==> PodTasks(cr, d, index) == []
  {
  }

  lemma PodServiceIs(cr: CR, d: Deployment, index: nat)
    ensures var name := PodName(d.name, index);
            PodService(cr, d, index) ==
              Want(Key(ServiceKind, cr.namespace, name),
                   ServiceContent(ServiceSpec("", OrEmpty(None) + SharedLabels(cr.name)[POD_NAME := name],
                       DeploymentPorts([d]))),
                   OrEmpty(None))
  {
    var labels := SharedLabels(cr.name)[POD_NAME := PodName(d.name, index)];
    assert map[] + labels == labels;
  }

  lemma PreSplit(cr: CR)
    requires !cr.flavour.Tenant?
    ensures Pre(cr) == ServiceAndCheck(cr) + ConfigTasks(cr.config, Namespaces(cr))
  {
  }

  lemma {:induction false} ConfigTasksLength(c: Configuration, namespaces: seq<string>)
    ensures |ConfigTasks(c, namespaces)| == 2 * |namespaces|
    decreases |namespaces|
  {
    if namespaces != [] {
      ConfigTasksLength(c, namespaces[1..]);
    }
  }

  lemma PreLength(cr: CR)
    requires !cr.flavour.Tenant?
    ensures |Pre(cr)| == 2 + 2 * (if cr.flavour.Cluster? then |cr.flavour.tenantNamespaces| + 1 else 1)
  {
    PreSplit(cr);
    ConfigTasksLength(cr.config, Namespaces(cr));
  }

  lemma ComponentsSplit(cr: CR, ds: seq<Deployment>, version: string, j: nat)
    requires cr.flavour.Cluster? && j < |ds|
    ensures var rest := WorkloadTasks(cr, ds[j], version) + AllComponentTasks(cr, ds[j + 1..], version);
            AllComponentTasks(cr, ds[j..], version) ==
              if ds[j].podServiceRequired then PodTasks(cr, ds[j], 0) + rest else rest
    ensures |WorkloadTasks(cr, ds[j], version)| == if ds[j].pdb.Some? then 3 else 2
  {
    var pods, workload := PodTasks(cr, ds[j], 0), WorkloadTasks(cr, ds[j], version);
    var others := AllComponentTasks(cr, ds[j + 1..], version);
    assert ds[j..][0] == ds[j] && ds[j..][1..] == ds[j + 1..];
    assert (pods + workload) + others == pods + (workload + others);
    assert [] + workload == workload;
  }

  lemma PostSplit(cr: CR, version: string)
    requires !cr.flavour.Tenant?
    ensures Post(cr, version) == AllComponentTasks(cr, Components(cr), version)
    ensures cr.flavour.Standalone? ==> Post(cr, version) == WorkloadTasks(cr, cr.main, version)
  {
    assert [] + AllComponentTasks(cr, Components(cr), version) == AllComponentTasks(cr, Components(cr), version);
    if cr.flavour.Standalone? {
      SingleComponent(cr, version);
    }
  }

  lemma SingleComponent(cr: CR, version: string)
    requires !cr.flavour.Cluster?
    ensures AllComponentTasks(cr, [cr.main], version) == WorkloadTasks(cr, cr.main, version)
  {
    assert [cr.main][1..] == [];
    assert [] + WorkloadTasks(cr, cr.main, version) + [] == WorkloadTasks(cr, cr.main, version);
  }

  lemma TenantPre(cr: CR, w: World, env: Env)
    requires cr.flavour.Tenant?
    ensures RunTasks(w, Pre(cr), env, 1) ==
              if !LabelIn(cr, {"config-only", "true", "yes"}) then Effect(w, CLEAN, [])
              else if !ValidConfiguration(cr.config) then Effect(w, INVALID, [])
              else RunTasks(w, ConfigTasks(cr.config, [cr.namespace]), env, 2)
    ensures |Pre(cr)| == if LabelIn(cr, {"config-only", "true", "yes"}) then 3 else 0
  {
    var tasks := ConfigTasks(cr.config, [cr.namespace]);
    ConfigTasksLength(cr.config, [cr.namespace]);
    assert ([Check(ValidConfiguration(cr.config))] + tasks)[1..] == tasks;
    assert [] + RunTasks(w, tasks, env, 2).writes == RunTasks(w, tasks, env, 2).writes;
  }

  lemma TenantPost(cr: CR, version: string)
    requires cr.flavour.Tenant?
    ensures Post(cr, version) == [Ensure(ClusterService(cr))] + WorkloadTasks(cr, cr.main, version)
  {
    SingleComponent(cr, version);
  }

  /** The service's write before the config maps makes no difference to the version. */
  lemma StandaloneVersion(cr: CR, w: World, env: Env)
    requires cr.flavour.Standalone?
    requires RunTasks(w, Pre(cr), env, 1).outcome == CLEAN
    ensures var e := RunTasks(w, ServiceAndCheck(cr), env, 1);
            var k := HadoopConfigMap(cr.config, cr.namespace).key;
            CreatedVersion(RunTasks(w, Pre(cr), env, 1).writes, k)
              == CreatedVersion(RunTasks(e.world, ConfigTasks(cr.config, [cr.namespace]), env, 3).writes, k)
  {
    var tasks := ConfigTasks(cr.config, [cr.namespace]);
    var k := HadoopConfigMap(cr.config, cr.namespace).key;
    assert ClusterService(cr).key.kind.ServiceKind?;
    PreSplit(cr);
    RunConcat(w, ServiceAndCheck(cr), tasks, env, 1);
    ServiceWrites(w, ClusterService(cr), ValidConfiguration(cr.config), env, 1);
    hide RunTasks, Pre, ClusterService, ValidConfiguration, ConfigTasks;
    var e := RunTasks(w, ServiceAndCheck(cr), env, 1);
    OtherCreates(e.writes, RunTasks(e.world, tasks, env, 3).writes, k);
  }

  lemma ServiceWrites(w: World, x: Want, ok: bool, env: Env, i: nat)
    ensures var writes := RunTasks(w, [Ensure(x), Check(ok)], env, i).writes;
            forall j :: 0 <= j < |writes| ==> writes[j].key == x.key
  {
    ServiceThenCheck(w, x, ok, env, i);
  }

  lemma OtherCreates(a: seq<Write>, b: seq<Write>, k: Key)
    requires forall j :: 0 <= j < |a| ==> a[j].key != k
    ensures CreatedVersion(a + b, k) == CreatedVersion(b, k)
  {
    if b == [] {
      assert a + b == a;
    }
  }

  /** The version that the second of two config maps got, if it was created. */
  lemma ConfigVersion(w: World, x: Want, y: Want, env: Env, i: nat)
    requires RunTasks(w, [Ensure(x), Ensure(y)], env, i).outcome == CLEAN && x.key != y.key
    ensures CreatedVersion(RunTasks(w, [Ensure(x), Ensure(y)], env, i).writes, y.key) ==
              if y.key !in Reconcile(w, x, env(i)).world.objects then env(i + 1).version else ""
  {
    TwoTasks(w, x, y, env, i);
    var e := Reconcile(w, x, env(i));
    OtherCreates(e.writes, Reconcile(e.world, y, env(i + 1)).writes, y.key);
  }

  lemma ConfigPair(c: Configuration, namespace: string)
    ensures var x, y := HbaseConfigMap(c, namespace), HadoopConfigMap(c, namespace);
            && x == ConfigMapFor(c.hbaseName, namespace, c.hbase, c.hbaseOverrides)
            && y == ConfigMapFor(c.hadoopName, namespace, c.hadoop, c.hadoopOverrides)
            && x.key.kind.ConfigMapKind? && x.content.ConfigMapContent?
            && y.key.kind.ConfigMapKind? && y.content.ConfigMapContent?
            && (c.hbaseName == c.hadoopName <==> x.key == y.key)
  {
  }

  /** One round of the loop over the namespaces. */
  lemma ConfigPairRuns(w: World, c: Configuration, namespace: string, env: Env, i: nat)
    ensures var x, y := HbaseConfigMap(c, namespace), HadoopConfigMap(c, namespace);
            var e := Reconcile(w, x, env(i));
            var f := Reconcile(e.world, y, env(i + 1));
            var all := RunTasks(w, ConfigTasks(c, [namespace]), env, i);
            && all == (if e.outcome != CLEAN then e else Effect(f.world, f.outcome, e.writes + f.writes))
            && (all.outcome == CLEAN && x.key != y.key ==>
                  CreatedVersion(all.writes, y.key) == if y.key !in e.world.objects then env(i + 1).version else "")
            && (e.outcome == CLEAN ==> x.key in e.world.objects)
  {
    var x, y := HbaseConfigMap(c, namespace), HadoopConfigMap(c, namespace);
    assert ConfigTasks(c, [namespace]) == [Ensure(x), Ensure(y)] by {
      assert [namespace][1..] == [];
    }
    TwoTasks(w, x, y, env, i);
    hide HbaseConfigMap, HadoopConfigMap, ConfigTasks;
    if RunTasks(w, [Ensure(x), Ensure(y)], env, i).outcome == CLEAN && x.key != y.key {
      ConfigVersion(w, x, y, env, i);
    }
  }

  lemma TwoTasks(w: World, x: Want, y: Want, env: Env, i: nat)
    ensures RunTasks(w, [Ensure(x), Ensure(y)], env, i) ==
              var e := Reconcile(w, x, env(i));
              if e.outcome != CLEAN then e
              else
                var f := Reconcile(e.world, y, env(i + 1));
                Effect(f.world, f.outcome, e.writes + f.writes)
  {
    var e := Reconcile(w, x, env(i));
    OneTask(e.world, y, env, i + 1);
    assert [Ensure(x), Ensure(y)][1..] == [Ensure(y)];
  }

  lemma OneTask(w: World, x: Want, env: Env, i: nat)
    ensures RunTasks(w, [Ensure(x)], env, i) == Reconcile(w, x, env(i))
  {
    var e := Reconcile(w, x, env(i));
    assert [Ensure(x)][1..] == [];
    assert e.writes + [] == e.writes;
  }
}
