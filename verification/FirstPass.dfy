/** The order in which a pass goes about its work, shown on an API server with no objects. */
module FirstPass {
  import opened Kube
  import opened Resources
  import opened Protocol
  import opened TaskFacts
  import opened Passes
  import opened Plans
  import opened Names
  import opened Controllers

  /** The objects of a list of tasks, in order. */
  function KeysIn(tasks: seq<Task>): seq<Key> {
    if tasks == [] then []
    else (if tasks[0].Ensure? then [tasks[0].want.key] else []) + KeysIn(tasks[1..])
  }

  lemma {:induction false} KeysJoin(a: seq<Task>, b: seq<Task>)
    ensures KeysIn(a + b) == KeysIn(a) + KeysIn(b)
    decreases |a|
  {
    if a == [] {
      assert a + b == b;
    } else {
      assert (a + b)[0] == a[0] && (a + b)[1..] == a[1..] + b;
      KeysJoin(a[1..], b);
    }
  }

  predicate Different(ks: seq<Key>) {
    forall i, j :: 0 <= i < j < |ks| ==> ks[i] != ks[j]
  }

  lemma DifferentJoin(a: seq<Key>, b: seq<Key>)
    requires Different(a) && Different(b) && forall k :: k in a ==> k !in b
    ensures Different(a + b)
  {
    forall i, j | 0 <= i < j < |a + b| ensures (a + b)[i] != (a + b)[j] {
      assert i < |a| <= j ==> (a + b)[i] in a && (a + b)[j] in b;
    }
  }

  // ---------- tasks on objects that are not there ----------

  /** No call fails. */
  ghost predicate NothingFails(env: Env) {
    forall i :: !env(i).getFails && !env(i).writeFails
  }

  /** Every check holds, and nothing is a StatefulSet or disruption budget. */
  predicate Easy(tasks: seq<Task>) {
    forall t <- tasks :: if t.Check? then t.ok else t.want.key.kind.ServiceKind? || t.want.key.kind.ConfigMapKind?
  }

  ghost predicate NoneThere(w: World, ks: seq<Key>) {
    forall k :: k in ks ==> k !in w.objects
  }

  /** The writes are creates of these objects in this order. */
  predicate CreatesInOrder(writes: seq<Write>, ks: seq<Key>) {
    |writes| == |ks| && forall i :: 0 <= i < |ks| ==> writes[i].Created? && writes[i].key == ks[i]
  }

  lemma CreatesJoin(a: seq<Write>, b: seq<Write>, ks: seq<Key>, ls: seq<Key>)
    requires CreatesInOrder(a, ks) && CreatesInOrder(b, ls)
    ensures CreatesInOrder(a + b, ks + ls)
  {
  }

  lemma OneEasy(w: World, t: Task, a: Answer)
    requires Easy([t]) && !a.getFails && !a.writeFails && (t.Ensure? ==> t.want.key !in w.objects)
    ensures var e, ks := RunTask(w, t, a), if t.Ensure? then [t.want.key] else [];
            && e.outcome == CLEAN && CreatesInOrder(e.writes, ks)
            && forall k :: k in e.world.objects <==> k in w.objects || k in ks
  {
    assert t in [t];
  }

  lemma HeadDiffers(w: World, tasks: seq<Task>)
    requires tasks != [] && Easy(tasks) && Different(KeysIn(tasks)) && NoneThere(w, KeysIn(tasks))
    ensures Easy([tasks[0]]) && Easy(tasks[1..]) && Different(KeysIn(tasks[1..])) && NoneThere(w, KeysIn(tasks[1..]))
    ensures tasks[0].Ensure? ==> tasks[0].want.key !in KeysIn(tasks[1..]) && tasks[0].want.key !in w.objects
  {
    var ks := KeysIn(tasks[1..]);
    var head := if tasks[0].Ensure? then [tasks[0].want.key] else [];
    assert KeysIn(tasks) == head + ks;
    hide KeysIn;
    forall n | 0 <= n < |ks| ensures ks[n] == (head + ks)[n + |head|] && ks[n] in head + ks {
    }
    assert tasks[0].Ensure? ==> (head + ks)[0] == tasks[0].want.key;
  }

  /** On objects that are not there such tasks create all, in their order. */
  lemma {:induction false} EasyTasksCreate(w: World, tasks: seq<Task>, env: Env, i: nat)
    requires NothingFails(env) && Easy(tasks) && Different(KeysIn(tasks)) && NoneThere(w, KeysIn(tasks))
    ensures var e := RunTasks(w, tasks, env, i);
            && e.outcome == CLEAN && CreatesInOrder(e.writes, KeysIn(tasks))
            && forall k :: k in e.world.objects <==> k in w.objects || k in KeysIn(tasks)
    decreases |tasks|
  {
    if tasks != [] {
      var t, rest := tasks[0], tasks[1..];
      var e := RunTask(w, t, env(i));
      HeadDiffers(w, tasks);
      OneEasy(w, t, env(i));
      hide RunTask, Easy, Different;
      EasyTasksCreate(e.world, rest, env, i + 1);
      CreatesJoin(e.writes, RunTasks(e.world, rest, env, i + 1).writes, if t.Ensure? then [t.want.key] else [],
                  KeysIn(rest));
      hide CreatesInOrder;
    }
  }

  /** And a StatefulSet after them, with which the run ends. */
  lemma EasyTasksThenSet(w: World, tasks: seq<Task>, x: Want, others: seq<Task>, env: Env, i: nat)
    requires NothingFails(env) && Easy(tasks) && Different(KeysIn(tasks)) && NoneThere(w, KeysIn(tasks))
    requires x.key.kind.StatefulSetKind? && x.key !in w.objects
    ensures var e := RunTasks(w, tasks + ([Ensure(x)] + others), env, i);
            e.outcome == Outcome(true, 5, false) && CreatesInOrder(e.writes, KeysIn(tasks) + [x.key])
  {
    var last := [Ensure(x)] + others;
    RunConcat(w, tasks, last, env, i);
    EasyTasksCreate(w, tasks, env, i);
    var e := RunTasks(w, tasks, env, i);
    EasyKeys(tasks);
    assert last[0] == Ensure(x) && x.key !in e.world.objects;
    var r := Reconcile(e.world, x, env(i + |tasks|));
    assert r.outcome == Outcome(true, 5, false) && r.writes == [Created(x.key, env(i + |tasks|).version)];
    assert RunTasks(e.world, last, env, i + |tasks|) == r;
    hide RunTasks, Reconcile;
    CreatesJoin(e.writes, r.writes, KeysIn(tasks), [x.key]);
  }

  lemma {:induction false} EasyKeys(tasks: seq<Task>)
    requires Easy(tasks)
    ensures forall k :: k in KeysIn(tasks) ==> k.kind.ServiceKind? || k.kind.ConfigMapKind?
    decreases |tasks|
  {
    if tasks != [] {
      assert tasks[0] in tasks;
      EasyKeys(tasks[1..]);
    }
  }

  // ---------- what comes before the first StatefulSet ----------

  /** For each namespace in turn the HBase and then the Hadoop ConfigMap. */
  function ConfigKeys(c: Configuration, namespaces: seq<string>): seq<Key> {
    if namespaces == [] then []
    else
      [Key(ConfigMapKind, namespaces[0], c.hbaseName), Key(ConfigMapKind, namespaces[0], c.hadoopName)]
      + ConfigKeys(c, namespaces[1..])
  }

  /** A service for each ordinal from `index` on. */
  function PodKeys(cr: CR, d: Deployment, index: nat): seq<Key>
    decreases d.size - index
  {
    if index < d.size then [Key(ServiceKind, cr.namespace, PodName(d.name, index))] + PodKeys(cr, d, index + 1) else []
  }

  /** The component that comes first. */
  function First(cr: CR): Deployment {
    if !cr.flavour.Cluster? then cr.main
    else if cr.flavour.zookeeper.size != 0 then cr.flavour.zookeeper else cr.flavour.journalnode
  }

  /** The objects of a first pass, in order. A cluster or standalone starts with its service, a tenant with
      its config maps, if its rollout label asks for them; a cluster's own namespace comes after those of
      its tenants, and the pod services of its first component before the StatefulSet. */
  function FirstKeys(cr: CR): seq<Key> {
    var service := [Key(ServiceKind, cr.namespace, cr.name)];
    (match cr.flavour
     case Cluster(_, tenantNamespaces, _, _, _, _) =>
       service + ConfigKeys(cr.config, tenantNamespaces + [cr.namespace])
       + if First(cr).podServiceRequired then PodKeys(cr, First(cr), 0) else []
     case Tenant =>
       (if RolloutLabel(cr) in {Some("config-only"), Some("true"), Some("yes")}
        then ConfigKeys(cr.config, [cr.namespace]) else [])
       + service
     case Standalone => service + ConfigKeys(cr.config, [cr.namespace]))
    + [Key(StatefulSetKind, cr.namespace, First(cr).name)]
  }

  /** The tasks before the first StatefulSet, and those that follow. */
  function PodsOfFirst(cr: CR): seq<Task> {
    if cr.flavour.Cluster? && First(cr).podServiceRequired then PodTasks(cr, First(cr), 0) else []
  }

  function Lead(cr: CR): seq<Task> {
    (if cr.flavour.Tenant? then [Ensure(ClusterService(cr))] else [])
    + PodsOfFirst(cr) + [Check(ValidVolumes(First(cr)))]
  }

  lemma Regroup(head: seq<Task>, pods: seq<Task>, check: seq<Task>, x: seq<Task>, budget: seq<Task>, more: seq<Task>)
    ensures head + ((pods + (check + x + budget)) + more) == (head + pods + check) + (x + (budget + more))
  {
  }

  lemma PostOpens(cr: CR, version: string)
    ensures Components(cr) != []
    ensures Post(cr, version) ==
      (if cr.flavour.Tenant? then [Ensure(ClusterService(cr))] else [])
      + (ComponentTasks(cr, First(cr), version) + AllComponentTasks(cr, Components(cr)[1..], version))
  {
    assert Components(cr)[0] == First(cr);
    hide ComponentTasks, Components, First, ClusterService;
  }

  lemma ComponentOpens(cr: CR, version: string)
    ensures ComponentTasks(cr, First(cr), version) ==
      PodsOfFirst(cr)
      + ([Check(ValidVolumes(First(cr)))] + [Ensure(StatefulSetFor(cr, First(cr), version))] + PdbTasks(cr, First(cr)))
  {
    hide First, PodTasks, PdbTasks, ValidVolumes, StatefulSetFor;
  }

  lemma PostStarts(cr: CR, version: string) returns (others: seq<Task>)
    ensures Post(cr, version) == Lead(cr) + ([Ensure(StatefulSetFor(cr, First(cr), version))] + others)
  {
    PostOpens(cr, version);
    ComponentOpens(cr, version);
    hide Post, ComponentTasks, PdbTasks, AllComponentTasks, Components, ClusterService, ValidVolumes, StatefulSetFor,
      First, PodsOfFirst;
    var budget, more := PdbTasks(cr, First(cr)), AllComponentTasks(cr, Components(cr)[1..], version);
    others := budget + more;
    Regroup(if cr.flavour.Tenant? then [Ensure(ClusterService(cr))] else [], PodsOfFirst(cr),
            [Check(ValidVolumes(First(cr)))], [Ensure(StatefulSetFor(cr, First(cr), version))], budget, more);
  }

  lemma {:induction false} ConfigKeysAre(c: Configuration, namespaces: seq<string>)
    ensures KeysIn(ConfigTasks(c, namespaces)) == ConfigKeys(c, namespaces)
    ensures Easy(ConfigTasks(c, namespaces))
    ensures forall k :: k in ConfigKeys(c, namespaces) ==> k.kind.ConfigMapKind? && k.namespace in namespaces
    decreases |namespaces|
  {
    if namespaces != [] {
      var n := namespaces[0];
      var two := [Ensure(HbaseConfigMap(c, n)), Ensure(HadoopConfigMap(c, n))];
      ConfigKeysAre(c, namespaces[1..]);
      KeysJoin(two, ConfigTasks(c, namespaces[1..]));
      assert two[1..] == [Ensure(HadoopConfigMap(c, n))] && two[1..][1..] == [];
      assert KeysIn(two) == [Key(ConfigMapKind, n, c.hbaseName), Key(ConfigMapKind, n, c.hadoopName)];
    }
  }

  lemma {:induction false} PodKeysAre(cr: CR, d: Deployment, index: nat)
    ensures KeysIn(PodTasks(cr, d, index)) == PodKeys(cr, d, index) && Easy(PodTasks(cr, d, index))
    ensures forall k :: k in PodKeys(cr, d, index) ==>
              exists i: nat :: index <= i < d.size && k == Key(ServiceKind, cr.namespace, PodName(d.name, i))
    decreases d.size - index
  {
    if index < d.size {
      var head := [Ensure(PodService(cr, d, index))];
      PodKeysAre(cr, d, index + 1);
      KeysJoin(head, PodTasks(cr, d, index + 1));
      assert head[1..] == [] && KeysIn(head) == [Key(ServiceKind, cr.namespace, PodName(d.name, index))];
    }
  }

  predicate NoTwice(namespaces: seq<string>) {
    forall i, j :: 0 <= i < j < |namespaces| ==> namespaces[i] != namespaces[j]
  }

  lemma {:induction false} ConfigKeysDiffer(c: Configuration, namespaces: seq<string>)
    requires NoTwice(namespaces) && c.hbaseName != c.hadoopName
    ensures Different(ConfigKeys(c, namespaces))
    decreases |namespaces|
  {
    if namespaces != [] {
      var n, rest := namespaces[0], namespaces[1..];
      ConfigKeysDiffer(c, rest);
      ConfigKeysAre(c, rest);
      assert n !in rest;
      hide ConfigTasks, KeysIn, Easy;
      DifferentJoin([Key(ConfigMapKind, n, c.hbaseName), Key(ConfigMapKind, n, c.hadoopName)], ConfigKeys(c, rest));
    }
  }

  lemma {:induction false} PodKeysDiffer(cr: CR, d: Deployment, index: nat)
    ensures Different(PodKeys(cr, d, index))
    decreases d.size - index
  {
    if index < d.size {
      var k := Key(ServiceKind, cr.namespace, PodName(d.name, index));
      PodKeysDiffer(cr, d, index + 1);
      PodKeysAre(cr, d, index + 1);
      hide PodTasks, KeysIn, Easy, PodName;
      if k in PodKeys(cr, d, index + 1) {
        var i: nat :| index + 1 <= i < d.size && k == Key(ServiceKind, cr.namespace, PodName(d.name, i));
        PodNameIsInjective(d.name, index, d.name, i);
      }
      DifferentJoin([k], PodKeys(cr, d, index + 1));
    }
  }

  /** The keys of the tasks before the version is read. */
  function EarlyKeys(cr: CR): seq<Key> {
    (if cr.flavour.Tenant? then [] else [Key(ServiceKind, cr.namespace, cr.name)])
    + ConfigKeys(cr.config, Namespaces(cr))
  }

  /** And those of the tasks after that, up to the StatefulSet. */
  function LateKeys(cr: CR): seq<Key> {
    (if cr.flavour.Tenant? then [Key(ServiceKind, cr.namespace, cr.name)] else [])
    + if cr.flavour.Cluster? && First(cr).podServiceRequired then PodKeys(cr, First(cr), 0) else []
  }

  lemma CheckFirst(ok: bool, tasks: seq<Task>)
    requires ok && Easy(tasks)
    ensures KeysIn([Check(ok)] + tasks) == KeysIn(tasks) && Easy([Check(ok)] + tasks)
  {
    assert ([Check(ok)] + tasks)[1..] == tasks;
  }

  lemma EnsureFirst(x: Want, tasks: seq<Task>)
    requires x.key.kind.ServiceKind? && Easy(tasks)
    ensures KeysIn([Ensure(x)] + tasks) == [x.key] + KeysIn(tasks) && Easy([Ensure(x)] + tasks)
  {
    assert ([Ensure(x)] + tasks)[1..] == tasks;
  }

  lemma PreIs(cr: CR)
    ensures Pre(cr) ==
      var checked := [Check(ValidConfiguration(cr.config))] + ConfigTasks(cr.config, Namespaces(cr));
      if !cr.flavour.Tenant? then [Ensure(ClusterService(cr))] + checked
      else if Namespaces(cr) == [] then [] else checked
  {
    hide ClusterService, ConfigTasks, ValidConfiguration, Namespaces;
  }

  lemma EarlyTasks(cr: CR)
    requires Namespaces(cr) != [] ==> ValidConfiguration(cr.config)
    ensures KeysIn(Pre(cr)) == EarlyKeys(cr) && Easy(Pre(cr))
  {
    var configs := ConfigTasks(cr.config, Namespaces(cr));
    PreIs(cr);
    ConfigKeysAre(cr.config, Namespaces(cr));
    assert ClusterService(cr).key == Key(ServiceKind, cr.namespace, cr.name);
    assert Namespaces(cr) == [] ==> cr.flavour.Tenant? && ConfigKeys(cr.config, Namespaces(cr)) == [];
    hide Pre, ClusterService, ConfigTasks, ValidConfiguration, Namespaces, ConfigKeys;
    if Namespaces(cr) != [] {
      CheckFirst(ValidConfiguration(cr.config), configs);
      EnsureFirst(ClusterService(cr), [Check(ValidConfiguration(cr.config))] + configs);
    }
    assert KeysIn([]) == [] && Easy([]);
    hide KeysIn, Easy;
  }

  lemma NoConfigKeys(c: Configuration, namespaces: seq<string>)
    requires namespaces == []
    ensures ConfigKeys(c, namespaces) == []
  {
  }

  lemma LateTasks(cr: CR)
    requires ValidVolumes(First(cr))
    ensures KeysIn(Lead(cr)) == LateKeys(cr) && Easy(Lead(cr))
  {
    var d := First(cr);
    var service, check := [Ensure(ClusterService(cr))], [Check(ValidVolumes(d))];
    var head := if cr.flavour.Tenant? then service else [];
    PodKeysAre(cr, d, 0);
    assert ClusterService(cr).key == Key(ServiceKind, cr.namespace, cr.name);
    hide ClusterService, ValidVolumes, First, PodTasks, PodKeys;
    assert KeysIn(check) == [] by { assert check[1..] == []; }
    assert KeysIn(service) == [ClusterService(cr).key] by { assert service[1..] == []; }
    KeysJoin(head, PodsOfFirst(cr));
    KeysJoin(head + PodsOfFirst(cr), check);
  }

  lemma KeysDiffer(cr: CR)
    requires DistinctNames(cr) && NoTwice(Namespaces(cr))
    ensures Different(EarlyKeys(cr)) && Different(LateKeys(cr)) && forall k :: k in EarlyKeys(cr) ==> k !in LateKeys(cr)
  {
    var service := [Key(ServiceKind, cr.namespace, cr.name)];
    var configs, pods := ConfigKeys(cr.config, Namespaces(cr)), PodKeys(cr, First(cr), 0);
    ConfigNamesDiffer(cr);
    ConfigKeysAre(cr.config, Namespaces(cr));
    PodKeysAre(cr, First(cr), 0);
    PodKeysDiffer(cr, First(cr), 0);
    FirstIsComponent(cr);
    forall k | k in pods ensures k != service[0] && k.kind.ServiceKind? {
      var i: nat :| i < First(cr).size && k == Key(ServiceKind, cr.namespace, PodName(First(cr).name, i));
    }
    hide DistinctNames, ConfigKeys, PodKeys, First, Namespaces, PodTasks, ConfigTasks, KeysIn, Easy;
    if configs != [] {
      ConfigKeysDiffer(cr.config, Namespaces(cr));
    }
    DifferentJoin(service, configs);
    DifferentJoin(service, pods);
  }

  lemma ConfigNamesDiffer(cr: CR)
    requires DistinctNames(cr)
    ensures ConfigKeys(cr.config, Namespaces(cr)) != [] ==> cr.config.hbaseName != cr.config.hadoopName
  {
    if Namespaces(cr) != [] {
      assert Namespaces(cr)[0] in Namespaces(cr);
      assert cr.config.hbaseName + Namespaces(cr)[0] != cr.config.hadoopName + Namespaces(cr)[0];
    }
  }

  lemma FirstIsComponent(cr: CR)
    ensures First(cr) in Components(cr)
  {
  }

  lemma FirstKeysAre(cr: CR)
    ensures FirstKeys(cr) == EarlyKeys(cr) + (LateKeys(cr) + [Key(StatefulSetKind, cr.namespace, First(cr).name)])
  {
    LabelDecides(cr);
    NoConfigKeys(cr.config, []);
    hide ConfigKeys, PodKeys, First, RolloutLabel, LabelIn;
  }

  lemma EarlyHasNoSet(cr: CR)
    ensures forall k :: k in EarlyKeys(cr) ==> !k.kind.StatefulSetKind?
  {
    ConfigKeysAre(cr.config, Namespaces(cr));
    hide ConfigKeys, Namespaces;
  }

  /** A plan whose tasks after the version is read start with easy ones and a StatefulSet. */
  lemma PassToSet(p: Plan, w: World, env: Env, lead: seq<Task>, x: Want, others: seq<Task>)
    requires p.post(PassVersion(p, w, env)) == lead + ([Ensure(x)] + others)
    requires w.objects == map[] && NothingFails(env) && x.key.kind.StatefulSetKind? && x.key !in KeysIn(p.pre)
    requires Easy(p.pre) && Different(KeysIn(p.pre)) && Easy(lead) && Different(KeysIn(lead))
    requires forall k :: k in KeysIn(p.pre) ==> k !in KeysIn(lead)
    ensures var e := Pass(p, w, env);
            && e.outcome == Outcome(true, 5, false)
            && CreatesInOrder(e.writes, KeysIn(p.pre) + (KeysIn(lead) + [x.key]))
  {
    var pre := RunTasks(w, p.pre, env, 1);
    hide RunTasks, Easy, KeysIn, Different, CreatesInOrder, VersionRead;
    EasyTasksCreate(w, p.pre, env, 1);
    EasyTasksThenSet(pre.world, lead, x, others, env, 2 + |p.pre|);
    var post := RunTasks(pre.world, lead + ([Ensure(x)] + others), env, 2 + |p.pre|);
    CreatesJoin(pre.writes, post.writes, KeysIn(p.pre), KeysIn(lead) + [x.key]);
  }

  /** A pass that finds no objects, fails in nothing and has nothing to object to creates the service, the
      config maps and, for a cluster, the first component's pod services, in their order, and then the
      first component's StatefulSet, with which it ends. */
  lemma FirstPassCreates(cr: CR, w: World, env: Env)
    requires DistinctNames(cr) && NoTwice(Namespaces(cr)) && ValidVolumes(First(cr))
    requires Namespaces(cr) != [] ==> ValidConfiguration(cr.config)
    requires w.objects == map[] && NothingFails(env)
    ensures var e := Pass(PlanOf(cr), w, env);
            e.outcome == Outcome(true, 5, false) && CreatesInOrder(e.writes, FirstKeys(cr))
  {
    var version := PassVersion(PlanOf(cr), w, env);
    var x := StatefulSetFor(cr, First(cr), version);
    var others := PostStarts(cr, version);
    assert x.key == Key(StatefulSetKind, cr.namespace, First(cr).name);
    EarlyTasks(cr);
    LateTasks(cr);
    KeysDiffer(cr);
    FirstKeysAre(cr);
    EarlyHasNoSet(cr);
    hide RunTasks, Pass, Pre, Post, PassVersion, EarlyKeys, LateKeys, Lead, StatefulSetFor, FirstKeys, First,
      DistinctNames, ValidConfiguration, ValidVolumes, Namespaces, Easy, KeysIn, Different, CreatesInOrder, SourceOf;
    PassToSet(PlanOf(cr), w, env, Lead(cr), x, others);
  }
}
