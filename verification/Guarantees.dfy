/** What clusters and tenants can rely on over whole runs. */
module Guarantees {
  import opened Kube
  import opened HashKeys
  import opened Resources
  import opened Protocol
  import opened TaskFacts
  import opened Passes
  import opened Plans
  import opened Names
  import opened Agreement
  import opened Convergence
  import opened Staging
  import opened Provenance
  import opened Rollout
  import opened Propagation
  import opened Controllers
  import opened Steps
  import Interleaving

  // ---------- a component waits for the earlier ones ----------

  /** At `n` in these tasks stands the StatefulSet of the `j`-th component: then that of the `i`-th
      stands before it. */
  lemma {:induction false} EarlierTask(cr: CR, ds: seq<Deployment>, version: string, n: nat, i: nat, j: nat)
      returns (m: nat)
    requires i < j < |ds| && (forall a, b :: 0 <= a < b < |ds| ==> ds[a].name != ds[b].name)
    requires var tasks := AllComponentTasks(cr, ds, version);
             n < |tasks| && tasks[n].Ensure? && tasks[n].want.key == StatefulSetKey(cr, ds[j])
    ensures m < n && AllComponentTasks(cr, ds, version)[m] == Ensure(StatefulSetFor(cr, ds[i], version))
    decreases |ds|
  {
    hide ComponentTasks, StatefulSetFor;
    var first, rest := ComponentTasks(cr, ds[0], version), AllComponentTasks(cr, ds[1..], version);
    if n < |first| {
      OnlyItsSet(cr, ds[0], version, n);
      assert false;
    } else if i == 0 {
      m := SetTask(cr, ds[0], version);
    } else {
      assert forall a :: 0 <= a < |ds| - 1 ==> ds[1..][a] == ds[a + 1];
      var k := EarlierTask(cr, ds[1..], version, n - |first|, i - 1, j - 1);
      m := |first| + k;
    }
  }

  lemma OnlyItsSet(cr: CR, d: Deployment, version: string, n: nat)
    requires n < |ComponentTasks(cr, d, version)|
    ensures var t := ComponentTasks(cr, d, version)[n];
            t.Ensure? && t.want.key.kind.StatefulSetKind? ==> t.want.key == StatefulSetKey(cr, d)
  {
    ComponentTasksAre(cr, d, version);
    var t := ComponentTasks(cr, d, version)[n];
    assert t in ComponentTasks(cr, d, version);
    assert t.Ensure? ==> t.want in Wants(ComponentTasks(cr, d, version));
  }

  lemma SetTask(cr: CR, d: Deployment, version: string) returns (m: nat)
    ensures m < |ComponentTasks(cr, d, version)|
    ensures ComponentTasks(cr, d, version)[m] == Ensure(StatefulSetFor(cr, d, version))
  {
    m := |ComponentTasks(cr, d, version)| - |WorkloadTasks(cr, d, version)| + 1;
  }

  lemma SeenMeansReady(cr: CR, d: Deployment, version: string, v: World, a: Answer)
    requires Seen(v, Ensure(StatefulSetFor(cr, d, version)), a)
    ensures var x := StatefulSetFor(cr, d, version);
            && Current(v, x) && !a.getFails
            && a.status.readyReplicas == d.size && a.status.currentRevision == a.status.updateRevision
  {
  }

  lemma EarlierPostTask(cr: CR, version: string, n: nat, i: nat, j: nat) returns (m: nat)
    requires i < j < |Components(cr)|
    requires forall a, b :: 0 <= a < b < |Components(cr)| ==> Components(cr)[a].name != Components(cr)[b].name
    requires n < |Post(cr, version)| && Post(cr, version)[n].Ensure?
    requires Post(cr, version)[n].want.key == StatefulSetKey(cr, Components(cr)[j])
    ensures m < n && Post(cr, version)[m] == Ensure(StatefulSetFor(cr, Components(cr)[i], version))
  {
    hide StatefulSetFor, AllComponentTasks;
    assert cr.flavour.Cluster?;
    assert Post(cr, version) == AllComponentTasks(cr, Components(cr), version);
    m := EarlierTask(cr, Components(cr), version, n, i, j);
  }

  /** A pass that writes the StatefulSet of a component has in this same pass read the StatefulSet
      of every earlier one, found it there with an up-to-date digest, and read a status that says
      that all its replicas are ready at one revision: whatever failed and restarted before. */
  lemma EarlierComponentsAreReady(cr: CR, w: World, env: Env, i: nat, j: nat) returns (m: nat)
    requires Unstamped(cr) && i < j < |Components(cr)|
    requires forall a, b :: 0 <= a < b < |Components(cr)| ==> Components(cr)[a].name != Components(cr)[b].name
    requires var writes := Pass(PlanOf(cr), w, env).writes;
             writes != [] && writes[|writes| - 1].key == StatefulSetKey(cr, Components(cr)[j])
    ensures var v := RunTasks(w, Pre(cr), env, 1).world;
            var x := StatefulSetFor(cr, Components(cr)[i], PassVersion(PlanOf(cr), w, env));
            var a := env(2 + |Pre(cr)| + m);
            && m < |Post(cr, PassVersion(PlanOf(cr), w, env))|
            && Current(v, x) && !a.getFails
            && a.status.readyReplicas == Components(cr)[i].size && a.status.currentRevision == a.status.updateRevision
  {
    hide Pass, RunTasks, PassVersion, Stale, Seen, Post, Pre, Components, StatefulSetFor;
    PlanIsSound(cr);
    var version := PassVersion(PlanOf(cr), w, env);
    var n := WritesOnlyAfterSeen(PlanOf(cr), w, env);
    m := EarlierPostTask(cr, version, n, i, j);
    SeenMeansReady(cr, Components(cr)[i], version, RunTasks(w, Pre(cr), env, 1).world, env(2 + |Pre(cr)| + m));
  }

  // ---------- a clean pass ----------

  lemma SetIsReady(cr: CR, d: Deployment, version: string, tasks: seq<Task>, env: Env, i: nat) returns (m: nat)
    requires StatefulSetFor(cr, d, version) in Wants(tasks) && AllPassed(tasks, env, i)
    ensures m < |tasks| && tasks[m] == Ensure(StatefulSetFor(cr, d, version))
    ensures env(i + m).status.readyReplicas == d.size
    ensures env(i + m).status.currentRevision == env(i + m).status.updateRevision
  {
    assert Ensure(StatefulSetFor(cr, d, version)) in tasks;
    m :| 0 <= m < |tasks| && tasks[m] == Ensure(StatefulSetFor(cr, d, version));
    assert Passed(tasks[m], env(i + m));
  }

  /** The general theorem for one custom resource. */
  lemma AllOfItIsDone(cr: CR, w: World, env: Env)
    requires DistinctNames(cr) && Agrees(w, Keys(cr)) && Pass(PlanOf(cr), w, env).outcome == CLEAN
    ensures var version := PassVersion(PlanOf(cr), w, env);
            && AllDone(Pass(PlanOf(cr), w, env).world, PassWants(PlanOf(cr), version))
            && AllPassed(Post(cr, version), env, 2 + |Pre(cr)|)
  {
    OneHashPerKey(cr);
    forall version: string ensures KeysOf(PassWants(PlanOf(cr), version)) <= Keys(cr) {
      KeysDoNotDependOnVersion(cr, version);
    }
    hide Pass, PassVersion, Agrees, Keys, OneKeyPerHash, AllDone, AllPassed, DistinctNames, Post, Pre, SourceOf,
        PassWants, KeysOf;
    CleanPassMeansDone(PlanOf(cr), w, env, Keys(cr));
  }

  /** After a clean pass over a cluster, tenant or standalone its service, its config maps, and each
      component's StatefulSet, disruption budget and pod services are there as asked for; and in that
      pass the StatefulSet was read with all replicas ready at one revision. */
  lemma CleanPassMeansUp(cr: CR, w: World, env: Env, d: Deployment) returns (m: nat)
    requires DistinctNames(cr) && Agrees(w, Keys(cr)) && d in Components(cr)
    requires Pass(PlanOf(cr), w, env).outcome == CLEAN
    ensures var v, version := Pass(PlanOf(cr), w, env).world, PassVersion(PlanOf(cr), w, env);
            && Done(v, ClusterService(cr))
            && (forall n :: n in Namespaces(cr) ==>
                  Done(v, HbaseConfigMap(cr.config, n)) && Done(v, HadoopConfigMap(cr.config, n)))
            && (forall x :: WorkloadWant(cr, d, version, x) || PodWant(cr, d, x) ==> Done(v, x))
            && m < |Post(cr, version)| && Post(cr, version)[m] == Ensure(StatefulSetFor(cr, d, version))
            && env(2 + |Pre(cr)| + m).status.readyReplicas == d.size
            && env(2 + |Pre(cr)| + m).status.currentRevision == env(2 + |Pre(cr)| + m).status.updateRevision
  {
    hide Pass, PassVersion, Agrees, Keys, AllPassed, DistinctNames, Post, Pre, PassWants, SourceOf, WorkloadWant,
        PodWant,
      StatefulSetFor, ClusterService, ConfigMapFor, Components, Namespaces, Done;
    var version := PassVersion(PlanOf(cr), w, env);
    AllOfItIsDone(cr, w, env);
    EverythingWanted(cr, d, version);
    m := SetIsReady(cr, d, version, Post(cr, version), env, 2 + |Pre(cr)|);
  }

  lemma EverythingWanted(cr: CR, d: Deployment, version: string)
    requires d in Components(cr)
    ensures var xs := PassWants(PlanOf(cr), version);
            && ClusterService(cr) in xs
            && (forall n :: n in Namespaces(cr) ==>
                HbaseConfigMap(cr.config, n) in xs && HadoopConfigMap(cr.config, n) in xs)
            && (forall x :: WorkloadWant(cr, d, version, x) || PodWant(cr, d, x) ==> x in xs)
            && StatefulSetFor(cr, d, version) in Wants(Post(cr, version))
  {
    PreWantsAre(cr);
    PostWantsAre(cr, version);
    assert WorkloadWant(cr, d, version, StatefulSetFor(cr, d, version));
    hide StatefulSetFor, ConfigMapFor, ClusterService, PdbFor, PodService, PodWant, WorkloadWant, Post, Pre;
    forall n | n in Namespaces(cr)
      ensures HbaseConfigMap(cr.config, n) in PassWants(PlanOf(cr), version)
      ensures HadoopConfigMap(cr.config, n) in PassWants(PlanOf(cr), version)
    {
      var i :| 0 <= i < |Namespaces(cr)| && Namespaces(cr)[i] == n;
    }
  }

  // ---------- edits of configuration files ----------

  /** The same custom resource with other configuration files. */
  predicate OtherFiles(a: CR, b: CR) {
    b == a.(config := b.config)
    && b.config == a.config.(hbase := b.config.hbase, hadoop := b.config.hadoop,
                             hbaseOverrides := b.config.hbaseOverrides, hadoopOverrides := b.config.hadoopOverrides)
  }

  lemma FilesDoNotReachPods(a: CR, b: CR, d: Deployment, version: string)
    requires OtherFiles(a, b)
    ensures StatefulSetFor(a, d, version) == StatefulSetFor(b, d, version)
    ensures d.pdb.Some? ==> PdbFor(a, d) == PdbFor(b, d)
    ensures Components(a) == Components(b) && ClusterService(a) == ClusterService(b) && SourceOf(a) == SourceOf(b)
    ensures forall i: nat :: PodService(a, d, i) == PodService(b, d, i)
  {
    assert Volumes(a.config, d) == Volumes(b.config, d);
  }

  /** Besides config maps both ask for the same objects with the same content. */
  lemma FilesOnlyReachConfig(a: CR, b: CR, version: string)
    requires OtherFiles(a, b)
    ensures RestWants(PlanOf(a), version) <= RestWants(PlanOf(b), version)
  {
    forall x | x in RestWants(PlanOf(a), version) ensures x in RestWants(PlanOf(b), version) {
      RestIs(a, version, x);
      RestIs(b, version, x);
      hide RestWants;
      if ComponentWant(a, version, x) {
        var d :| d in Components(a) && (WorkloadWant(a, d, version, x) || PodWant(a, d, x));
        FilesDoNotReachPods(a, b, d, version);
        assert WorkloadWant(b, d, version, x) || PodWant(b, d, x);
      } else {
        FilesDoNotReachPods(a, b, a.main, version);
      }
    }
  }

  lemma RestIs(cr: CR, version: string, x: Want)
    ensures x in RestWants(PlanOf(cr), version) <==> x == ClusterService(cr) || ComponentWant(cr, version, x)
  {
    PreWantsAre(cr);
    PostWantsAre(cr, version);
    KindOfWants(cr, version, x);
    if x in Wants(Pre(cr)) && x != ClusterService(cr) {
      assert x.key.kind.ConfigMapKind?;
    }
  }

  /** Edits of the files, over this custom resource, whose label does not ask for restarts. */
  ghost predicate EditsFiles(m: Move, cr: CR) {
    m.Reconciled? && VersionReadable(m.plan, m.env) &&
    exists b :: OtherFiles(cr, b) && Unstamped(b) && m.plan == PlanOf(b)
  }

  /** Once the services, StatefulSets and disruption budgets of a cluster or tenant whose label is
      neither true nor yes are settled, however often its configuration files are edited and
      whatever fails, every later pass writes config maps only, and nothing else changes. */
  lemma FileEditsLeavePodsAlone(cr: CR, w: World, moves: seq<Move>)
    requires WellFormed(cr) && RolloutLabel(cr) !in {Some("true"), Some("yes")} && !cr.flavour.Standalone?
    requires Settled(w, RestWants(PlanOf(cr), StampOf(w, StatefulSetKey(cr, cr.main))))
    requires forall m :: m in moves ==> EditsFiles(m, cr)
    ensures SameButConfig(w, Run(w, moves))
    ensures forall j :: 0 <= j < |moves| ==>
      moves[j].Reconciled? && OnlyConfigWrites(Pass(moves[j].plan, Run(w, moves[..j]), moves[j].env).writes)
  {
    hide PlanOf, RestWants, WellFormed, OtherFiles, Pass, SourceOf;
    var k := StatefulSetKey(cr, cr.main);
    var rest := RestWants(PlanOf(cr), StampOf(w, k));
    forall m | m in moves ensures KeepsRest(m, k, StampOf(w, k), rest) {
      FileEditKeepsRest(m, cr, StampOf(w, k));
    }
    RestHasNoConfig(PlanOf(cr), StampOf(w, k));
    ConfigOnlyNonInterference(w, moves, k, rest);
    forall j | 0 <= j < |moves|
      ensures moves[j].Reconciled? && OnlyConfigWrites(Pass(moves[j].plan, Run(w, moves[..j]), moves[j].env).writes)
    {
      assert moves[j] in moves;
      ConfigOnlyWrites(w, moves, j, k, rest);
    }
  }

  lemma RestHasNoConfig(p: Plan, version: string)
    ensures forall x :: x in RestWants(p, version) ==> !x.key.kind.ConfigMapKind?
  {
  }

  lemma FileEditKeepsRest(m: Move, cr: CR, version: string)
    requires EditsFiles(m, cr) && RolloutLabel(cr) !in {Some("true"), Some("yes")} && !cr.flavour.Standalone?
    ensures KeepsRest(m, StatefulSetKey(cr, cr.main), version, RestWants(PlanOf(cr), version))
  {
    LabelDecides(cr);
    hide RolloutLabel, Rolling;
    var b :| OtherFiles(cr, b) && Unstamped(b) && m.plan == PlanOf(b);
    PlanIsSound(b);
    hide RestWants;
    FilesOnlyReachConfig(b, cr, version);
    FilesDoNotReachPods(cr, b, cr.main, version);
  }

  // ---------- upgrades ----------

  /** A restart, or a pass over the custom resource with whatever service labels. */
  ghost predicate AnyLabel(m: Move, cr: CR) {
    m.Reconciled? ==> exists labels ::
        m.plan == PlanOf(cr.(serviceLabels := labels)) && WellFormed(cr.(serviceLabels := labels))
  }

  lemma ConfigMapApart(cr: CR, version: string)
    requires WellFormed(cr)
    ensures Rollout.Apart({HbaseConfigMap(cr.config, cr.namespace)}, PassWants(PlanOf(cr), version))
  {
    var x := HbaseConfigMap(cr.config, cr.namespace);
    WellFormedPlan(cr);
    forall y | y in PassWants(PlanOf(cr), version) && HashKey(x.key) == HashKey(y.key) ensures x == y {
      KindsNeverCollide(x.key, y.key);
      PassWantsAre(cr, version, y);
      KindOfWants(cr, version, y);
      hide PassWants, HashKey, ConfigWant;
      assert ConfigWant(cr, y);
      ConfigNamespaces(cr, y);
      ConfigWantsApart(cr, x, y);
    }
  }

  lemma ConfigNamespaces(cr: CR, y: Want)
    requires ConfigWant(cr, y)
    ensures ConfigWant(cr, HbaseConfigMap(cr.config, cr.namespace))
  {
    if cr.flavour.Cluster? {
      RollingWritesConfig(cr);
    }
    assert cr.namespace in Namespaces(cr);
  }

  lemma LabelledMoveUpgrades(m: Move, cr: CR)
    requires m.Reconciled? && AnyLabel(m, cr) && !cr.flavour.Standalone?
    ensures Upgrades(m, {HbaseConfigMap(cr.config, cr.namespace)}, SetKeys(cr))
  {
    MainIsWanted(cr, "");
    var labels :| m.plan == PlanOf(cr.(serviceLabels := labels)) && WellFormed(cr.(serviceLabels := labels));
    var b := cr.(serviceLabels := labels);
    var x := HbaseConfigMap(cr.config, cr.namespace);
    WellFormedPlan(b);
    forall version: string ensures Rollout.Apart({x}, PassWants(m.plan, version)) {
      ConfigMapApart(b, version);
    }
    if Rolling(b) {
      RollingWritesConfig(b);
      HbaseConfigIsWanted(b);
      assert x in Wants(m.plan.pre) && x.key == m.plan.source.key;
    }
  }

  /** The StatefulSets of all components. */
  function SetKeys(cr: CR): set<Key> {
    set d <- Components(cr) :: StatefulSetKey(cr, d)
  }

  /** A freshly started operator that finds the StatefulSets of a cluster or tenant unversioned puts
      a version on none of them in any number of passes, whatever the label is and however it
      changes: its updates of the HBase ConfigMap leave out the annotation. */
  lemma UpgradesDoNotVersion(cr: CR, w: World, moves: seq<Move>)
    requires !cr.flavour.Standalone? && w.hashes == map[]
    requires forall k :: k in SetKeys(cr) ==> StampOf(w, k) == ""
    requires forall m :: m in moves ==> AnyLabel(m, cr)
    ensures forall k :: k in SetKeys(cr) ==> StampOf(Run(w, moves), k) == ""
  {
    var cms, sets := {HbaseConfigMap(cr.config, cr.namespace)}, SetKeys(cr);
    forall m | m in moves ensures Upgrades(m, cms, sets) {
      if m.Reconciled? {
        LabelledMoveUpgrades(m, cr);
      }
    }
    UpgradeSafety(w, moves, cms, sets);
  }

  /** Over such a run the HBase ConfigMap is updated at most once, and at most once more for each
      further restart. */
  lemma OneUpdatePerStart(cr: CR, w: World, moves: seq<Move>)
    requires !cr.flavour.Standalone? && w.hashes == map[]
    requires forall m :: m in moves ==> AnyLabel(m, cr)
    ensures Updates(RunWrites(w, moves), HbaseConfigMap(cr.config, cr.namespace).key) <= 1 + Restarts(moves)
  {
    var x := HbaseConfigMap(cr.config, cr.namespace);
    forall m | m in moves ensures Upgrades(m, {x}, SetKeys(cr)) {
      if m.Reconciled? {
        LabelledMoveUpgrades(m, cr);
      }
    }
    hide Upgrades, AnyLabel, RunWrites, Run;
    UpdatesAreCounted(w, moves, {x}, SetKeys(cr), x);
  }

  // ---------- changes of the configuration ----------

  lemma RollingTracks(cr: CR)
    requires WellFormed(cr) && Rolling(cr) && !cr.flavour.Standalone?
    ensures Tracks(PlanOf(cr), HbaseConfigMap(cr.config, cr.namespace))
  {
    WellFormedPlan(cr);
    RollingWritesConfig(cr);
    HbaseConfigIsWanted(cr);
  }

  /** With the label true or yes, once the HBase ConfigMap's digest is remembered, a change of its
      data is followed by no clean pass until the ConfigMap has been rewritten; from a state without
      clashes with other objects, after the next clean pass the StatefulSet of every component is
      as wanted and carries exactly the resource version of the rewritten ConfigMap. */
  lemma ChangeReachesEveryComponent(cr: CR, w: World, envs: Envs, n: nat, d: Deployment)
    requires WellFormed(cr) && RolloutLabel(cr) in {Some("true"), Some("yes")} && !cr.flavour.Standalone?
    requires d in Components(cr)
    requires Agrees(w, Keys(cr)) && Changed(w, HbaseConfigMap(cr.config, cr.namespace))
    requires VersionReadable(PlanOf(cr), envs(n))
    requires Pass(PlanOf(cr), WorldAt(PlanOf(cr), w, envs, n), envs(n)).outcome == CLEAN
    ensures var v, x := WorldAt(PlanOf(cr), w, envs, n), HbaseConfigMap(cr.config, cr.namespace);
            && Rewritten(v, x)
            && Done(WorldAt(PlanOf(cr), w, envs, n + 1), StatefulSetFor(cr, d, v.objects[x.key].version))
  {
    LabelDecides(cr);
    hide RolloutLabel, Rolling;
    var p, x := PlanOf(cr), HbaseConfigMap(cr.config, cr.namespace);
    var v := WorldAt(p, w, envs, n);
    var version := PassVersion(p, v, envs(n));
    var s := StatefulSetFor(cr, d, version);
    RollingTracks(cr);
    OneHashPerKey(cr);
    forall u: string ensures KeysOf(PassWants(p, u)) <= Keys(cr) {
      KeysDoNotDependOnVersion(cr, u);
    }
    PostWantsAre(cr, version);
    assert WorkloadWant(cr, d, version, s);
    hide Pass, PassVersion, WorldAt, Tracks, WellFormed, Agrees, Changed, Rewritten, Keys;
    ChangePropagates(p, w, envs, x, n, Keys(cr), s);
    PassAfterRewrite(p, v, envs(n), x);
  }

  /** And no StatefulSet or disruption budget is touched before the ConfigMap is rewritten. */
  lemma NothingRestartsBeforeTheRewrite(cr: CR, w: World, envs: Envs, n: nat)
    requires WellFormed(cr) && RolloutLabel(cr) in {Some("true"), Some("yes")} && !cr.flavour.Standalone?
    requires Changed(w, HbaseConfigMap(cr.config, cr.namespace))
    ensures var v := WorldAt(PlanOf(cr), w, envs, n);
            SameGated(w, v) || Rewritten(v, HbaseConfigMap(cr.config, cr.namespace))
  {
    LabelDecides(cr);
    hide RolloutLabel, Rolling;
    RollingTracks(cr);
    RewriteComesFirst(PlanOf(cr), w, envs, HbaseConfigMap(cr.config, cr.namespace), n);
  }

  // ---------- restarts ----------

  /** A cluster or tenant whose label is true or yes and whose HBase ConfigMap carries the update-time
      annotation. */
  predicate LosesVersion(cr: CR, w: World) {
    && !cr.flavour.Standalone? && RolloutLabel(cr) in {Some("true"), Some("yes")}
    && AnnotatedVersion(w, HbaseConfigMap(cr.config, cr.namespace).key) != ""
  }

  /** Restarting the operator once a custom resource is settled changes the content of no object, in
      any run of restarts and of its passes, if and only if it is a standalone, its label is neither
      true nor yes, or its HBase ConfigMap does not carry the update-time annotation. */
  lemma RestartIsHarmlessIff(cr: CR, w: World, env: Env)
    requires WellFormed(cr)
    requires Settled(w, PassWants(PlanOf(cr), SteadyVersion(SourceOf(cr), w))) && Agrees(w, Keys(cr))
    requires Smooth(PlanOf(cr), env)
    ensures (forall moves: seq<Move> :: Over(PlanOf(cr), moves) ==> SameContents(w, Run(w, moves)))
       <==> !LosesVersion(cr, w)
  {
    LabelDecides(cr);
    hide RolloutLabel, Rolling;
    var p, s := PlanOf(cr), StatefulSetKey(cr, cr.main);
    WellFormedPlan(cr);
    OneHashPerKey(cr);
    if !cr.flavour.Standalone? && Rolling(cr) {
      RollingTracks(cr);
      assert HbaseConfigMap(cr.config, cr.namespace) in VersionWants(p);
    }
    forall u: string ensures KeysOf(PassWants(p, u)) <= Keys(cr) && s in KeysOf(Wants(p.post(u))) {
      KeysDoNotDependOnVersion(cr, u);
      MainIsWanted(cr, u);
    }
    hide WellFormed, Smooth, Settled, Agrees, Keys, SameContents, Over, Post, Pre, Sound, WellNamed;
    RestartSafeIff(p, w, env, Keys(cr), s);
  }

  // ---------- where versions come from ----------

  /** A restart, a pass of a cluster or tenant with its main StatefulSet and HBase ConfigMap among
      these, or a pass of a custom resource that has none of these StatefulSets. */
  ghost predicate Versioned(m: Move, sets: set<Key>, configs: set<Key>) {
    m.Reconciled? ==> exists cr ::
        m.plan == PlanOf(cr) && Unstamped(cr) && (HasNone(cr, sets) || Sources(cr, sets, configs))
  }

  ghost predicate HasNone(cr: CR, sets: set<Key>) {
    SetKeys(cr) !! sets
  }

  ghost predicate Sources(cr: CR, sets: set<Key>, configs: set<Key>) {
    && !cr.flavour.Standalone?
    && StatefulSetKey(cr, cr.main) in sets
    && HbaseConfigMap(cr.config, cr.namespace).key in configs
  }

  lemma SetKeyOfPost(cr: CR, version: string, x: Want)
    requires x in Wants(Post(cr, version)) && x.key.kind.StatefulSetKind?
    ensures x.key in SetKeys(cr)
  {
    PostWantsAre(cr, version);
    KindOfWants(cr, version, x);
    hide Components;
    var d :| d in Components(cr) && (WorkloadWant(cr, d, version, x) || PodWant(cr, d, x));
    PodKind(cr, d, version, x);
    assert StatefulSetKey(cr, d) in SetKeys(cr);
  }

  lemma VersionedMove(m: Move, sets: set<Key>, configs: set<Key>)
    requires Versioned(m, sets, configs) && forall k :: k in sets ==> k.kind.StatefulSetKind?
    ensures Versions(m, sets, configs)
  {
    if m.Reconciled? {
      var cr :| m.plan == PlanOf(cr) && Unstamped(cr) && (HasNone(cr, sets) || Sources(cr, sets, configs));
      PlanIsSound(cr);
      hide Post, SetKeys, Unstamped;
      if HasNone(cr, sets) {
        forall version: string, x | x in Wants(m.plan.post(version)) ensures x.key !in sets {
          if x.key.kind.StatefulSetKind? {
            SetKeyOfPost(cr, version, x);
          }
        }
      }
    }
  }

  /** Whatever happens to labels, custom resources, the operator and the API server: every config
      version on one of these StatefulSets was, at some earlier moment, the resource version of one
      of these HBase ConfigMaps while it carried the update-time annotation. */
  lemma EveryVersionHasAPast(w: World, moves: seq<Move>, sets: set<Key>, configs: set<Key>)
    requires forall k :: k in sets ==> k.kind.StatefulSetKind? && StampOf(w, k) == ""
    requires forall m :: m in moves ==> Versioned(m, sets, configs)
    ensures Accountable(w, moves, sets, configs)
  {
    forall m | m in moves ensures Versions(m, sets, configs) {
      VersionedMove(m, sets, configs);
    }
    VersionProvenance(w, moves, sets, configs);
  }

  // ---------- concurrent passes ----------

  /** Passes of custom resources none of whose objects share a hash key, however their reads, writes
      and hash store accesses interleave, end in the same API server, hash store and outcomes as
      one after the other. */
  lemma ResourcesAreSerializable(crs: seq<CR>, envs: seq<Env>, w: World, schedule: seq<nat>)
    requires |envs| == |crs|
    requires forall i, j, k, l ::
        0 <= i < |crs| && 0 <= j < |crs| && i != j && k in Keys(crs[i]) && l in Keys(crs[j]) ==>
               HashKey(k) != HashKey(l)
    requires Interleaving.Finished(Interleaving.Exec(Interleaving.System(Interleaving.Starts(PlansOf(crs), envs), w),
        schedule))
    ensures Interleaving.Sequential(
      Interleaving.Exec(Interleaving.System(Interleaving.Starts(PlansOf(crs), envs), w), schedule), PlansOf(crs),
          envs, w, |crs|)
  {
    var feet := seq(|crs|, j requires 0 <= j < |crs| => Keys(crs[j]));
    forall j | 0 <= j < |feet| ensures Interleaving.Owns(feet[j], PlansOf(crs)[j]) {
      SourceIsOwn(crs[j]);
      forall version: string ensures KeysOf(PassWants(PlansOf(crs)[j], version)) <= feet[j] {
        KeysDoNotDependOnVersion(crs[j], version);
      }
    }
    hide Keys, PlanOf;
    Interleaving.Serializable(PlansOf(crs), envs, w, feet, schedule);
  }

  // ---------- what passes do not notice ----------

  lemma SameWithOtherLabels(cr: CR, labels: Option<Labels>, d: Deployment, version: string, x: Want)
    ensures var b := cr.(serviceLabels := labels);
            && Components(b) == Components(cr)
            && (WorkloadWant(b, d, version, x) <==> WorkloadWant(cr, d, version, x))
            && (PodWant(b, d, x) <==> PodWant(cr, d, x))
  {
    var b := cr.(serviceLabels := labels);
    assert StatefulSetFor(b, d, version) == StatefulSetFor(cr, d, version);
    assert forall i: nat :: PodService(b, d, i) == PodService(cr, d, i);
  }

  /** Only the cluster service differs, and only in its labels, which are outside its hash. */
  lemma LabelsAreNotHashed(cr: CR, labels: Option<Labels>, version: string, x: Want)
    requires var b := cr.(serviceLabels := labels);
             Namespaces(b) == Namespaces(cr) && x in PassWants(PlanOf(b), version)
    ensures exists y :: y in PassWants(PlanOf(cr), version) && y.key == x.key && y.content == x.content
  {
    var b := cr.(serviceLabels := labels);
    PassWantsAre(b, version, x);
    PreWantsAre(cr);
    PostWantsAre(cr, version);
    if x == ClusterService(b) {
      assert ClusterService(cr) in PassWants(PlanOf(cr), version);
    } else {
      hide StatefulSetFor, PdbFor, PodService, Components, ClusterService, ConfigMapFor, Namespaces;
      if ConfigWant(b, x) {
        var n :| n in Namespaces(b) && (x == HbaseConfigMap(b.config, n) || x == HadoopConfigMap(b.config, n));
        var i :| 0 <= i < |Namespaces(cr)| && Namespaces(cr)[i] == n;
      } else {
        var d :| d in Components(b) && (WorkloadWant(b, d, version, x) || PodWant(b, d, x));
        SameWithOtherLabels(cr, labels, d, version, x);
      }
      assert x in PassWants(PlanOf(cr), version);
    }
  }

  /** So a pass after an edit of the service labels that leaves the rollout mode as it is writes
      nothing, if the custom resource was settled before the edit. */
  lemma LabelEditsAreNotWritten(cr: CR, labels: Option<Labels>, w: World, env: Env)
    requires var b := cr.(serviceLabels := labels);
             && Namespaces(b) == Namespaces(cr)
             && (RolloutLabel(b) in {Some("true"), Some("yes")} <==> RolloutLabel(cr) in {Some("true"), Some("yes")})
    requires Unstamped(cr) && Settled(w, PassWants(PlanOf(cr), SteadyVersion(SourceOf(cr), w)))
    requires VersionReadable(PlanOf(cr.(serviceLabels := labels)), env)
    ensures Pass(PlanOf(cr.(serviceLabels := labels)), w, env).writes == []
  {
    LabelDecides(cr);
    LabelDecides(cr.(serviceLabels := labels));
    hide RolloutLabel, Rolling, Namespaces;
    var b := cr.(serviceLabels := labels);
    var version := SteadyVersion(SourceOf(cr), w);
    PlanIsSound(b);
    forall x | x in PassWants(PlanOf(b), version) ensures x.key in w.objects && !Stale(w, x) {
      LabelsAreNotHashed(cr, labels, version, x);
    }
    assert SourceOf(b) == SourceOf(cr);
    hide Pass, Pre, Post;
    SettledPassWritesNothing(PlanOf(b), w, env);
  }
}
