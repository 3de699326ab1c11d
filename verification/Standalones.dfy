/** The config version of a standalone: the resource version that its Hadoop ConfigMap got from
    this very pass's create, which is on no annotated ConfigMap and does not last. */
module Standalones {
  import opened Kube
  import opened Resources
  import opened Protocol
  import opened TaskFacts
  import opened Passes
  import opened Plans
  import opened Agreement
  import opened Convergence
  import opened Controllers

  function HadoopKey(cr: CR): Key {
    Key(ConfigMapKind, cr.namespace, cr.config.hadoopName)
  }

  /** The tasks before the Hadoop ConfigMap's. */
  function FirstTasks(cr: CR): seq<Task> {
    [Ensure(ClusterService(cr)), Check(ValidConfiguration(cr.config)), Ensure(HbaseConfigMap(cr.config, cr.namespace))]
  }

  lemma StandalonePre(cr: CR)
    requires cr.flavour.Standalone?
    ensures Pre(cr) == FirstTasks(cr) + [Ensure(HadoopConfigMap(cr.config, cr.namespace))]
  {
    assert Namespaces(cr)[1..] == [];
    assert ConfigTasks(cr.config, Namespaces(cr)) ==
      [Ensure(HbaseConfigMap(cr.config, cr.namespace)), Ensure(HadoopConfigMap(cr.config, cr.namespace))];
  }

  lemma FirstKeys(cr: CR)
    requires cr.config.hbaseName != cr.config.hadoopName
    ensures HadoopKey(cr) !in KeysOf(Wants(FirstTasks(cr)))
  {
  }

  lemma OtherKey(w: World, a: seq<Task>, env: Env, i: nat, k: Key)
    requires k !in KeysOf(Wants(a))
    ensures var e := RunTasks(w, a, env, i);
            (k in e.world.objects <==> k in w.objects) && CreatedVersion(e.writes, k) == ""
  {
    TasksAccounted(w, a, env, i);
    WritesAreWanted(w, a, env, i);
    hide RunTasks, Wants;
  }

  lemma OneTaskWrites(w: World, x: Want, env: Env, i: nat)
    requires !Gated(x.key.kind) && RunTasks(w, [Ensure(x)], env, i).outcome == CLEAN
    ensures RunTasks(w, [Ensure(x)], env, i).writes ==
              if x.key !in w.objects then [Created(x.key, env(i).version)] else []
  {
    assert [Ensure(x)][1..] == [];
    var e := Reconcile(w, x, env(i));
    assert e.writes + [] == e.writes;
  }

  /** The last task's write is the one the version comes from. */
  lemma LastCreate(w: World, a: seq<Task>, x: Want, env: Env, i: nat)
    requires x.key !in KeysOf(Wants(a)) && !Gated(x.key.kind)
    requires RunTasks(w, a + [Ensure(x)], env, i).outcome == CLEAN
    ensures CreatedVersion(RunTasks(w, a + [Ensure(x)], env, i).writes, x.key)
         == if x.key !in w.objects then env(i + |a|).version else ""
  {
    RunConcat(w, a, [Ensure(x)], env, i);
    OtherKey(w, a, env, i, x.key);
    hide RunTasks, Wants;
    var e := RunTasks(w, a, env, i);
    OneTaskWrites(e.world, x, env, i + |a|);
    assert e.writes + [] == e.writes;
  }

  /** A standalone's pass works with a version if and only if it has itself created the Hadoop
      ConfigMap, which is not the HBase one, and then with the resource version that the create
      handed out. */
  lemma StandaloneVersionIff(cr: CR, w: World, env: Env)
    requires cr.flavour.Standalone?
    ensures PassVersion(PlanOf(cr), w, env) ==
      if !env(0).getFails && RunTasks(w, Pre(cr), env, 1).outcome == CLEAN && HadoopKey(cr) !in w.objects
         && cr.config.hbaseName != cr.config.hadoopName
      then env(4).version else ""
  {
    StandalonePre(cr);
    assert HadoopConfigMap(cr.config, cr.namespace).key == HadoopKey(cr);
    assert |FirstTasks(cr)| == 3 && !Gated(HadoopKey(cr).kind);
    if cr.config.hbaseName != cr.config.hadoopName {
      FirstKeys(cr);
    }
    hide RunTasks, HadoopConfigMap, CreatedVersion, Pre, FirstTasks, KeysOf, Wants;
    if !env(0).getFails && RunTasks(w, Pre(cr), env, 1).outcome == CLEAN
      && cr.config.hbaseName != cr.config.hadoopName {
      LastCreate(w, FirstTasks(cr), HadoopConfigMap(cr.config, cr.namespace), env, 1);
    }
  }

  /** That ConfigMap does not carry the update-time annotation: a standalone's versions have no past
      like a cluster's or tenant's. */
  lemma StandaloneVersionHasNoPast(cr: CR, w: World, env: Env)
    requires cr.flavour.Standalone?
    requires PassVersion(PlanOf(cr), w, env) != ""
    ensures var v := RunTasks(w, Pre(cr), env, 1).world;
            && HadoopKey(cr) in v.objects && !v.objects[HadoopKey(cr)].annotated
            && AnnotatedVersion(w, HadoopKey(cr)) == ""
  {
    StandaloneVersionIff(cr, w, env);
    var x := HadoopConfigMap(cr.config, cr.namespace);
    PreWantsAre(cr);
    assert Namespaces(cr)[0] == cr.namespace;
    assert x in Wants(Pre(cr)) && x.key == HadoopKey(cr);
    CleanRunsOnlyAdd(w, Pre(cr), env, 1);
    CleanTasksAreThere(w, Pre(cr), env, 1, x);
  }

  lemma {:induction false} CleanTasksAreThere(w: World, tasks: seq<Task>, env: Env, i: nat, x: Want)
    requires RunTasks(w, tasks, env, i).outcome == CLEAN && x in Wants(tasks)
    ensures x.key in RunTasks(w, tasks, env, i).world.objects
    decreases |tasks|
  {
    WantsOfTail(tasks);
    var e := RunTask(w, tasks[0], env(i));
    if x in Wants(tasks[1..]) {
      CleanTasksAreThere(e.world, tasks[1..], env, i + 1, x);
    } else {
      assert Ensure(x) in tasks[..1] && tasks[0] == Ensure(x);
      CleanRunsOnlyAdd(e.world, tasks[1..], env, i + 1);
    }
  }

  /** And wherever passes over a standalone come to rest, its StatefulSet has no version: one that
      the first pass put on its pods has been taken off again. */
  lemma StandaloneRestsUnversioned(cr: CR, w: World, env: Env)
    requires WellFormed(cr) && cr.flavour.Standalone?
    requires Agrees(w, Keys(cr)) && Converged(PlanOf(cr), w, env)
    ensures StampOf(w, StatefulSetKey(cr, cr.main)) == ""
  {
    var x := StatefulSetFor(cr, cr.main, "");
    WellFormedPlan(cr);
    MainIsWanted(cr, "");
    assert x in PassWants(PlanOf(cr), "");
    ConvergedIsSettled(PlanOf(cr), w, env);
    assert cr.main in Components(cr);
    hide Converged, WellFormed, Pass, PlanOf, Keys;
    SettledIsDone(w, PassWants(PlanOf(cr), ""), Keys(cr));
    assert Done(w, x);
  }
}
