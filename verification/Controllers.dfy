/** What the general theorems say about clusters, tenants and standalones. */
module Controllers {
  import opened Kube
  import opened Resources
  import opened Protocol
  import opened TaskFacts
  import opened Passes
  import opened Plans
  import opened Names
  import opened Agreement
  import opened Convergence
  import opened Staging

  /** What the theorems below ask of a custom resource: its components have distinct names, which
      do not lead to clashing hash keys, and bring no config-version annotation of their own. */
  ghost predicate WellFormed(cr: CR) {
    DistinctNames(cr) && Unstamped(cr)
  }

  lemma WellFormedPlan(cr: CR)
    requires WellFormed(cr)
    ensures Sound(PlanOf(cr)) && WellNamed(PlanOf(cr))
  {
    PlanIsSound(cr);
    DistinctNamesSuffice(cr);
  }

  // ---------- the rollout label ----------

  /** The value of the rollout label, if there is one. */
  function RolloutLabel(cr: CR): Option<string> {
    if cr.serviceLabels.Some? && "hbase-operator.cfg-statefulset-update/enable" in cr.serviceLabels.value
    then Some(cr.serviceLabels.value["hbase-operator.cfg-statefulset-update/enable"])
    else None
  }

  /** Pods are restarted for true and yes; a tenant's config maps are written for config-only, too. */
  lemma LabelDecides(cr: CR)
    ensures Rolling(cr) <==> RolloutLabel(cr) in {Some("true"), Some("yes")}
    ensures cr.flavour.Tenant? ==>
      Namespaces(cr) ==
        if RolloutLabel(cr) in {Some("config-only"), Some("true"), Some("yes")} then [cr.namespace] else []
  {
  }

  // ---------- the objects of a custom resource ----------

  /** The same custom resource with other service labels. */
  function WithLabels(cr: CR, labels: Option<Labels>): CR {
    cr.(serviceLabels := labels)
  }

  ghost function Keys(cr: CR): set<Key> {
    KeysOf(PassWants(PlanOf(cr), ""))
  }

  /** The version changes what is asked for, but not of which objects. */
  lemma KeysDoNotDependOnVersion(cr: CR, version: string)
    ensures KeysOf(PassWants(PlanOf(cr), version)) == Keys(cr)
  {
    KeysWithin(cr, version, "");
    KeysWithin(cr, "", version);
  }

  lemma KeysWithin(cr: CR, v: string, u: string)
    ensures KeysOf(PassWants(PlanOf(cr), v)) <= KeysOf(PassWants(PlanOf(cr), u))
  {
    PostWantsAre(cr, v);
    PostWantsAre(cr, u);
    forall x | x in Wants(Post(cr, v)) ensures x.key in KeysOf(Wants(Post(cr, u))) {
      if !(x == ClusterService(cr) && cr.flavour.Tenant?) {
        var d :| d in Components(cr) && (WorkloadWant(cr, d, v, x) || PodWant(cr, d, x));
        var y := if x == StatefulSetFor(cr, d, v) then StatefulSetFor(cr, d, u) else x;
        assert WorkloadWant(cr, d, u, y) || PodWant(cr, d, y);
        assert y in Wants(Post(cr, u)) && y.key == x.key;
      }
    }
  }

  lemma OneHashPerKey(cr: CR)
    requires DistinctNames(cr)
    ensures OneKeyPerHash(Keys(cr))
  {
    DistinctNamesSuffice(cr);
    assert Consistent(PassWants(PlanOf(cr), ""));
  }

  lemma HbaseConfigIsWanted(cr: CR)
    requires cr.namespace in Namespaces(cr)
    ensures HbaseConfigMap(cr.config, cr.namespace) in ConfigWants(PlanOf(cr))
  {
    PreWantsAre(cr);
    var i :| 0 <= i < |Namespaces(cr)| && Namespaces(cr)[i] == cr.namespace;
  }

  lemma RollingWritesConfig(cr: CR)
    requires Rolling(cr) || !cr.flavour.Tenant?
    ensures cr.namespace in Namespaces(cr)
  {
    if cr.flavour.Cluster? {
      assert Namespaces(cr)[|cr.flavour.tenantNamespaces|] == cr.namespace;
    }
  }

  /** Where the version is looked for is among the custom resource's own objects. */
  lemma SourceIsOwn(cr: CR)
    ensures PlanOf(cr).source.key in Keys(cr)
  {
    MainIsWanted(cr, "");
    if SourceOf(cr).FromConfigMap? {
      RollingWritesConfig(cr);
      HbaseConfigIsWanted(cr);
      assert HbaseConfigMap(cr.config, cr.namespace) in PassWants(PlanOf(cr), "");
    } else if SourceOf(cr).FromCreate? {
      PreWantsAre(cr);
      assert Namespaces(cr)[0] == cr.namespace;
      assert HadoopConfigMap(cr.config, cr.namespace) in PassWants(PlanOf(cr), "");
    } else {
      assert StatefulSetFor(cr, cr.main, "") in PassWants(PlanOf(cr), "");
    }
  }

  function PlansOf(crs: seq<CR>): seq<Plan> {
    seq(|crs|, j requires 0 <= j < |crs| => PlanOf(crs[j]))
  }

  // ---------- convergence ----------

  /** Whatever fails and whatever the statuses are, a custom resource is eventually left alone;
      and once nothing fails any more and everything is ready, its passes end up clean. */
  lemma ResourceConverges(cr: CR, w: World, envs: Envs, from: nat) returns (n: nat)
    requires WellFormed(cr) && AlwaysReadable(PlanOf(cr), envs)
    ensures from <= n
    ensures forall m :: n <= m ==> Pass(PlanOf(cr), WorldAt(PlanOf(cr), w, envs, m), envs(m)).writes == []
    ensures (forall m :: from <= m ==> Smooth(PlanOf(cr), envs(m))) ==>
      forall m :: n <= m ==> Pass(PlanOf(cr), WorldAt(PlanOf(cr), w, envs, m), envs(m)).outcome == CLEAN
  {
    hide Pass, Smooth, PlanOf, WellFormed, AlwaysReadable;
    WellFormedPlan(cr);
    n := EventuallyQuiet(PlanOf(cr), w, envs, from);
    forall m | n <= m
      ensures Pass(PlanOf(cr), WorldAt(PlanOf(cr), w, envs, m), envs(m)).writes == []
      ensures Smooth(PlanOf(cr), envs(m)) ==>
          Pass(PlanOf(cr), WorldAt(PlanOf(cr), w, envs, m), envs(m)).outcome == CLEAN
    {
      assert !Writes(PlanOf(cr), w, envs, m);
      if Smooth(PlanOf(cr), envs(m)) {
        SmoothPassWritesOrIsClean(PlanOf(cr), WorldAt(PlanOf(cr), w, envs, m), envs(m));
      }
    }
  }

  // ---------- staged bring-up ----------

  function Order(cr: CR, ds: seq<Deployment>): seq<Key> {
    if ds == [] then [] else [StatefulSetKey(cr, ds[0])] + Order(cr, ds[1..])
  }

  lemma {:induction false} NoSetsAmong(tasks: seq<Task>)
    requires forall x :: x in Wants(tasks) ==> !x.key.kind.StatefulSetKind?
    ensures SetsOf(tasks) == []
    decreases |tasks|
  {
    if tasks != [] {
      WantsOfTail(tasks);
      NoSetsAmong(tasks[1..]);
    }
  }

  lemma SetsOfWorkload(cr: CR, d: Deployment, version: string)
    ensures SetsOf(WorkloadTasks(cr, d, version)) == [StatefulSetKey(cr, d)]
  {
    var tasks := WorkloadTasks(cr, d, version);
    assert tasks[1..][1..] == PdbTasks(cr, d);
    assert tasks[0] == Check(ValidVolumes(d)) && tasks[1..][0] == Ensure(StatefulSetFor(cr, d, version));
    NoSetsAmong(PdbTasks(cr, d));
    hide ValidVolumes, PdbTasks;
    assert SetsOf(tasks[1..]) == [StatefulSetKey(cr, d)];
  }

  lemma SetsOfComponent(cr: CR, d: Deployment, version: string)
    ensures SetsOf(ComponentTasks(cr, d, version)) == [StatefulSetKey(cr, d)]
  {
    var pods := if cr.flavour.Cluster? && d.podServiceRequired then PodTasks(cr, d, 0) else [];
    PodTasksAre(cr, d, 0);
    NoSetsAmong(pods);
    SetsOfWorkload(cr, d, version);
    SetsOfConcat(pods, WorkloadTasks(cr, d, version));
  }

  lemma {:induction false} SetsOfComponents(cr: CR, ds: seq<Deployment>, version: string)
    ensures SetsOf(AllComponentTasks(cr, ds, version)) == Order(cr, ds)
    decreases |ds|
  {
    hide ComponentTasks, StatefulSetKey;
    if ds != [] {
      SetsOfComponent(cr, ds[0], version);
      SetsOfComponents(cr, ds[1..], version);
      SetsOfConcat(ComponentTasks(cr, ds[0], version), AllComponentTasks(cr, ds[1..], version));
    }
  }

  lemma SetsOfPost(cr: CR, version: string)
    ensures SetsOf(Post(cr, version)) == Order(cr, Components(cr))
  {
    hide SetsOf, AllComponentTasks, Components, Order;
    var head := if cr.flavour.Tenant? then [Ensure(ClusterService(cr))] else [];
    NoSetsAmong(head);
    SetsOfComponents(cr, Components(cr), version);
    SetsOfConcat(head, AllComponentTasks(cr, Components(cr), version));
  }

  /** A pass brings up zookeeper, if it has a size, then journalnode, namenode, datanode, hmaster. */
  lemma BringUpOrder(cr: CR, version: string)
    ensures SetsOf(Post(cr, version)) == Order(cr, Components(cr))
    ensures cr.flavour.Cluster? ==>
      Order(cr, Components(cr)) ==
        (if cr.flavour.zookeeper.size != 0 then [StatefulSetKey(cr, cr.flavour.zookeeper)] else [])
        + [StatefulSetKey(cr, cr.flavour.journalnode), StatefulSetKey(cr, cr.flavour.namenode),
           StatefulSetKey(cr, cr.main), StatefulSetKey(cr, cr.flavour.hmaster)]
  {
    SetsOfPost(cr, version);
    OrderIs(cr, Components(cr));
    hide Order, SetsOf, Post, StatefulSetKey;
  }

  lemma {:induction false} OrderIs(cr: CR, ds: seq<Deployment>)
    ensures |Order(cr, ds)| == |ds|
    ensures forall i :: 0 <= i < |ds| ==> Order(cr, ds)[i] == StatefulSetKey(cr, ds[i])
    decreases |ds|
  {
    if ds != [] {
      OrderIs(cr, ds[1..]);
      assert forall i :: 0 < i < |ds| ==> ds[1..][i - 1] == ds[i];
    }
  }

  /** A restart, or a pass over a custom resource with this bring-up order or without any of these
      StatefulSets. */
  ghost predicate KeepsOrder(m: Move, order: seq<Key>) {
    m.Reconciled? ==>
      exists cr :: m.plan == PlanOf(cr) && Unstamped(cr) &&
        (Order(cr, Components(cr)) == order || forall k :: k in Order(cr, Components(cr)) ==> k !in order)
  }

  /** From a state with none of them, the StatefulSets of a custom resource that exist are, in every
      reachable state, the first ones in bring-up order: over edits of it that keep its components,
      passes of other custom resources, failures, restarts and all changes of status. */
  lemma ComponentsComeUpInOrder(cr: CR, w: World, moves: seq<Move>)
    requires DistinctNames(cr) && NoDuplicates(Components(cr))
    requires forall k :: k in Order(cr, Components(cr)) ==> k !in w.objects
    requires forall m :: m in moves ==> KeepsOrder(m, Order(cr, Components(cr)))
    ensures forall i, j ::
        0 <= i < j < |Components(cr)| && StatefulSetKey(cr, Components(cr)[j]) in Run(w, moves).objects ==>
              StatefulSetKey(cr, Components(cr)[i]) in Run(w, moves).objects
  {
    var ds := Components(cr);
    var order := Order(cr, ds);
    OrderIs(cr, ds);
    assert Distinct(order) by {
      forall i, j | 0 <= i < j < |order| ensures order[i] != order[j] {
        assert ds[i] in ds && ds[j] in ds;
      }
    }
    assert Prefix(w, order) by {
      assert forall j :: 0 <= j < |order| ==> order[j] in order;
    }
    forall m | m in moves ensures Stages(m, order) {
      if m.Reconciled? {
        MoveStages(m, order);
      }
    }
    StagedBringUp(w, moves, order);
    assert forall i, j :: 0 <= i < j < |order| && order[j] in Run(w, moves).objects ==>
        order[i] in Run(w, moves).objects;
  }

  ghost predicate NoDuplicates(ds: seq<Deployment>) {
    forall i, j :: 0 <= i < j < |ds| ==> ds[i] != ds[j]
  }

  lemma MoveStages(m: Move, order: seq<Key>)
    requires m.Reconciled? && KeepsOrder(m, order)
    ensures Stages(m, order)
  {
    var other :| m.plan == PlanOf(other) && Unstamped(other) &&
      (Order(other, Components(other)) == order || forall k :: k in Order(other, Components(other)) ==> k !in order);
    PlanIsSound(other);
    forall version: string
      ensures SetsOf(m.plan.post(version)) == order || forall k :: k in SetsOf(m.plan.post(version)) ==> k !in order
    {
      BringUpOrder(other, version);
    }
  }
}
