/** Which objects of its components a pass gets to, and what it has done for them before. */
module Reach {
  import opened Kube
  import opened Resources
  import opened Protocol
  import opened TaskFacts
  import opened Passes
  import opened Plans
  import opened Names
  import opened Agreement
  import opened Convergence
  import opened Staging
  import opened Controllers
  import opened Steps
  import opened Guarantees
  import opened Coverage

  // ---------- all of it, and nothing else ----------

  /** The object is there with this content. */
  predicate IsThere(w: World, kind: Kind, namespace: string, name: string, content: Content) {
    var k := Key(kind, namespace, name);
    k in w.objects && w.objects[k].content == content
  }

  /** After a clean pass the service is there, each component's StatefulSet, its disruption budget if it
      has one, and, in a cluster, a service for each of its pods if it asks for them. */
  lemma ComponentsAreThere(cr: CR, w: World, env: Env, d: Deployment)
    requires DistinctNames(cr) && Agrees(w, Keys(cr)) && IsComponent(cr, d)
    requires Pass(PlanOf(cr), w, env).outcome == Outcome(false, 0, false)
    ensures var v, version := Pass(PlanOf(cr), w, env).world, PassVersion(PlanOf(cr), w, env);
            && IsThere(v, ServiceKind, cr.namespace, cr.name, ClusterService(cr).content)
            && IsThere(v, StatefulSetKind, cr.namespace, d.name, StatefulSetFor(cr, d, version).content)
            && (d.pdb.Some? ==> IsThere(v, PdbKind, cr.namespace, d.name + "-pdb", PdbFor(cr, d).content))
            && (cr.flavour.Cluster? && d.podServiceRequired ==>
                  forall i: nat :: i < d.size ==>
                    IsThere(v, ServiceKind, cr.namespace, PodName(d.name, i), PodService(cr, d, i).content))
  {
    var v, version := Pass(PlanOf(cr), w, env).world, PassVersion(PlanOf(cr), w, env);
    ComponentsAre(cr);
    KeysOfComponent(cr, d, version);
    hide Pass, PassVersion, Agrees, Keys, DistinctNames, IsComponent, Components, StatefulSetFor, PdbFor, PodService,
      ClusterService;
    var m := CleanPassMeansUp(cr, w, env, d);
    assert WorkloadWant(cr, d, version, StatefulSetFor(cr, d, version));
    assert d.pdb.Some? ==> WorkloadWant(cr, d, version, PdbFor(cr, d));
    forall i: nat | cr.flavour.Cluster? && d.podServiceRequired && i < d.size
      ensures IsThere(v, ServiceKind, cr.namespace, PodName(d.name, i), PodService(cr, d, i).content)
    {
      assert PodWant(cr, d, PodService(cr, d, i));
    }
  }

  lemma KeysOfComponent(cr: CR, d: Deployment, version: string)
    ensures ClusterService(cr).key == Key(ServiceKind, cr.namespace, cr.name)
    ensures StatefulSetFor(cr, d, version).key == Key(StatefulSetKind, cr.namespace, d.name)
    ensures d.pdb.Some? ==> PdbFor(cr, d).key == Key(PdbKind, cr.namespace, d.name + "-pdb")
    ensures forall i: nat :: PodService(cr, d, i).key == Key(ServiceKind, cr.namespace, PodName(d.name, i))
  {
  }

  /** The key is that of an object of this component. */
  ghost predicate OfComponent(cr: CR, d: Deployment, k: Key) {
    || k == Key(StatefulSetKind, cr.namespace, d.name)
    || (d.pdb.Some? && k == Key(PdbKind, cr.namespace, d.name + "-pdb"))
    || (cr.flavour.Cluster? && d.podServiceRequired
        && exists i: nat :: i < d.size && k == Key(ServiceKind, cr.namespace, PodName(d.name, i)))
  }

  /** And no pass, clean or not, writes any other object, but for the config maps. */
  lemma WritesAreOwn(cr: CR, w: World, env: Env, i: nat)
    requires i < |Pass(PlanOf(cr), w, env).writes| && !Pass(PlanOf(cr), w, env).writes[i].key.kind.ConfigMapKind?
    ensures var k := Pass(PlanOf(cr), w, env).writes[i].key;
            k == Key(ServiceKind, cr.namespace, cr.name) || exists d :: IsComponent(cr, d) && OfComponent(cr, d, k)
  {
    var version := PassVersion(PlanOf(cr), w, env);
    PassWritesAreWanted(PlanOf(cr), w, env);
    ComponentsAre(cr);
    hide Pass, PassVersion, PassWants, Components, IsComponent, OfComponent;
    var k := Pass(PlanOf(cr), w, env).writes[i].key;
    assert k in KeysOf(PassWants(PlanOf(cr), version));
    var x :| x in PassWants(PlanOf(cr), version) && x.key == k;
    PassWantsAre(cr, version, x);
    KindOfWants(cr, version, x);
    hide ConfigWant;
    if x != ClusterService(cr) {
      var d :| d in Components(cr) && (WorkloadWant(cr, d, version, x) || PodWant(cr, d, x));
      WantOfComponent(cr, d, version, x);
    }
  }

  lemma WantOfComponent(cr: CR, d: Deployment, version: string, x: Want)
    requires WorkloadWant(cr, d, version, x) || PodWant(cr, d, x)
    ensures OfComponent(cr, d, x.key)
  {
    KeysOfComponent(cr, d, version);
    hide StatefulSetFor, PdbFor, PodService;
  }

  // ---------- the order within a component ----------

  lemma {:induction false} PodTaskAt(cr: CR, d: Deployment, index: nat, i: nat)
    requires index <= i < d.size
    ensures |PodTasks(cr, d, index)| == d.size - index
    ensures PodTasks(cr, d, index)[i - index] == Ensure(PodService(cr, d, i))
    decreases d.size - index
  {
    assert PodTasks(cr, d, index) == [Ensure(PodService(cr, d, index))] + PodTasks(cr, d, index + 1);
    assert PodTasks(cr, d, d.size) == [];
    hide PodService, PodTasks;
    if index + 1 < d.size {
      PodTaskAt(cr, d, index + 1, if i == index then i + 1 else i);
    }
  }

  lemma {:induction false} PodTasksAreServices(cr: CR, d: Deployment, index: nat)
    ensures var tasks := PodTasks(cr, d, index);
            forall n :: 0 <= n < |tasks| ==> tasks[n].Ensure? && tasks[n].want.key.kind.ServiceKind?
    decreases d.size - index
  {
    if index < d.size {
      PodTasksAreServices(cr, d, index + 1);
      assert PodTasks(cr, d, index) == [Ensure(PodService(cr, d, index))] + PodTasks(cr, d, index + 1);
    } else {
      assert PodTasks(cr, d, index) == [];
    }
  }

  /** The objects that a component's pass gets to before the one with this key: the pod services before
      the StatefulSet, and the StatefulSet before the disruption budget. */
  ghost predicate ComesBefore(cr: CR, d: Deployment, version: string, x: Want, k: Key) {
    || (k == Key(StatefulSetKind, cr.namespace, d.name) && PodWant(cr, d, x))
    || (k == Key(PdbKind, cr.namespace, d.name + "-pdb") && x == StatefulSetFor(cr, d, version))
  }

  lemma BeforeInComponent(cr: CR, d: Deployment, version: string, n: nat, x: Want) returns (m: nat)
    requires n < |ComponentTasks(cr, d, version)| && ComponentTasks(cr, d, version)[n].Ensure?
    requires ComesBefore(cr, d, version, x, ComponentTasks(cr, d, version)[n].want.key)
    ensures m < n && ComponentTasks(cr, d, version)[m] == Ensure(x)
  {
    var pods := if cr.flavour.Cluster? && d.podServiceRequired then PodTasks(cr, d, 0) else [];
    var t := ComponentTasks(cr, d, version)[n];
    KeysOfComponent(cr, d, version);
    PodTasksAreServices(cr, d, 0);
    hide PodTasks, PodService, StatefulSetFor, PdbFor, ValidVolumes;
    if t.want.key.kind.StatefulSetKind? {
      var i: nat :| i < d.size && x == PodService(cr, d, i);
      PodTaskAt(cr, d, 0, i);
      m := i;
    } else {
      m := |pods| + 1;
    }
  }

  /** A task with the key of a component is among that component's tasks. */
  lemma NameOfTask(cr: CR, d: Deployment, e: Deployment, version: string, n: nat)
    requires n < |ComponentTasks(cr, d, version)| && ComponentTasks(cr, d, version)[n].Ensure?
    requires ComponentTasks(cr, d, version)[n].want.key in
               {Key(StatefulSetKind, cr.namespace, e.name), Key(PdbKind, cr.namespace, e.name + "-pdb")}
    ensures d.name == e.name
  {
    var t := ComponentTasks(cr, d, version)[n];
    ComponentTasksAre(cr, d, version);
    assert t in ComponentTasks(cr, d, version) && t.want in Wants(ComponentTasks(cr, d, version));
    KeysOfComponent(cr, d, version);
    hide ComponentTasks, PodService, StatefulSetFor, PdbFor, Wants;
    if d.pdb.Some? && d.name + "-pdb" == e.name + "-pdb" {
      assert (d.name + "-pdb")[..|d.name|] == (e.name + "-pdb")[..|e.name|];
    }
  }

  lemma {:induction false} BeforeAmongAll(cr: CR, ds: seq<Deployment>, d: Deployment, version: string, n: nat, x: Want)
      returns (m: nat)
    requires d in ds && forall e :: e in ds && e.name == d.name ==> e == d
    requires n < |AllComponentTasks(cr, ds, version)| && AllComponentTasks(cr, ds, version)[n].Ensure?
    requires ComesBefore(cr, d, version, x, AllComponentTasks(cr, ds, version)[n].want.key)
    ensures m < n && AllComponentTasks(cr, ds, version)[m] == Ensure(x)
    decreases |ds|
  {
    hide ComponentTasks, StatefulSetFor, PodWant;
    var first, rest := ComponentTasks(cr, ds[0], version), AllComponentTasks(cr, ds[1..], version);
    if n < |first| {
      NameOfTask(cr, ds[0], d, version, n);
      m := BeforeInComponent(cr, d, version, n, x);
    } else if d in ds[1..] {
      var k := BeforeAmongAll(cr, ds[1..], d, version, n - |first|, x);
      m := |first| + k;
    } else {
      NotAmong(cr, ds[1..], d, version, n - |first|);
      assert false;
    }
  }

  lemma NotAmong(cr: CR, ds: seq<Deployment>, d: Deployment, version: string, n: nat)
    requires forall e :: e in ds ==> e.name != d.name
    requires n < |AllComponentTasks(cr, ds, version)| && AllComponentTasks(cr, ds, version)[n].Ensure?
    ensures AllComponentTasks(cr, ds, version)[n].want.key !in
              {Key(StatefulSetKind, cr.namespace, d.name), Key(PdbKind, cr.namespace, d.name + "-pdb")}
    decreases |ds|
  {
    hide ComponentTasks;
    var first := ComponentTasks(cr, ds[0], version);
    if n < |first| {
      if AllComponentTasks(cr, ds, version)[n].want.key in
           {Key(StatefulSetKind, cr.namespace, d.name), Key(PdbKind, cr.namespace, d.name + "-pdb")} {
        NameOfTask(cr, ds[0], d, version, n);
      }
    } else {
      NotAmong(cr, ds[1..], d, version, n - |first|);
    }
  }

  lemma HeadOfPost(cr: CR, version: string) returns (head: seq<Task>)
    ensures Post(cr, version) == head + AllComponentTasks(cr, Components(cr), version)
    ensures forall i :: 0 <= i < |head| ==> head[i].Ensure? && head[i].want.key.kind.ServiceKind?
  {
    assert ClusterService(cr).key.kind.ServiceKind?;
    hide AllComponentTasks, Components, ClusterService;
    head := if cr.flavour.Tenant? then [Ensure(ClusterService(cr))] else [];
  }

  lemma NamesTell(cr: CR, d: Deployment)
    requires DistinctNames(cr) && IsComponent(cr, d)
    ensures d in Components(cr) && forall e :: e in Components(cr) && e.name == d.name ==> e == d
  {
    ComponentsAre(cr);
    hide IsComponent, Components;
  }

  lemma BeforeInPost(cr: CR, d: Deployment, version: string, n: nat, x: Want) returns (m: nat)
    requires DistinctNames(cr) && IsComponent(cr, d)
    requires n < |Post(cr, version)| && Post(cr, version)[n].Ensure?
    requires ComesBefore(cr, d, version, x, Post(cr, version)[n].want.key)
    ensures m < n && Post(cr, version)[m] == Ensure(x)
  {
    hide DistinctNames, IsComponent, Components, AllComponentTasks, Post, ComesBefore;
    NotAService(cr, d, version, x, Post(cr, version)[n].want.key);
    NamesTell(cr, d);
    var head := HeadOfPost(cr, version);
    var rest := AllComponentTasks(cr, Components(cr), version);
    AfterHead(head, rest, n);
    var k := BeforeAmongAll(cr, Components(cr), d, version, n - |head|, x);
    m := |head| + k;
    SameInRest(head, rest, k);
  }

  lemma NotAService(cr: CR, d: Deployment, version: string, x: Want, k: Key)
    requires ComesBefore(cr, d, version, x, k)
    ensures !k.kind.ServiceKind?
  {
  }

  lemma AfterHead(head: seq<Task>, rest: seq<Task>, n: nat)
    requires forall i :: 0 <= i < |head| ==> head[i].Ensure? && head[i].want.key.kind.ServiceKind?
    requires n < |head + rest| && (head + rest)[n].Ensure? && !(head + rest)[n].want.key.kind.ServiceKind?
    ensures |head| <= n && rest[n - |head|] == (head + rest)[n]
  {
  }

  lemma SameInRest(head: seq<Task>, rest: seq<Task>, k: nat)
    requires k < |rest|
    ensures (head + rest)[|head| + k] == rest[k]
  {
  }

  // ---------- what a pass has done before ----------

  lemma {:induction false} NothingGoesAway(w: World, tasks: seq<Task>, env: Env, i: nat)
    ensures w.objects.Keys <= RunTasks(w, tasks, env, i).world.objects.Keys
    decreases |tasks|
  {
    if tasks != [] {
      var e := RunTask(w, tasks[0], env(i));
      hide CreatedObject, UpdatedObject, Stale, Waiting;
      if e.outcome == CLEAN {
        NothingGoesAway(e.world, tasks[1..], env, i + 1);
      }
    }
  }

  /** The objects of the tasks before the one at which a list of tasks stops are there. */
  lemma {:induction false} EarlierAreThere(w: World, tasks: seq<Task>, env: Env, i: nat, m: nat)
    requires m < Stop(w, tasks, env, i) && tasks[m].Ensure?
    ensures tasks[m].want.key in RunTasks(w, tasks, env, i).world.objects
    decreases |tasks|
  {
    var e := RunTask(w, tasks[0], env(i));
    if m > 0 {
      EarlierAreThere(e.world, tasks[1..], env, i + 1, m - 1);
    } else {
      NothingGoesAway(e.world, tasks[1..], env, i + 1);
      hide CreatedObject, UpdatedObject, Stale, Waiting;
    }
  }

  /** A write to a StatefulSet or disruption budget is the last of a pass, and the tasks after the version
      is read stop at it. */
  lemma StopsAtWrite(cr: CR, w: World, env: Env, j: nat) returns (n: nat)
    requires j < |Pass(PlanOf(cr), w, env).writes| && Gated(Pass(PlanOf(cr), w, env).writes[j].key.kind)
    ensures var tasks, v := Post(cr, PassVersion(PlanOf(cr), w, env)), RunTasks(w, Pre(cr), env, 1).world;
            && n == Stop(v, tasks, env, 2 + |Pre(cr)|) && n < |tasks| && tasks[n].Ensure?
            && tasks[n].want.key == Pass(PlanOf(cr), w, env).writes[j].key
            && (forall m :: 0 <= m < n ==> Seen(v, tasks[m], env(2 + |Pre(cr)| + m)))
            && Pass(PlanOf(cr), w, env).world == RunTasks(v, tasks, env, 2 + |Pre(cr)|).world
  {
    hide RunTasks, Pre, Post, Pass, PassVersion, Stop, Seen, Gated, PlanOf;
    var pre, tasks := RunTasks(w, Pre(cr), env, 1), Post(cr, PassVersion(PlanOf(cr), w, env));
    WriteIsLate(cr, w, env, j);
    GatedStop(pre.world, tasks, env, 2 + |Pre(cr)|);
    n := Stop(pre.world, tasks, env, 2 + |Pre(cr)|);
  }

  lemma WriteIsLate(cr: CR, w: World, env: Env, j: nat)
    requires j < |Pass(PlanOf(cr), w, env).writes| && Gated(Pass(PlanOf(cr), w, env).writes[j].key.kind)
    ensures var pre, e := RunTasks(w, Pre(cr), env, 1), Pass(PlanOf(cr), w, env);
            var post := RunTasks(pre.world, Post(cr, PassVersion(PlanOf(cr), w, env)), env, 2 + |Pre(cr)|);
            && EndsGated(post.writes) && post.writes[|post.writes| - 1] == e.writes[j] && e.world == post.world
  {
    KindsOfPre(cr);
    hide RunTasks, Pre, Post, Pass, PassVersion, Gated, PlanOf;
    var pre, e := RunTasks(w, Pre(cr), env, 1), Pass(PlanOf(cr), w, env);
    var post := RunTasks(pre.world, Post(cr, PassVersion(PlanOf(cr), w, env)), env, 2 + |Pre(cr)|);
    UngatedWrites(w, Pre(cr), env, 1);
    GatedIsLast(PlanOf(cr), w, env, j);
    PassInTwo(cr, w, env);
    InSecondPart(pre.writes, post.writes, e.writes, e.world == post.world);
  }

  /** The last of these writes is of the second part, if only that can have it. */
  lemma InSecondPart(a: seq<Write>, b: seq<Write>, writes: seq<Write>, both: bool)
    requires writes == [] || writes == a || (writes == a + b && both)
    requires EndsGated(writes) && !EndsGated(a)
    ensures both && EndsGated(b) && b[|b| - 1] == writes[|writes| - 1]
  {
    hide Gated;
    LastWrite(a, b);
  }

  lemma GatedIsLast(p: Plan, w: World, env: Env, j: nat)
    requires j < |Pass(p, w, env).writes| && Gated(Pass(p, w, env).writes[j].key.kind)
    ensures j == |Pass(p, w, env).writes| - 1
  {
    hide Pass;
    AtMostOneOtherWrite(p, w, env, j, j);
  }

  lemma PassInTwo(cr: CR, w: World, env: Env)
    ensures var e, pre := Pass(PlanOf(cr), w, env), RunTasks(w, Pre(cr), env, 1);
            var post := RunTasks(pre.world, Post(cr, PassVersion(PlanOf(cr), w, env)), env, 2 + |Pre(cr)|);
            || e.writes == [] || e.writes == pre.writes
            || (e.writes == pre.writes + post.writes && e.world == post.world)
  {
    hide RunTasks, Pre, Post;
  }

  /** A pass that writes the StatefulSet of a cluster's component that asks for pod services leaves behind
      a service for each of its pods. */
  lemma PodServicesComeFirst(cr: CR, w: World, env: Env, d: Deployment, j: nat, i: nat)
    requires DistinctNames(cr) && IsComponent(cr, d) && cr.flavour.Cluster? && d.podServiceRequired && i < d.size
    requires j < |Pass(PlanOf(cr), w, env).writes|
    requires Pass(PlanOf(cr), w, env).writes[j].key == Key(StatefulSetKind, cr.namespace, d.name)
    ensures Key(ServiceKind, cr.namespace, PodName(d.name, i)) in Pass(PlanOf(cr), w, env).world.objects
  {
    var version, x := PassVersion(PlanOf(cr), w, env), PodService(cr, d, i);
    KeysOfComponent(cr, d, version);
    assert PodWant(cr, d, x);
    hide RunTasks, Pre, Post, Pass, PassVersion, Stop, Seen, DistinctNames, IsComponent, PodService, PodWant;
    var n := StopsAtWrite(cr, w, env, j);
    var m := BeforeInPost(cr, d, version, n, x);
    EarlierAreThere(RunTasks(w, Pre(cr), env, 1).world, Post(cr, version), env, 2 + |Pre(cr)|, m);
  }

  /** A pass that writes a component's disruption budget has in this same pass read the component's
      StatefulSet, up to date and with all replicas ready at one revision. */
  lemma BudgetComesLast(cr: CR, w: World, env: Env, d: Deployment, j: nat) returns (m: nat)
    requires DistinctNames(cr) && IsComponent(cr, d) && j < |Pass(PlanOf(cr), w, env).writes|
    requires Pass(PlanOf(cr), w, env).writes[j].key == Key(PdbKind, cr.namespace, d.name + "-pdb")
    ensures var v, a := RunTasks(w, Pre(cr), env, 1).world, env(2 + |Pre(cr)| + m);
            && Current(v, StatefulSetFor(cr, d, PassVersion(PlanOf(cr), w, env))) && !a.getFails
            && a.status.readyReplicas == d.size && a.status.currentRevision == a.status.updateRevision
  {
    var version := PassVersion(PlanOf(cr), w, env);
    var x := StatefulSetFor(cr, d, version);
    hide RunTasks, Pre, Post, Pass, PassVersion, Stop, Seen, DistinctNames, IsComponent, StatefulSetFor, Current;
    var n := StopsAtWrite(cr, w, env, j);
    m := BeforeInPost(cr, d, version, n, x);
    SeenMeansReady(cr, d, version, RunTasks(w, Pre(cr), env, 1).world, env(2 + |Pre(cr)| + m));
  }
}
