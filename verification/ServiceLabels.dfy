/** When edited service labels reach the API server. They are outside a service's digest, so that
    they are written only together with something else. */
module ServiceLabels {
  import opened Kube
  import opened Resources
  import opened Protocol
  import opened TaskFacts
  import opened Passes
  import opened Plans
  import opened HashKeys
  import opened Names
  import opened Controllers
  import opened Locality

  /** The object is there with the labels that are asked for. */
  predicate HasLabels(w: World, x: Want) {
    x.key in w.objects && w.objects[x.key].labels == x.labels
  }

  lemma ReconciledLabels(w: World, x: Want, a: Answer)
    ensures HasLabels(Reconcile(w, x, a).world, x) <==>
      HasLabels(w, x) || (!a.getFails && !a.writeFails && (x.key !in w.objects || Stale(w, x)))
  {
  }

  lemma {:induction false} Untouched(w: World, tasks: seq<Task>, env: Env, i: nat, x: Want)
    requires x.key !in KeysOf(Wants(tasks))
    ensures HasLabels(RunTasks(w, tasks, env, i).world, x) <==> HasLabels(w, x)
    ensures x.key in RunTasks(w, tasks, env, i).world.objects <==> x.key in w.objects
    decreases |tasks|
  {
    if tasks != [] {
      WantsOfTail(tasks);
      assert tasks[0].Ensure? ==> tasks[0].want.key in KeysOf(Wants(tasks));
      assert KeysOf(Wants(tasks[1..])) <= KeysOf(Wants(tasks));
      var e := RunTask(w, tasks[0], env(i));
      if e.outcome == CLEAN {
        Untouched(e.world, tasks[1..], env, i + 1, x);
      }
    }
  }

  lemma FirstOfTasks(w: World, x: Want, rest: seq<Task>, env: Env, i: nat)
    requires x.key !in KeysOf(Wants(rest))
    ensures HasLabels(RunTasks(w, [Ensure(x)] + rest, env, i).world, x) <==> HasLabels(Reconcile(w, x, env(i)).world, x)
  {
    assert ([Ensure(x)] + rest)[1..] == rest;
    Untouched(Reconcile(w, x, env(i)).world, rest, env, i + 1, x);
  }

  // ---------- one pass ----------

  /** No pod is called like the custom resource. */
  ghost predicate OwnName(cr: CR) {
    forall d, i: nat :: d in Components(cr) && i < d.size ==> PodName(d.name, i) != cr.name
  }

  /** The number of the cluster service's task in a pass. */
  function ServiceIndex(cr: CR): nat {
    if cr.flavour.Tenant? then 2 + |Pre(cr)| else 1
  }

  /** A pass gets to the cluster service, and neither its read nor its write fails. */
  predicate GetsToService(cr: CR, w: World, env: Env) {
    var a := env(ServiceIndex(cr));
    && !env(0).getFails
    && (cr.flavour.Tenant? ==> RunTasks(w, Pre(cr), env, 1).outcome == CLEAN)
    && !a.getFails && !a.writeFails
  }

  lemma OnlyOneService(cr: CR, version: string)
    requires OwnName(cr)
    ensures ClusterService(cr).key !in KeysOf(Wants(ConfigTasks(cr.config, Namespaces(cr))))
    ensures ClusterService(cr).key !in KeysOf(Wants(AllComponentTasks(cr, Components(cr), version)))
  {
    ConfigTasksAre(cr.config, Namespaces(cr));
    AllComponentTasksAre(cr, Components(cr), version);
    forall x | x in Wants(AllComponentTasks(cr, Components(cr), version)) ensures x.key != ClusterService(cr).key {
      hide AllComponentTasks, ConfigTasks, Components, OwnerOf, Wants;
      var d :| d in Components(cr) && (WorkloadWant(cr, d, version, x) || PodWant(cr, d, x));
    }
  }

  /** The check and the config maps, which come after the service of a cluster or standalone. */
  function AfterService(cr: CR): seq<Task> {
    [Check(ValidConfiguration(cr.config))] + ConfigTasks(cr.config, Namespaces(cr))
  }

  lemma PreShape(cr: CR)
    ensures Pre(cr) ==
      if !cr.flavour.Tenant? then [Ensure(ClusterService(cr))] + AfterService(cr)
      else if Namespaces(cr) == [] then [] else AfterService(cr)
  {
    hide ConfigTasks, ClusterService, ValidConfiguration, Namespaces;
    assert [Ensure(ClusterService(cr)), Check(ValidConfiguration(cr.config))]
        == [Ensure(ClusterService(cr))] + [Check(ValidConfiguration(cr.config))];
  }

  lemma PreAfterService(cr: CR)
    requires OwnName(cr)
    ensures ClusterService(cr).key !in KeysOf(Wants(AfterService(cr)))
    ensures cr.flavour.Tenant? ==> ClusterService(cr).key !in KeysOf(Wants(Pre(cr)))
  {
    PreShape(cr);
    OnlyOneService(cr, "");
    var check, configs := [Check(ValidConfiguration(cr.config))], ConfigTasks(cr.config, Namespaces(cr));
    assert Wants(check) == {} && Wants([]) == {};
    hide Pre, ConfigTasks, ClusterService, ValidConfiguration, OwnName, Namespaces;
    WantsOfConcat(check, configs);
  }

  lemma LabelsOfPre(cr: CR, w: World, env: Env)
    requires OwnName(cr)
    ensures var s, v := ClusterService(cr), RunTasks(w, Pre(cr), env, 1).world;
            if cr.flavour.Tenant? then
              && (HasLabels(v, s) <==> HasLabels(w, s))
              && (s.key in v.objects <==> s.key in w.objects)
            else HasLabels(v, s) <==> HasLabels(Reconcile(w, s, env(1)).world, s)
  {
    PreShape(cr);
    PreAfterService(cr);
    hide RunTasks, Pre, Reconcile, ClusterService, HasLabels, AfterService, OwnName, KeysOf, Wants;
    if cr.flavour.Tenant? {
      Untouched(w, Pre(cr), env, 1, ClusterService(cr));
    } else {
      FirstOfTasks(w, ClusterService(cr), AfterService(cr), env, 1);
    }
  }

  lemma LabelsOfPost(cr: CR, version: string, w: World, env: Env, i: nat)
    requires OwnName(cr)
    ensures var s, v := ClusterService(cr), RunTasks(w, Post(cr, version), env, i).world;
            HasLabels(v, s) <==>
                if cr.flavour.Tenant? then HasLabels(Reconcile(w, s, env(i)).world, s) else HasLabels(w, s)
  {
    var s, workloads := ClusterService(cr), AllComponentTasks(cr, Components(cr), version);
    OnlyOneService(cr, version);
    if cr.flavour.Tenant? {
      FirstOfTasks(w, s, workloads, env, i);
    } else {
      assert Post(cr, version) == workloads;
      Untouched(w, workloads, env, i, s);
    }
  }

  /** After a pass, whatever it comes to, the cluster service has the labels that are asked for if
      and only if it had them before, or the pass got to it and it was absent or its digest not that
      of its spec: after a change of its spec, before its first update, after a restart. */
  lemma LabelsAreWrittenIff(cr: CR, w: World, env: Env)
    requires OwnName(cr)
    ensures var s := ClusterService(cr);
            HasLabels(Pass(PlanOf(cr), w, env).world, s) <==>
              HasLabels(w, s) || (GetsToService(cr, w, env) && (s.key !in w.objects || Stale(w, s)))
  {
    hide RunTasks, Pre, Post, Reconcile, ClusterService, HasLabels, SourceOf, Stale, OwnName, CreatedVersion;
    var s, version := ClusterService(cr), PassVersion(PlanOf(cr), w, env);
    var pre := RunTasks(w, Pre(cr), env, 1);
    LabelsOfPre(cr, w, env);
    LabelsOfPost(cr, version, pre.world, env, 2 + |Pre(cr)|);
    ReconciledLabels(w, s, env(1));
    ReconciledLabels(pre.world, s, env(2 + |Pre(cr)|));
    if pre.outcome == CLEAN {
      CleanKeepsStale(w, Pre(cr), env, s);
    }
  }

  lemma CleanKeepsStale(w: World, tasks: seq<Task>, env: Env, x: Want)
    requires RunTasks(w, tasks, env, 1).outcome == CLEAN
    ensures Stale(RunTasks(w, tasks, env, 1).world, x) <==> Stale(w, x)
  {
    CleanRunsOnlyAdd(w, tasks, env, 1);
    hide RunTasks, HashKey;
  }

  /** So edited labels are written by the first pass after a restart that gets to the service. */
  lemma RestartWritesLabels(cr: CR, w: World, env: Env)
    requires OwnName(cr) && GetsToService(cr, Forget(w), env)
    ensures HasLabels(Pass(PlanOf(cr), Forget(w), env).world, ClusterService(cr))
  {
    LabelsAreWrittenIff(cr, Forget(w), env);
  }

  // ---------- whole runs ----------

  /** The object is there and its digest is up to date. */
  predicate UpToDate(w: World, x: Want) {
    x.key in w.objects && !Stale(w, x)
  }

  /** Whoever uses the hash key asks for this object with this content. */
  ghost predicate SameSpec(x: Want, ys: set<Want>) {
    forall y :: y in ys && (y.key == x.key || HashKey(y.key) == HashKey(x.key)) ==>
        y.key == x.key && y.content == x.content
  }

  lemma {:induction false} TasksLeaveIt(w: World, tasks: seq<Task>, env: Env, i: nat, x: Want)
    requires UpToDate(w, x) && SameSpec(x, Wants(tasks))
    ensures var v := RunTasks(w, tasks, env, i).world; UpToDate(v, x) && v.objects[x.key] == w.objects[x.key]
    decreases |tasks|
  {
    if tasks != [] {
      WantsOfTail(tasks);
      var e := RunTask(w, tasks[0], env(i));
      assert UpToDate(e.world, x) && e.world.objects[x.key] == w.objects[x.key];
      if e.outcome == CLEAN {
        TasksLeaveIt(e.world, tasks[1..], env, i + 1, x);
      }
    }
  }

  lemma PassLeavesIt(p: Plan, w: World, env: Env, x: Want)
    requires UpToDate(w, x) && forall version: string :: SameSpec(x, PassWants(p, version))
    ensures var v := Pass(p, w, env).world; UpToDate(v, x) && v.objects[x.key] == w.objects[x.key]
  {
    var version := PassVersion(p, w, env);
    assert SameSpec(x, PassWants(p, version));
    TasksLeaveIt(w, p.pre, env, 1, x);
    TasksLeaveIt(RunTasks(w, p.pre, env, 1).world, p.post(version), env, 2 + |p.pre|, x);
  }

  /** A pass over the custom resource with some service labels. */
  ghost predicate EditsLabels(m: Move, cr: CR) {
    m.Reconciled? && exists labels ::
        m.plan == PlanOf(cr.(serviceLabels := labels)) && WellFormed(cr.(serviceLabels := labels))
  }

  /** A pass of a custom resource that does not share the service's hash key. */
  ghost predicate OtherService(m: Move, cr: CR) {
    m.Reconciled? && Foreign({ClusterService(cr).key}, m.plan)
  }

  lemma ConsistentSpec(x: Want, s: Want, ys: set<Want>)
    requires Consistent(ys) && s in ys && s.key == x.key && s.content == x.content
    ensures SameSpec(x, ys)
  {
    hide HashKey;
  }

  lemma EditKeepsSpec(m: Move, cr: CR, version: string)
    requires EditsLabels(m, cr)
    ensures SameSpec(ClusterService(cr), PassWants(m.plan, version))
  {
    var labels :| m.plan == PlanOf(cr.(serviceLabels := labels)) && WellFormed(cr.(serviceLabels := labels));
    var b := cr.(serviceLabels := labels);
    assert ClusterService(b).key == ClusterService(cr).key && ClusterService(b).content == ClusterService(cr).content;
    hide PassWants, PlanOf, ClusterService, WellFormed, Consistent, SameSpec;
    WellFormedPlan(b);
    ServiceIsWanted(b, version);
    assert Consistent(PassWants(m.plan, version));
    ConsistentSpec(ClusterService(cr), ClusterService(b), PassWants(m.plan, version));
  }

  lemma ServiceIsWanted(cr: CR, version: string)
    ensures ClusterService(cr) in PassWants(PlanOf(cr), version)
  {
    PreWantsAre(cr);
    PostWantsAre(cr, version);
    hide ClusterService;
  }

  lemma OthersKeepSpec(m: Move, cr: CR, version: string)
    requires OtherService(m, cr)
    ensures SameSpec(ClusterService(cr), PassWants(m.plan, version))
  {
    hide ClusterService, PassWants;
    var s := ClusterService(cr);
    forall y | y in PassWants(m.plan, version) ensures HashKey(y.key) != HashKey(s.key) {
      assert s.key in {s.key};
    }
  }

  lemma MoveKeepsSpec(m: Move, cr: CR)
    requires EditsLabels(m, cr) || OtherService(m, cr)
    ensures m.Reconciled? && forall version: string :: SameSpec(ClusterService(cr), PassWants(m.plan, version))
  {
    assert m.Reconciled?;
    hide SameSpec, ClusterService, PassWants, OtherService;
    forall version: string ensures SameSpec(ClusterService(cr), PassWants(m.plan, version)) {
      if EditsLabels(m, cr) {
        EditKeepsSpec(m, cr, version);
      } else {
        OthersKeepSpec(m, cr, version);
      }
    }
  }

  /** Without a restart they are never written: once a service is up to date, no edits of its labels,
      in no number of passes, whatever fails and whatever passes of other custom resources come in
      between, change the object in the API server. */
  lemma {:induction false} LabelEditsWaitForRestart(cr: CR, w: World, moves: seq<Move>)
    requires UpToDate(w, ClusterService(cr)) && forall m :: m in moves ==> EditsLabels(m, cr) || OtherService(m, cr)
    ensures var s, v := ClusterService(cr), Run(w, moves); UpToDate(v, s) && v.objects[s.key] == w.objects[s.key]
    decreases |moves|
  {
    if moves != [] {
      var before, last := moves[..|moves| - 1], moves[|moves| - 1];
      assert last in moves;
      LabelEditsWaitForRestart(cr, w, before);
      MoveKeepsSpec(last, cr);
      hide Pass, UpToDate, SameSpec, ClusterService;
      PassLeavesIt(last.plan, Run(w, before), last.env, ClusterService(cr));
    }
  }

  // ---------- the service after a pass ----------

  /** The worlds do not differ in the object and in whether its digest is up to date. */
  predicate SameView(w: World, v: World, x: Want) {
    && (x.key in w.objects <==> x.key in v.objects)
    && (x.key in w.objects ==> w.objects[x.key] == v.objects[x.key])
    && (Stale(w, x) <==> Stale(v, x))
  }

  /** Nobody else uses the object's key or hash key. */
  ghost predicate Unshared(x: Want, ys: set<Want>) {
    forall y :: y in ys ==> HashKey(y.key) != HashKey(x.key)
  }

  lemma {:induction false} ViewStays(w: World, tasks: seq<Task>, env: Env, i: nat, x: Want)
    requires Unshared(x, Wants(tasks))
    ensures SameView(RunTasks(w, tasks, env, i).world, w, x)
    decreases |tasks|
  {
    if tasks != [] {
      WantsOfTail(tasks);
      var e := RunTask(w, tasks[0], env(i));
      assert SameView(e.world, w, x);
      if e.outcome == CLEAN {
        ViewStays(e.world, tasks[1..], env, i + 1, x);
      }
    }
  }

  lemma ViewOfFirst(w: World, x: Want, rest: seq<Task>, env: Env, i: nat)
    requires Unshared(x, Wants(rest))
    ensures SameView(RunTasks(w, [Ensure(x)] + rest, env, i).world, Reconcile(w, x, env(i)).world, x)
  {
    assert ([Ensure(x)] + rest)[1..] == rest;
    ViewStays(Reconcile(w, x, env(i)).world, rest, env, i + 1, x);
  }

  lemma ServiceUnshared(cr: CR, version: string)
    requires DistinctNames(cr)
    ensures Unshared(ClusterService(cr), Wants(ConfigTasks(cr.config, Namespaces(cr))))
    ensures Unshared(ClusterService(cr), Wants(AllComponentTasks(cr, Components(cr), version)))
  {
    ConfigTasksAre(cr.config, Namespaces(cr));
    AllComponentTasksAre(cr, Components(cr), version);
    forall x | x in Wants(ConfigTasks(cr.config,
        Namespaces(cr))) ensures HashKey(x.key) != HashKey(ClusterService(cr).key) {
      if HashKey(x.key) == HashKey(ClusterService(cr).key) {
        KindsNeverCollide(x.key, ClusterService(cr).key);
      }
    }
    hide HashKey, WorkloadWant, PodWant, ClusterService, DistinctNames;
    forall x | x in Wants(AllComponentTasks(cr, Components(cr), version))
      ensures HashKey(x.key) != HashKey(ClusterService(cr).key)
    {
      ServiceApart(cr, version, x);
    }
  }

  lemma UnsharedBoth(x: Want, a: seq<Task>, b: seq<Task>)
    requires Unshared(x, Wants(a)) && Unshared(x, Wants(b))
    ensures Unshared(x, Wants(a + b))
  {
    hide HashKey;
    WantsOfConcat(a, b);
  }

  lemma PreUnshared(cr: CR)
    requires DistinctNames(cr)
    ensures cr.flavour.Tenant? ==> Unshared(ClusterService(cr), Wants(Pre(cr)))
    ensures !cr.flavour.Tenant? ==> Unshared(ClusterService(cr), Wants(AfterService(cr)))
  {
    PreShape(cr);
    ServiceUnshared(cr, "");
    var check, configs := [Check(ValidConfiguration(cr.config))], ConfigTasks(cr.config, Namespaces(cr));
    assert Wants(check) == {} && Wants([]) == {};
    hide Pre, ConfigTasks, ClusterService, ValidConfiguration, DistinctNames, Namespaces, HashKey, Wants;
    UnsharedBoth(ClusterService(cr), check, configs);
  }

  lemma ViewOfPre(cr: CR, w: World, env: Env)
    requires DistinctNames(cr)
    ensures var s, v := ClusterService(cr), RunTasks(w, Pre(cr), env, 1).world;
            SameView(v, if cr.flavour.Tenant? then w else Reconcile(w, s, env(1)).world, s)
  {
    PreShape(cr);
    PreUnshared(cr);
    hide RunTasks, Pre, Reconcile, ClusterService, SameView, AfterService, DistinctNames, Unshared, Wants;
    if cr.flavour.Tenant? {
      ViewStays(w, Pre(cr), env, 1, ClusterService(cr));
    } else {
      ViewOfFirst(w, ClusterService(cr), AfterService(cr), env, 1);
    }
  }

  lemma ViewOfPost(cr: CR, version: string, w: World, env: Env, i: nat)
    requires DistinctNames(cr)
    ensures var s, v := ClusterService(cr), RunTasks(w, Post(cr, version), env, i).world;
            SameView(v, if cr.flavour.Tenant? then Reconcile(w, s, env(i)).world else w, s)
  {
    var s, workloads := ClusterService(cr), AllComponentTasks(cr, Components(cr), version);
    ServiceUnshared(cr, version);
    hide RunTasks, Reconcile, ClusterService, SameView, AllComponentTasks, DistinctNames, Unshared, Components;
    if cr.flavour.Tenant? {
      ViewOfFirst(w, s, workloads, env, i);
    } else {
      assert Post(cr, version) == workloads;
      ViewStays(w, workloads, env, i, s);
    }
  }

  lemma ViewsReconcileAlike(w: World, v: World, x: Want, a: Answer)
    requires SameView(w, v, x) && x.key in w.objects
    ensures var u := Reconcile(w, x, a).world;
            && x.key in u.objects
            && (UpToDate(u, x) <==> UpToDate(v, x) || (!a.getFails && !a.writeFails))
            && u.objects[x.key].labels ==
                 if !a.getFails && !a.writeFails && Stale(v, x) then x.labels else v.objects[x.key].labels
  {
  }

  /** The world after a pass looks, as to the service, like the one before, or like the one before with
      the service reconciled, if the pass arrives there. */
  lemma ServiceView(cr: CR, w: World, env: Env)
    requires DistinctNames(cr) && ClusterService(cr).key in w.objects
    ensures var s, pre := ClusterService(cr), RunTasks(w, Pre(cr), env, 1);
            var v := Pass(PlanOf(cr), w, env).world;
            if env(0).getFails || (cr.flavour.Tenant? && pre.outcome != CLEAN) then SameView(v, w, s)
            else
              var before := if cr.flavour.Tenant? then pre.world else w;
              SameView(before, w, s) && SameView(v, Reconcile(before, s, env(ServiceIndex(cr))).world, s)
  {
    var s, version := ClusterService(cr), PassVersion(PlanOf(cr), w, env);
    var pre := RunTasks(w, Pre(cr), env, 1);
    ViewOfPre(cr, w, env);
    ViewOfPost(cr, version, pre.world, env, 2 + |Pre(cr)|);
    hide RunTasks, Pre, Post, Reconcile, ClusterService, SourceOf, Stale, DistinctNames;
  }

  /** What a pass makes of a service that exists: up to date if it was or the pass got to it, with the
      labels asked for if it was not and the pass got to it, and with those it had otherwise. */
  lemma ServiceAfterPass(cr: CR, w: World, env: Env)
    requires DistinctNames(cr) && ClusterService(cr).key in w.objects
    ensures var s, v := ClusterService(cr), Pass(PlanOf(cr), w, env).world;
            && s.key in v.objects
            && (UpToDate(v, s) <==> UpToDate(w, s) || GetsToService(cr, w, env))
            && v.objects[s.key].labels ==
                 if GetsToService(cr, w, env) && Stale(w, s) then s.labels else w.objects[s.key].labels
  {
    ServiceView(cr, w, env);
    hide RunTasks, Pre, Reconcile, ClusterService, Stale, Pass, PlanOf, ServiceIndex;
    var s, pre := ClusterService(cr), RunTasks(w, Pre(cr), env, 1);
    if !(env(0).getFails || (cr.flavour.Tenant? && pre.outcome != CLEAN)) {
      ViewsReconcileAlike(if cr.flavour.Tenant? then pre.world else w, w, s, env(ServiceIndex(cr)));
    }
  }

  // ---------- runs with restarts ----------

  /** A pass over the custom resource with these labels, a restart, or a pass of another one. */
  datatype Act = Edited(labels: Option<Labels>, env: Env) | Crashed | Elsewhere(plan: Plan, at: Env)

  function MoveOf(cr: CR, a: Act): Move {
    match a
    case Edited(labels, env) => Reconciled(PlanOf(WithLabels(cr, labels)), env)
    case Crashed => Restarted
    case Elsewhere(plan, env) => Reconciled(plan, env)
  }

  function MovesOf(cr: CR, acts: seq<Act>): seq<Move> {
    if acts == [] then [] else MovesOf(cr, acts[..|acts| - 1]) + [MoveOf(cr, acts[|acts| - 1])]
  }

  ghost predicate Fitting(cr: CR, a: Act) {
    match a
    case Edited(labels, _) => WellFormed(WithLabels(cr, labels))
    case Crashed => true
    case Elsewhere(plan, _) => Foreign({ClusterService(cr).key}, plan)
  }

  /** Since the last restart a pass has got to the service; without one, the service was up to date in
      the beginning or a pass has. */
  ghost predicate Reached(cr: CR, w: World, acts: seq<Act>) {
    if acts == [] then UpToDate(w, ClusterService(cr))
    else
      var before := acts[..|acts| - 1];
      match acts[|acts| - 1]
      case Edited(labels, env) =>
        Reached(cr, w, before) || GetsToService(WithLabels(cr, labels), Run(w, MovesOf(cr, before)), env)
      case Crashed => false
      case Elsewhere(_, _) => Reached(cr, w, before)
  }

  /** The labels of the latest pass that got to the service when none had since the last restart; those
      that were there in the beginning if there is no such pass. */
  ghost function LastWritten(cr: CR, w: World, acts: seq<Act>): Labels
    requires ClusterService(cr).key in w.objects
  {
    if acts == [] then w.objects[ClusterService(cr).key].labels
    else
      var before := acts[..|acts| - 1];
      match acts[|acts| - 1]
      case Edited(labels, env) =>
        if !Reached(cr, w, before) && GetsToService(WithLabels(cr, labels), Run(w, MovesOf(cr, before)), env)
        then OrEmpty(labels) else LastWritten(cr, w, before)
      case _ => LastWritten(cr, w, before)
  }

  lemma SameService(cr: CR, labels: Option<Labels>)
    ensures var s, t := ClusterService(cr), ClusterService(WithLabels(cr, labels));
            && s.key == t.key && s.content == t.content && t.labels == OrEmpty(labels)
            && forall w: World :: UpToDate(w, s) == UpToDate(w, t) && Stale(w, s) == Stale(w, t)
  {
  }

  lemma OneAct(cr: CR, w: World, a: Act)
    requires Fitting(cr, a) && ClusterService(cr).key in w.objects
    ensures var s, v := ClusterService(cr), Apply(w, MoveOf(cr, a));
            && s.key in v.objects
            && (UpToDate(v, s) <==>
                  match a
                  case Edited(labels, env) => UpToDate(w, s) || GetsToService(WithLabels(cr, labels), w, env)
                  case Crashed => false
                  case Elsewhere(_, _) => UpToDate(w, s))
            && v.objects[s.key].labels ==
                 if a.Edited? && !UpToDate(w, s) && GetsToService(WithLabels(cr, a.labels), w, a.env)
                 then OrEmpty(a.labels) else w.objects[s.key].labels
  {
    var s := ClusterService(cr);
    match a
    case Edited(labels, env) =>
      SameService(cr, labels);
      hide ClusterService, Pass, GetsToService, PlanOf;
      ServiceAfterPass(WithLabels(cr, labels), w, env);
    case Crashed =>
      hide ClusterService;
    case Elsewhere(plan, env) =>
      hide ClusterService, Pass, HashKey;
      PassLeavesOthers(plan, w, env, {s.key});
      assert s.key in {s.key};
  }

  /** What is in the API server after any run of label edits, failures, restarts and passes of others. */
  lemma {:induction false} ActsDecide(cr: CR, w: World, acts: seq<Act>)
    requires ClusterService(cr).key in w.objects && forall a :: a in acts ==> Fitting(cr, a)
    ensures var s, v := ClusterService(cr), Run(w, MovesOf(cr, acts));
            && s.key in v.objects
            && (UpToDate(v, s) <==> Reached(cr, w, acts))
            && v.objects[s.key].labels == LastWritten(cr, w, acts)
    decreases |acts|
  {
    if acts != [] {
      var before, last := acts[..|acts| - 1], acts[|acts| - 1];
      assert last in acts;
      ActsDecide(cr, w, before);
      RunOneMore(w, MovesOf(cr, before), MoveOf(cr, last));
      hide ClusterService, MoveOf, Apply, Fitting, GetsToService, UpToDate, Run;
      OneAct(cr, Run(w, MovesOf(cr, before)), last);
    }
  }

  /** After any such run, a last edit is in the API server if and only if its labels are those that were
      written last, or its pass gets to the service and no pass has since the last restart. */
  lemma LastEditIsWrittenIff(cr: CR, w: World, acts: seq<Act>, env: Env)
    requires WellFormed(cr) && ClusterService(cr).key in w.objects && forall a :: a in acts ==> Fitting(cr, a)
    ensures var s, v := ClusterService(cr), Run(w, MovesOf(cr, acts));
            HasLabels(Pass(PlanOf(cr), v, env).world, s) <==>
              LastWritten(cr, w, acts) == s.labels || (GetsToService(cr, v, env) && !Reached(cr, w, acts))
  {
    var s, v := ClusterService(cr), Run(w, MovesOf(cr, acts));
    ActsDecide(cr, w, acts);
    hide ClusterService, Pass, GetsToService, PlanOf, Run, MovesOf, Reached, LastWritten, DistinctNames;
    ServiceAfterPass(cr, v, env);
  }
}
