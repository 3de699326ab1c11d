/** When pods are restarted and when they are not. */
module Rollout {
  import opened Kube
  import opened HashKeys
  import opened Protocol
  import opened TaskFacts
  import opened Passes
  import opened Agreement
  import opened Convergence

  // ---------- config-only changes ----------

  /** Nothing but config maps differs. */
  ghost predicate SameButConfig(w: World, v: World) {
    forall k: Key :: !k.kind.ConfigMapKind? ==>
      (k in w.objects <==> k in v.objects) && (k in w.objects ==> w.objects[k] == v.objects[k])
  }

  ghost predicate OnlyConfigWrites(writes: seq<Write>) {
    forall j :: 0 <= j < |writes| ==> writes[j].key.kind.ConfigMapKind?
  }

  lemma {:induction false} ConfigTasksTouchConfig(w: World, tasks: seq<Task>, env: Env, i: nat, rest: set<Want>)
    requires forall x :: x in Wants(tasks) ==> x.key.kind.ConfigMapKind? || x in rest
    requires (forall x :: x in rest ==> !x.key.kind.ConfigMapKind?) && Settled(w, rest)
    ensures var e := RunTasks(w, tasks, env, i);
            OnlyConfigWrites(e.writes) && SameButConfig(w, e.world) && Settled(e.world, rest)
    decreases |tasks|
  {
    if tasks != [] {
      WantsOfTail(tasks);
      var e := RunTask(w, tasks[0], env(i));
      forall x | x in rest ensures x.key in e.world.objects && !Stale(e.world, x) {
        if tasks[0].Ensure? && HashKey(x.key) == HashKey(tasks[0].want.key) {
          KindsNeverCollide(x.key, tasks[0].want.key);
        }
      }
      if e.outcome == CLEAN {
        ConfigTasksTouchConfig(e.world, tasks[1..], env, i + 1, rest);
      }
    }
  }

  /** A pass, readable, of a custom resource whose label does not ask for restarts and which asks
      for these objects besides its config maps. */
  ghost predicate KeepsRest(m: Move, k: Key, version: string, rest: set<Want>) {
    && m.Reconciled? && Sound(m.plan) && m.plan.source == FromStatefulSet(k)
    && VersionReadable(m.plan, m.env) && RestWants(m.plan, version) <= rest
  }

  lemma ConfigOnlyPass(w: World, m: Move, k: Key, rest: set<Want>)
    requires KeepsRest(m, k, StampOf(w, k), rest)
    requires (forall x :: x in rest ==> !x.key.kind.ConfigMapKind?) && Settled(w, rest)
    ensures var e := Pass(m.plan, w, m.env);
            OnlyConfigWrites(e.writes) && SameButConfig(w, e.world) && Settled(e.world, rest)
  {
    var p, env, version := m.plan, m.env, StampOf(w, k);
    ConfigTasksTouchConfig(w, p.pre, env, 1, rest);
    var pre := RunTasks(w, p.pre, env, 1);
    if !env(0).getFails && pre.outcome == CLEAN {
      assert VersionRead(p.source, pre.world, pre.writes, env(1 + |p.pre|)) == version;
      ConfigTasksTouchConfig(pre.world, p.post(version), env, 2 + |p.pre|, rest);
    }
  }

  /** Once everything besides the config maps is settled, runs of passes that change nothing but
      the contents of configuration files leave everything else alone: no StatefulSet, service or
      disruption budget changes, however often the files are edited and whatever fails. */
  lemma {:induction false} ConfigOnlyNonInterference(w: World, moves: seq<Move>, k: Key, rest: set<Want>)
    requires k.kind.StatefulSetKind?
    requires (forall x :: x in rest ==> !x.key.kind.ConfigMapKind?) && Settled(w, rest)
    requires forall m :: m in moves ==> KeepsRest(m, k, StampOf(w, k), rest)
    ensures SameButConfig(w, Run(w, moves)) && Settled(Run(w, moves), rest)
    decreases |moves|
  {
    if moves != [] {
      var before, last := moves[..|moves| - 1], moves[|moves| - 1];
      assert last in moves;
      ConfigOnlyNonInterference(w, before, k, rest);
      ConfigOnlyPass(Run(w, before), last, k, rest);
    }
  }

  /** And each of these passes writes config maps only. */
  lemma ConfigOnlyWrites(w: World, moves: seq<Move>, j: nat, k: Key, rest: set<Want>)
    requires k.kind.StatefulSetKind?
    requires (forall x :: x in rest ==> !x.key.kind.ConfigMapKind?) && Settled(w, rest)
    requires forall m :: m in moves ==> KeepsRest(m, k, StampOf(w, k), rest)
    requires j < |moves| && moves[j].Reconciled?
    ensures OnlyConfigWrites(Pass(moves[j].plan, Run(w, moves[..j]), moves[j].env).writes)
  {
    ConfigOnlyNonInterference(w, moves[..j], k, rest);
    assert moves[j] in moves;
    ConfigOnlyPass(Run(w, moves[..j]), moves[j], k, rest);
  }

  // ---------- config maps that were never updated twice ----------

  /** No ConfigMap of `cms` has been updated more than once since the operator started: one whose
      digest is remembered is there, up to date and without the update-time annotation. */
  ghost predicate Bootstrapping(w: World, cms: set<Want>) {
    forall x :: x in cms && HashKey(x.key) in w.hashes ==>
      x.key in w.objects && !w.objects[x.key].annotated && !Stale(w, x)
  }

  /** No other object is confused with one of these config maps. */
  ghost predicate Apart(cms: set<Want>, xs: set<Want>) {
    forall x, y :: x in cms && y in xs && HashKey(x.key) == HashKey(y.key) ==> x == y
  }

  lemma {:induction false} TasksBootstrapping(w: World, tasks: seq<Task>, env: Env, i: nat, cms: set<Want>)
    requires Apart(cms, Wants(tasks)) && Bootstrapping(w, cms)
    ensures Bootstrapping(RunTasks(w, tasks, env, i).world, cms)
    decreases |tasks|
  {
    if tasks != [] {
      WantsOfTail(tasks);
      var e := RunTask(w, tasks[0], env(i));
      if tasks[0].Ensure? {
        OneBootstrapping(w, tasks[0].want, env(i), cms);
      }
      if e.outcome == CLEAN {
        TasksBootstrapping(e.world, tasks[1..], env, i + 1, cms);
      }
    }
  }

  lemma OneBootstrapping(w: World, y: Want, a: Answer, cms: set<Want>)
    requires Apart(cms, {y}) && Bootstrapping(w, cms)
    ensures Bootstrapping(Reconcile(w, y, a).world, cms)
  {
    var v := Reconcile(w, y, a).world;
    forall x | x in cms && HashKey(x.key) in v.hashes
      ensures x.key in v.objects && !v.objects[x.key].annotated && !Stale(v, x)
    {
      assert x == y || HashKey(x.key) != HashKey(y.key);
    }
  }

  /** Clean tasks leave each of these config maps there and unannotated. */
  lemma {:induction false} CleanMeansUnannotated(w: World, tasks: seq<Task>, env: Env, i: nat, cms: set<Want>, x: Want)
    requires Apart(cms, Wants(tasks)) && Bootstrapping(w, cms)
    requires RunTasks(w, tasks, env, i).outcome == CLEAN
    requires x in cms && x in Wants(tasks) && x.key.kind.ConfigMapKind?
    ensures AnnotatedVersion(RunTasks(w, tasks, env, i).world, x.key) == ""
    decreases |tasks|
  {
    WantsOfTail(tasks);
    var e := RunTask(w, tasks[0], env(i));
    if tasks[0].Ensure? {
      OneBootstrapping(w, tasks[0].want, env(i), cms);
    }
    if x in Wants(tasks[1..]) {
      CleanMeansUnannotated(e.world, tasks[1..], env, i + 1, cms, x);
    } else {
      assert Ensure(x) in tasks[..1] && tasks[0] == Ensure(x);
      CleanRunsOnlyAdd(e.world, tasks[1..], env, i + 1);
      assert x.key in e.world.objects && !e.world.objects[x.key].annotated;
    }
  }

  // ---------- upgrade safety ----------

  /** A restart, or a pass that reconciles the ConfigMap before it reads its version, and otherwise
      takes the version from one of these StatefulSets. */
  ghost predicate Upgrades(m: Move, cms: set<Want>, sets: set<Key>) {
    m.Reconciled? ==>
      && Sound(m.plan)
      && (forall version: string :: Apart(cms, PassWants(m.plan, version)))
      && match m.plan.source
         case FromCreate(_, _) => false
         case FromStatefulSet(k) => k in sets
         case FromConfigMap(k) => exists x :: x in cms && x in Wants(m.plan.pre) && x.key == k
  }

  lemma PassBootstrapping(p: Plan, w: World, env: Env, cms: set<Want>)
    requires (forall version: string :: Apart(cms, PassWants(p, version))) && Bootstrapping(w, cms)
    ensures Bootstrapping(Pass(p, w, env).world, cms)
  {
    var version := PassVersion(p, w, env);
    assert Apart(cms, PassWants(p, version));
    ApartBoth(cms, p, version);
    hide RunTasks, Apart, Bootstrapping;
    TasksBootstrapping(w, p.pre, env, 1, cms);
    TasksBootstrapping(RunTasks(w, p.pre, env, 1).world, p.post(version), env, 2 + |p.pre|, cms);
  }

  lemma ApartBoth(cms: set<Want>, p: Plan, version: string)
    requires Apart(cms, PassWants(p, version))
    ensures Apart(cms, Wants(p.pre)) && Apart(cms, Wants(p.post(version)))
  {
    hide HashKey;
  }

  lemma UpgradeFindsNoVersion(p: Plan, w: World, env: Env, cms: set<Want>, sets: set<Key>)
    requires Upgrades(Reconciled(p, env), cms, sets) && Bootstrapping(w, cms)
    requires forall k :: k in sets ==> StampOf(w, k) == ""
    requires !env(0).getFails && RunTasks(w, p.pre, env, 1).outcome == CLEAN
    ensures PassVersion(p, w, env) == ""
  {
    CleanRunsOnlyAdd(w, p.pre, env, 1);
    assert Apart(cms, PassWants(p, ""));
    if p.source.FromConfigMap? {
      var x :| x in cms && x in Wants(p.pre) && x.key == p.source.key;
      CleanMeansUnannotated(w, p.pre, env, 1, cms, x);
    }
  }

  lemma PreKeepsStamps(p: Plan, w: World, env: Env, k: Key)
    requires Sound(p) && k.kind.StatefulSetKind?
    ensures StampOf(RunTasks(w, p.pre, env, 1).world, k) == StampOf(w, k)
  {
    ChangesAreWanted(w, p.pre, env, 1);
    TasksAccounted(w, p.pre, env, 1);
    hide RunTasks;
  }

  lemma UnversionedTasks(w: World, tasks: seq<Task>, env: Env, i: nat, k: Key)
    requires forall x :: x in Wants(tasks) && x.key.kind.StatefulSetKind? ==> Stamp(x.content) == ""
    requires k.kind.StatefulSetKind? && StampOf(w, k) == ""
    ensures StampOf(RunTasks(w, tasks, env, i).world, k) == ""
  {
    ChangesAreWanted(w, tasks, env, i);
    hide RunTasks, Stamp;
  }

  lemma UpgradePass(p: Plan, w: World, env: Env, cms: set<Want>, sets: set<Key>)
    requires Upgrades(Reconciled(p, env), cms, sets) && Bootstrapping(w, cms)
    requires forall k :: k in sets ==> k.kind.StatefulSetKind? && StampOf(w, k) == ""
    ensures forall k :: k in sets ==> StampOf(Pass(p, w, env).world, k) == ""
  {
    var pre := RunTasks(w, p.pre, env, 1);
    if !env(0).getFails && pre.outcome == CLEAN {
      UpgradeFindsNoVersion(p, w, env, cms, sets);
    }
    assert SoundPost(p.source, p.post(""), "");
    forall k | k in sets ensures StampOf(Pass(p, w, env).world, k) == "" {
      PreKeepsStamps(p, w, env, k);
      UnversionedTasks(pre.world, p.post(""), env, 2 + |p.pre|, k);
      hide RunTasks, StampOf, Bootstrapping, Upgrades, VersionRead;
    }
  }

  /** A freshly started operator never puts a config version on a StatefulSet that has none, in any
      number of passes and whatever the label, as long as what is asked of the config maps stays
      the same: since its last restart it has updated each at most once, without the annotation. */
  lemma {:induction false} UpgradeSafety(w: World, moves: seq<Move>, cms: set<Want>, sets: set<Key>)
    requires w.hashes == map[]
    requires forall k :: k in sets ==> k.kind.StatefulSetKind? && StampOf(w, k) == ""
    requires forall m :: m in moves ==> Upgrades(m, cms, sets)
    ensures Bootstrapping(Run(w, moves), cms)
    ensures forall k :: k in sets ==> StampOf(Run(w, moves), k) == ""
    decreases |moves|
  {
    if moves != [] {
      var before, last := moves[..|moves| - 1], moves[|moves| - 1];
      assert last in moves;
      UpgradeSafety(w, before, cms, sets);
      if last.Reconciled? {
        UpgradePass(last.plan, Run(w, before), last.env, cms, sets);
        PassBootstrapping(last.plan, Run(w, before), last.env, cms);
      }
    }
  }

  // ---------- how often config maps are updated ----------

  /** How many of the writes are updates of the object. */
  function Updates(writes: seq<Write>, k: Key): nat {
    if writes == [] then 0
    else Updates(writes[..|writes| - 1], k) + if writes[|writes| - 1] == Updated(k) then 1 else 0
  }

  /** All writes of a run, in order. */
  function RunWrites(w: World, moves: seq<Move>): seq<Write> {
    if moves == [] then []
    else
      var before, last := moves[..|moves| - 1], moves[|moves| - 1];
      RunWrites(w, before) + if last.Reconciled? then Pass(last.plan, Run(w, before), last.env).writes else []
  }

  function Restarts(moves: seq<Move>): nat {
    if moves == [] then 0 else Restarts(moves[..|moves| - 1]) + if moves[|moves| - 1].Restarted? then 1 else 0
  }

  /** 1 if the object's digest is remembered. */
  function Known(w: World, k: Key): nat {
    if HashKey(k) in w.hashes then 1 else 0
  }

  lemma {:induction false} UpdatesConcat(a: seq<Write>, b: seq<Write>, k: Key)
    ensures Updates(a + b, k) == Updates(a, k) + Updates(b, k)
    decreases |b|
  {
    if b == [] {
      assert a + b == a;
    } else {
      assert (a + b)[..|a + b| - 1] == a + b[..|b| - 1];
      UpdatesConcat(a, b[..|b| - 1], k);
    }
  }

  lemma OneUpdate(w: World, y: Want, a: Answer, cms: set<Want>, x: Want)
    requires Apart(cms, {y}) && Bootstrapping(w, cms) && x in cms
    ensures var e := Reconcile(w, y, a); Known(w, x.key) + Updates(e.writes, x.key) == Known(e.world, x.key)
  {
    var e := Reconcile(w, y, a);
    assert x == y || HashKey(x.key) != HashKey(y.key);
    assert e.writes != [] ==> e.writes[..|e.writes| - 1] == [];
    assert HashKey(x.key) in w.hashes ==> !Stale(w, x);
    hide HashKey, Stale;
  }

  lemma {:induction false} UpdatesOfTasks(w: World, tasks: seq<Task>, env: Env, i: nat, cms: set<Want>, x: Want)
    requires Apart(cms, Wants(tasks)) && Bootstrapping(w, cms) && x in cms
    ensures var e := RunTasks(w, tasks, env, i); Known(w, x.key) + Updates(e.writes, x.key) == Known(e.world, x.key)
    decreases |tasks|
  {
    if tasks != [] {
      WantsOfTail(tasks);
      var e := RunTask(w, tasks[0], env(i));
      if tasks[0].Ensure? {
        OneUpdate(w, tasks[0].want, env(i), cms, x);
        OneBootstrapping(w, tasks[0].want, env(i), cms);
      }
      hide RunTask, Apart, Bootstrapping, Known;
      if e.outcome == CLEAN {
        UpdatesOfTail(e.world, tasks, env, i, cms, x);
        UpdatesConcat(e.writes, RunTasks(e.world, tasks[1..], env, i + 1).writes, x.key);
      }
    }
  }

  lemma {:induction false} UpdatesOfTail(w: World, tasks: seq<Task>, env: Env, i: nat, cms: set<Want>, x: Want)
    requires tasks != [] && Apart(cms, Wants(tasks)) && Bootstrapping(w, cms) && x in cms
    ensures var e := RunTasks(w, tasks[1..], env, i + 1);
            Known(w, x.key) + Updates(e.writes, x.key) == Known(e.world, x.key)
    decreases |tasks|, 0
  {
    WantsOfTail(tasks);
    UpdatesOfTasks(w, tasks[1..], env, i + 1, cms, x);
  }

  lemma UpdatesOfPass(p: Plan, w: World, env: Env, cms: set<Want>, x: Want)
    requires (forall version: string :: Apart(cms, PassWants(p, version))) && Bootstrapping(w, cms) && x in cms
    ensures var e := Pass(p, w, env); Known(w, x.key) + Updates(e.writes, x.key) == Known(e.world, x.key)
  {
    var version := PassVersion(p, w, env);
    var pre := RunTasks(w, p.pre, env, 1);
    var post := RunTasks(pre.world, p.post(version), env, 2 + |p.pre|);
    assert Apart(cms, PassWants(p, version));
    ApartBoth(cms, p, version);
    UpdatesOfTasks(w, p.pre, env, 1, cms, x);
    TasksBootstrapping(w, p.pre, env, 1, cms);
    UpdatesOfTasks(pre.world, p.post(version), env, 2 + |p.pre|, cms, x);
    UpdatesConcat(pre.writes, post.writes, x.key);
    hide RunTasks, Known, Updates, Apart, Bootstrapping;
  }

  /** Every update of one of these config maps makes its digest known, and only a restart makes it
      unknown again: without one there is at most one update, and none once the digest is known; with
      restarts, at most one more for each. */
  lemma {:induction false} UpdatesAreCounted(w: World, moves: seq<Move>, cms: set<Want>, sets: set<Key>, x: Want)
    requires Bootstrapping(w, cms) && x in cms && forall m :: m in moves ==> Upgrades(m, cms, sets)
    ensures Bootstrapping(Run(w, moves), cms)
    ensures Known(w, x.key) + Updates(RunWrites(w, moves), x.key) <= Known(Run(w, moves), x.key) + Restarts(moves)
    ensures Updates(RunWrites(w, moves), x.key) <= 1 - Known(w, x.key) + Restarts(moves)
    decreases |moves|
  {
    if moves != [] {
      var before, last := moves[..|moves| - 1], moves[|moves| - 1];
      assert last in moves;
      UpdatesAreCounted(w, before, cms, sets, x);
      if last.Reconciled? {
        UpdatesOfPass(last.plan, Run(w, before), last.env, cms, x);
        PassBootstrapping(last.plan, Run(w, before), last.env, cms);
        UpdatesConcat(RunWrites(w, before), Pass(last.plan, Run(w, before), last.env).writes, x.key);
      } else {
        assert RunWrites(w, before) + [] == RunWrites(w, before);
      }
    }
  }

  // ---------- restart safety ----------

  /** The same objects with the same hashed content. */
  ghost predicate SameContents(w: World, v: World) {
    w.objects.Keys == v.objects.Keys && forall k :: k in w.objects ==> w.objects[k].content == v.objects[k].content
  }

  lemma {:induction false} RewritesKeepContents(w: World, tasks: seq<Task>, env: Env, i: nat)
    requires AllDone(w, Wants(tasks))
    ensures SameContents(w, RunTasks(w, tasks, env, i).world)
    ensures forall j :: 0 <= j < |RunTasks(w, tasks, env, i).writes| ==> RunTasks(w, tasks, env, i).writes[j].Updated?
    decreases |tasks|
  {
    if tasks != [] {
      WantsOfTail(tasks);
      var e := RunTask(w, tasks[0], env(i));
      assert SameContents(w, e.world);
      RewritesKeepContents(e.world, tasks[1..], env, i + 1);
    }
  }

  /** The ConfigMap the version comes from, if it comes from one. */
  ghost function VersionWants(p: Plan): set<Want> {
    set x | x in ConfigWants(p) && p.source.FromConfigMap? && x.key == p.source.key
  }

  /** Everything is done, and a ConfigMap that gives the version has not been annotated and will
      not be before its next change. */
  ghost predicate Steady(p: Plan, w: World, version: string) {
    && AllDone(w, PassWants(p, version))
    && SteadyVersion(p.source, w) == version
    && (p.source.FromConfigMap? ==> version == "" && Bootstrapping(w, VersionWants(p)) && VersionWants(p) != {})
  }

  lemma SteadyPass(p: Plan, w: World, env: Env, version: string)
    requires Sound(p) && WellNamed(p) && VersionReadable(p, env) && Steady(p, w, version)
    ensures Steady(p, Pass(p, w, env).world, version) && SameContents(w, Pass(p, w, env).world)
  {
    var e := Pass(p, w, env);
    var pre := RunTasks(w, p.pre, env, 1);
    RewritesKeepContents(w, p.pre, env, 1);
    assert AllDone(pre.world, PassWants(p, version));
    if !env(0).getFails && pre.outcome == CLEAN {
      assert PassVersion(p, w, env) == version by {
        CleanRunsOnlyAdd(w, p.pre, env, 1);
      }
      RewritesKeepContents(pre.world, p.post(version), env, 2 + |p.pre|);
    }
    assert SameContents(w, e.world);
    assert AllDone(e.world, PassWants(p, version));
    if p.source.FromConfigMap? {
      SteadyVersionWants(p, w, env);
    }
  }

  lemma PassRemembers(p: Plan, w: World, env: Env)
    ensures var v := Pass(p, w, env).world;
            forall k :: k in w.objects ==> k in v.objects && (v.objects[k] == w.objects[k] || HashKey(k) in v.hashes)
  {
    ChangedIsRemembered(w, p.pre, env, 1);
    var pre := RunTasks(w, p.pre, env, 1);
    ChangedIsRemembered(pre.world, p.post(PassVersion(p, w, env)), env, 2 + |p.pre|);
  }

  lemma VersionWantsApart(p: Plan)
    requires WellNamed(p)
    ensures forall version: string :: Apart(VersionWants(p), PassWants(p, version))
  {
    forall version: string ensures Apart(VersionWants(p), PassWants(p, version)) {
      assert Consistent(PassWants(p, version));
    }
  }

  lemma SteadyVersionWants(p: Plan, w: World, env: Env)
    requires Sound(p) && WellNamed(p) && p.source.FromConfigMap?
    requires Steady(p, w, "")
    ensures Bootstrapping(Pass(p, w, env).world, VersionWants(p))
    ensures AnnotatedVersion(Pass(p, w, env).world, p.source.key) == ""
  {
    hide Pass, WellNamed, Sound;
    var cms := VersionWants(p);
    VersionWantsApart(p);
    PassBootstrapping(p, w, env, cms);
    PassRemembers(p, w, env);
    var x :| x in cms;
    assert x in PassWants(p, "") && x.key == p.source.key;
  }

  /** The moves of a run over one custom resource whose version can be read. */
  ghost predicate Over(p: Plan, moves: seq<Move>) {
    forall m :: m in moves && m.Reconciled? ==> m.plan == p && VersionReadable(p, m.env)
  }

  lemma {:induction false} SteadyRun(p: Plan, w: World, moves: seq<Move>, version: string)
    requires Sound(p) && WellNamed(p) && Steady(p, w, version) && Over(p, moves)
    ensures Steady(p, Run(w, moves), version) && SameContents(w, Run(w, moves))
    decreases |moves|
  {
    if moves != [] {
      var before, last := moves[..|moves| - 1], moves[|moves| - 1];
      assert last in moves;
      SteadyRun(p, w, before, version);
      if last.Reconciled? {
        SteadyPass(p, Run(w, before), last.env, version);
      }
    }
  }

  /** Restarting the operator, any number of times and at any moment, in a world in which
      everything is done, rewrites every object with the content it has: if the label does not ask
      for restarts of pods, no pod template changes. */
  lemma RestartSafety(p: Plan, w: World, moves: seq<Move>)
    requires Sound(p) && WellNamed(p) && p.source.FromStatefulSet? && Over(p, moves)
    requires AllDone(w, PassWants(p, SteadyVersion(p.source, w)))
    ensures SameContents(w, Run(w, moves))
  {
    SteadyRun(p, w, moves, SteadyVersion(p.source, w));
  }

  /** The operator restarts and then makes `n` passes. */
  function RestartThen(p: Plan, env: Env, n: nat): seq<Move> {
    if n == 0 then [Restarted] else RestartThen(p, env, n - 1) + [Reconciled(p, env)]
  }

  lemma {:induction false} RestartThenRuns(p: Plan, w: World, env: Env, n: nat, cms: set<Want>)
    requires VersionReadable(p, env)
    requires forall version: string :: Apart(cms, PassWants(p, version))
    ensures Run(w, RestartThen(p, env, n)) == WorldAt(p, Forget(w), Always(env), n)
    ensures Bootstrapping(Run(w, RestartThen(p, env, n)), cms)
    ensures Over(p, RestartThen(p, env, n))
    ensures RestartThen(p, env, n) != [] && RestartThen(p, env, n)[0] == Restarted
    decreases n
  {
    var moves := RestartThen(p, env, n);
    if n == 0 {
      assert moves[..0] == [];
    } else {
      RestartThenRuns(p, w, env, n - 1, cms);
      assert moves[..|moves| - 1] == RestartThen(p, env, n - 1);
      PassBootstrapping(p, Run(w, RestartThen(p, env, n - 1)), env, cms);
    }
  }

  /** A StatefulSet that the plan asks for, whatever the version. */
  ghost predicate AlwaysWanted(p: Plan, s: Key) {
    s.kind.StatefulSetKind? && forall version: string :: s in KeysOf(Wants(p.post(version)))
  }

  /** With the label asking for restarts of pods it is otherwise: if the HBase ConfigMap carries
      the annotation, then some run of passes after a restart takes the version off every
      StatefulSet. */
  lemma RestartUnversions(p: Plan, w: World, env: Env, ks: set<Key>) returns (moves: seq<Move>)
    requires Sound(p) && WellNamed(p) && p.source.FromConfigMap? && VersionWants(p) != {}
    requires OneKeyPerHash(ks) && forall version: string :: KeysOf(PassWants(p, version)) <= ks
    requires AllDone(w, PassWants(p, SteadyVersion(p.source, w))) && SteadyVersion(p.source, w) != ""
    requires Smooth(p, env)
    ensures Over(p, moves)
    ensures forall s :: AlwaysWanted(p, s) ==>
        StampOf(w, s) == SteadyVersion(p.source, w) && StampOf(Run(w, moves), s) == ""
  {
    hide WellNamed, Sound, Run, WorldAt, Pass, AllDone, Bootstrapping, Agrees, VersionWants, OneKeyPerHash;
    var version := SteadyVersion(p.source, w);
    var cms := VersionWants(p);
    VersionWantsApart(p);
    var n := ConvergesAlways(p, Forget(w), env);
    moves := RestartThen(p, env, n);
    RestartThenRuns(p, w, env, n, cms);
    RestartAgrees(p, w, moves, ks);
    forall s | AlwaysWanted(p, s) ensures StampOf(w, s) == version && StampOf(Run(w, moves), s) == "" {
      ConvergedWithoutVersion(p, Run(w, moves), env, ks, s);
      StampWhenDone(p, w, version, s);
    }
  }

  lemma ConvergedWithoutVersion(p: Plan, w: World, env: Env, ks: set<Key>, s: Key)
    requires Sound(p) && p.source.FromConfigMap? && VersionWants(p) != {} && Converged(p, w, env)
    requires Bootstrapping(w, VersionWants(p)) && Agrees(w, ks)
    requires forall version: string :: KeysOf(PassWants(p, version)) <= ks
    requires AlwaysWanted(p, s)
    ensures StampOf(w, s) == ""
  {
    var version := SteadyVersion(p.source, w);
    ConvergedIsSettled(p, w, env);
    var x :| x in VersionWants(p);
    assert x in PassWants(p, version) && x.key in w.objects && !Stale(w, x);
    assert version == "";
    SettledIsDone(w, PassWants(p, version), ks);
    StampWhenDone(p, w, version, s);
  }

  lemma StampWhenDone(p: Plan, w: World, version: string, s: Key)
    requires Sound(p) && s.kind.StatefulSetKind? && s in KeysOf(Wants(p.post(version)))
    requires AllDone(w, PassWants(p, version))
    ensures StampOf(w, s) == version
  {
    assert SoundPost(p.source, p.post(version), version);
    var x :| x in Wants(p.post(version)) && x.key == s;
    assert Done(w, x);
  }

  lemma RestartAgrees(p: Plan, w: World, moves: seq<Move>, ks: set<Key>)
    requires OneKeyPerHash(ks) && forall version: string :: KeysOf(PassWants(p, version)) <= ks
    requires Over(p, moves) && moves != [] && moves[0] == Restarted
    ensures Agrees(Run(w, moves), ks)
  {
    CacheAgreement(Forget(w), moves, ks) by {
      assert forall i :: 0 <= i < |moves| ==> moves[i] in moves;
    }
    RestartFirst(w, moves);
  }

  lemma {:induction false} RestartFirst(w: World, moves: seq<Move>)
    requires moves != [] && moves[0] == Restarted
    ensures Run(w, moves) == Run(Forget(w), moves)
    decreases |moves|
  {
    var before := moves[..|moves| - 1];
    if before != [] {
      RestartFirst(w, before);
    }
  }

  /** Restarting the operator in a world in which everything is done is harmless exactly if the
      version is not that of an annotated ConfigMap: then no run of passes and restarts changes a
      StatefulSet, otherwise some run does. */
  lemma RestartSafeIff(p: Plan, w: World, env: Env, ks: set<Key>, s: Key)
    requires Sound(p) && WellNamed(p) && (p.source.FromConfigMap? ==> VersionWants(p) != {})
    requires OneKeyPerHash(ks) && forall version: string :: KeysOf(PassWants(p, version)) <= ks
    requires AlwaysWanted(p, s)
    requires Settled(w, PassWants(p, SteadyVersion(p.source, w))) && Agrees(w, ks)
    requires Smooth(p, env)
    ensures (forall moves: seq<Move> :: Over(p, moves) ==> SameContents(w, Run(w, moves)))
       <==> !(p.source.FromConfigMap? && AnnotatedVersion(w, p.source.key) != "")
  {
    var version := SteadyVersion(p.source, w);
    assert KeysOf(PassWants(p, version)) <= ks;
    SettledIsDone(w, PassWants(p, version), ks);
    if p.source.FromConfigMap? && AnnotatedVersion(w, p.source.key) != "" {
      var moves := RestartUnversions(p, w, env, ks);
    } else {
      assert Steady(p, w, version);
      forall moves: seq<Move> | Over(p, moves) ensures SameContents(w, Run(w, moves)) {
        SteadyRun(p, w, moves, version);
      }
    }
  }

  // ---------- failed reads of the version ----------

  /** Nothing fails and everything is ready, apart perhaps from the read of the version. */
  ghost predicate SmoothTasksOnly(p: Plan, env: Env) {
    && !env(0).getFails
    && SmoothTasks(p.pre, env, 1)
    && forall version: string :: SmoothTasks(p.post(version), env, 2 + |p.pre|)
  }

  lemma UnversionedIsStale(p: Plan, w: World, s: Key)
    requires Sound(p) && SteadyVersion(p.source, w) != ""
    requires AlwaysWanted(p, s)
    requires Settled(w, PassWants(p, SteadyVersion(p.source, w)))
    ensures !Settled(w, Wants(p.post("")))
  {
    var version := SteadyVersion(p.source, w);
    assert SoundPost(p.source, p.post(version), version) && SoundPost(p.source, p.post(""), "");
    var x :| x in Wants(p.post(version)) && x.key == s;
    var y :| y in Wants(p.post("")) && y.key == s;
    assert x in PassWants(p, version);
    assert Stamp(x.content) != Stamp(y.content);
  }

  /** The read of the version must not fail: a failed read counts as no version, and a pass over a
      settled world then writes nothing only if there is no version there to be lost. */
  lemma SettledPassIsQuietIff(p: Plan, w: World, env: Env, s: Key)
    requires Sound(p) && !p.source.FromCreate? && SmoothTasksOnly(p, env)
    requires AlwaysWanted(p, s)
    requires Settled(w, PassWants(p, SteadyVersion(p.source, w)))
    ensures Pass(p, w, env).writes == [] <==> VersionReadable(p, env) || SteadyVersion(p.source, w) == ""
  {
    var version := SteadyVersion(p.source, w);
    if VersionReadable(p, env) {
      SettledPassWritesNothing(p, w, env);
    } else {
      SettledTasksDoNothing(w, p.pre, env, 1);
      SmoothAndQuietIsClean(w, p.pre, env, 1);
      var post := RunTasks(w, p.post(""), env, 2 + |p.pre|);
      assert Pass(p, w, env).writes == post.writes;
      if version == "" {
        SettledTasksDoNothing(w, p.post(""), env, 2 + |p.pre|);
      } else {
        UnversionedIsStale(p, w, s);
        if post.writes == [] {
          SmoothAndQuietIsClean(w, p.post(""), env, 2 + |p.pre|);
          IdleTasksAreSettled(w, p.post(""), env, 2 + |p.pre|);
        }
      }
    }
  }
}
