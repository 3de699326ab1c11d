/** Repeated passes over a fixed custom resource converge. */
module Convergence {
  import opened Kube
  import opened Protocol
  import opened TaskFacts
  import opened Passes

  /** Work left on the config maps. */
  ghost function ConfigWork(p: Plan, w: World): nat {
    Work(w, ConfigWants(p))
  }

  /** Work left on everything else, as asked for with the version that the next pass will find. */
  ghost function RestWork(p: Plan, w: World): nat {
    Work(w, RestWants(p, SteadyVersion(p.source, w)))
  }

  // ---------- every writing pass does work ----------

  ghost predicate WritesWithin(writes: seq<Write>, ks: set<Key>) {
    forall j :: 0 <= j < |writes| ==> writes[j].key in ks
  }

  lemma WithinConcat(a: seq<Write>, b: seq<Write>, ks: set<Key>, ls: set<Key>)
    requires WritesWithin(a, ks) && WritesWithin(b, ls)
    ensures WritesWithin(a + b, ks + ls)
  {
  }

  lemma {:induction false} WritesAreWanted(w: World, tasks: seq<Task>, env: Env, i: nat)
    ensures WritesWithin(RunTasks(w, tasks, env, i).writes, KeysOf(Wants(tasks)))
    decreases |tasks|
  {
    if tasks != [] {
      WantsOfTail(tasks);
      var e := RunTask(w, tasks[0], env(i));
      if tasks[0].Ensure? {
        assert tasks[0].want.key in KeysOf(Wants(tasks));
      }
      assert WritesWithin(e.writes, KeysOf(Wants(tasks)));
      if e.outcome == CLEAN {
        var r := RunTasks(e.world, tasks[1..], env, i + 1);
        WritesAreWanted(e.world, tasks[1..], env, i + 1);
        WithinConcat(e.writes, r.writes, KeysOf(Wants(tasks)), KeysOf(Wants(tasks[1..])));
        assert KeysOf(Wants(tasks)) + KeysOf(Wants(tasks[1..])) == KeysOf(Wants(tasks));
      }
    }
  }

  lemma {:induction false} SomeWriteCounts(writes: seq<Write>, xs: set<Want>, j: nat)
    requires j < |writes| && writes[j].key in KeysOf(xs)
    ensures WritesTo(writes, xs) > 0
    decreases |writes|
  {
    if j > 0 {
      SomeWriteCounts(writes[1..], xs, j - 1);
    }
  }

  lemma PassConservesWork(p: Plan, w: World, env: Env, xs: set<Want>)
    requires WellNamed(p) && xs <= PassWants(p, PassVersion(p, w, env))
    ensures var e := Pass(p, w, env); Work(e.world, xs) + WritesTo(e.writes, xs) == Work(w, xs)
  {
    var version := PassVersion(p, w, env);
    var all := PassWants(p, version);
    assert Consistent(all);
    if !env(0).getFails {
      WorkIsConserved(w, p.pre, env, 1, xs, all);
      var pre := RunTasks(w, p.pre, env, 1);
      if pre.outcome == CLEAN {
        WorkIsConserved(pre.world, p.post(version), env, 2 + |p.pre|, xs, all);
        WritesToConcat(pre.writes, RunTasks(pre.world, p.post(version), env, 2 + |p.pre|).writes, xs);
      }
    }
  }

  lemma PassWritesAreWanted(p: Plan, w: World, env: Env)
    ensures WritesWithin(Pass(p, w, env).writes, KeysOf(PassWants(p, PassVersion(p, w, env))))
  {
    var version := PassVersion(p, w, env);
    var pre := RunTasks(w, p.pre, env, 1);
    var post := RunTasks(pre.world, p.post(version), env, 2 + |p.pre|);
    var ks, ls := KeysOf(Wants(p.pre)), KeysOf(Wants(p.post(version)));
    WritesAreWanted(w, p.pre, env, 1);
    WritesAreWanted(pre.world, p.post(version), env, 2 + |p.pre|);
    WithinConcat(pre.writes, post.writes, ks, ls);
    assert KeysOf(PassWants(p, version)) == ks + ls;
  }

  /** Writing a ConfigMap is work on the config maps. */
  lemma ConfigWriteIsProgress(p: Plan, w: World, env: Env)
    requires WellNamed(p) && Sound(p) && WritesConfig(Pass(p, w, env).writes)
    ensures ConfigWork(p, Pass(p, w, env).world) < ConfigWork(p, w)
  {
    var e, version := Pass(p, w, env), PassVersion(p, w, env);
    assert SoundPost(p.source, p.post(version), version);
    assert ConfigWants(p) + RestWants(p, version) == PassWants(p, version);
    PassConservesWork(p, w, env, ConfigWants(p));
    PassWritesAreWanted(p, w, env);
    var j :| 0 <= j < |e.writes| && e.writes[j].key.kind.ConfigMapKind?;
    assert e.writes[j].key in KeysOf(ConfigWants(p));
    SomeWriteCounts(e.writes, ConfigWants(p), j);
  }

  /** A pass that writes makes the pair (config work, other work) smaller, a pass that does not
      leaves everything as it was; whatever reads and writes fail, and whatever the statuses are. */
  lemma EveryWriteIsProgress(p: Plan, w: World, env: Env)
    requires WellNamed(p) && Sound(p) && VersionReadable(p, env)
    ensures var e := Pass(p, w, env);
            if e.writes == [] then e.world == w
            else
              || ConfigWork(p, e.world) < ConfigWork(p, w)
              || (ConfigWork(p, e.world) == ConfigWork(p, w) && RestWork(p, e.world) < RestWork(p, w))
  {
    var e := Pass(p, w, env);
    if e.writes == [] {
      PassAccounted(p, w, env);
      NoWriteNoChange(w, e);
      return;
    }
    var version := PassVersion(p, w, env);
    assert SoundPost(p.source, p.post(version), version);
    assert ConfigWants(p) + RestWants(p, version) == PassWants(p, version);
    PassConservesWork(p, w, env, ConfigWants(p));
    PassWritesAreWanted(p, w, env);
    if WritesConfig(e.writes) {
      ConfigWriteIsProgress(p, w, env);
    } else {
      PassVersionIsSteady(p, w, env);
      VersionIsSteady(p, w, env);
      PassConservesWork(p, w, env, RestWants(p, version));
      assert e.writes[0].key in KeysOf(RestWants(p, version));
      SomeWriteCounts(e.writes, RestWants(p, version), 0);
    }
  }

  // ---------- infinite runs ----------

  type Envs = nat -> Env

  /** The world before pass `n` of an endless run. */
  function WorldAt(p: Plan, w: World, envs: Envs, n: nat): World {
    if n == 0 then w else Pass(p, WorldAt(p, w, envs, n - 1), envs(n - 1)).world
  }

  predicate Writes(p: Plan, w: World, envs: Envs, n: nat) {
    Pass(p, WorldAt(p, w, envs, n), envs(n)).writes != []
  }

  ghost predicate AlwaysReadable(p: Plan, envs: Envs) {
    forall i: nat :: VersionReadable(p, envs(i))
  }

  lemma {:induction false} QuietStretch(p: Plan, w: World, envs: Envs, from: nat, end: nat)
    requires from <= end && forall m :: from <= m < end ==> !Writes(p, w, envs, m)
    ensures WorldAt(p, w, envs, end) == WorldAt(p, w, envs, from)
    decreases end
  {
    hide Pass;
    if from < end {
      var before := WorldAt(p, w, envs, end - 1);
      QuietStretch(p, w, envs, from, end - 1);
      assert !Writes(p, w, envs, end - 1);
      PassAccounted(p, before, envs(end - 1));
      NoWriteNoChange(before, Pass(p, before, envs(end - 1)));
    }
  }

  lemma {:induction false} FirstWrite(p: Plan, w: World, envs: Envs, from: nat, some: nat) returns (first: nat)
    requires from <= some && Writes(p, w, envs, some)
    ensures from <= first <= some && Writes(p, w, envs, first)
    ensures forall m :: from <= m < first ==> !Writes(p, w, envs, m)
    decreases some
  {
    if m :| from <= m < some && Writes(p, w, envs, m) {
      first := FirstWrite(p, w, envs, from, m);
    } else {
      first := some;
    }
  }

  /** In every endless run, under any failures and any statuses, there is a pass from which on
      nothing is written any more. */
  lemma {:induction false} EventuallyQuiet(p: Plan, w: World, envs: Envs, from: nat) returns (n: nat)
    requires WellNamed(p) && Sound(p) && AlwaysReadable(p, envs)
    ensures from <= n
    ensures forall m :: n <= m ==> !Writes(p, w, envs, m) && WorldAt(p, w, envs, m) == WorldAt(p, w, envs, n)
    decreases ConfigWork(p, WorldAt(p, w, envs, from)), RestWork(p, WorldAt(p, w, envs, from))
  {
    hide Pass, ConfigWork, RestWork, WellNamed, Sound;
    if some :| from <= some && Writes(p, w, envs, some) {
      var first := FirstWrite(p, w, envs, from, some);
      QuietStretch(p, w, envs, from, first);
      EveryWriteIsProgress(p, WorldAt(p, w, envs, first), envs(first));
      assert WorldAt(p, w, envs, first + 1) == Pass(p, WorldAt(p, w, envs, first), envs(first)).world;
      n := EventuallyQuiet(p, w, envs, first + 1);
    } else {
      n := from;
      forall m | n <= m ensures WorldAt(p, w, envs, m) == WorldAt(p, w, envs, n) {
        QuietStretch(p, w, envs, n, m);
      }
    }
  }

  // ---------- and end clean ----------

  /** No call fails, every check holds, and no StatefulSet is seen waiting. */
  ghost predicate SmoothTasks(tasks: seq<Task>, env: Env, i: nat) {
    forall j :: 0 <= j < |tasks| ==>
      match tasks[j]
      case Ensure(x) => !env(i + j).getFails && !env(i + j).writeFails && !Waiting(x, env(i + j).status)
      case Check(ok) => ok
  }

  ghost predicate Smooth(p: Plan, env: Env) {
    && !env(0).getFails
    && VersionReadable(p, env)
    && SmoothTasks(p.pre, env, 1)
    && forall version: string :: SmoothTasks(p.post(version), env, 2 + |p.pre|)
  }

  lemma {:induction false} SmoothAndQuietIsClean(w: World, tasks: seq<Task>, env: Env, i: nat)
    requires SmoothTasks(tasks, env, i) && RunTasks(w, tasks, env, i).writes == []
    ensures RunTasks(w, tasks, env, i).outcome == CLEAN
    decreases |tasks|
  {
    if tasks != [] {
      var e := RunTask(w, tasks[0], env(i));
      assert match tasks[0]
        case Ensure(x) => !env(i + 0).getFails && !env(i + 0).writeFails && !Waiting(x, env(i + 0).status)
        case Check(ok) => ok;
      assert SmoothTasks(tasks[1..], env, i + 1) by {
        forall j | 0 <= j < |tasks[1..]| ensures
          match tasks[1..][j]
          case Ensure(x) => !env(i + 1 + j).getFails && !env(i + 1 + j).writeFails && !Waiting(x, env(i + 1 + j).status)
          case Check(ok) => ok
        {
          assert tasks[1..][j] == tasks[j + 1] && i + 1 + j == i + (j + 1);
        }
      }
      if e.outcome == CLEAN {
        SmoothAndQuietIsClean(e.world, tasks[1..], env, i + 1);
      }
    }
  }

  lemma SmoothPassWritesOrIsClean(p: Plan, w: World, env: Env)
    requires Smooth(p, env)
    ensures Pass(p, w, env).writes != [] || Pass(p, w, env).outcome == CLEAN
  {
    if Pass(p, w, env).writes == [] {
      SmoothAndQuietIsClean(w, p.pre, env, 1);
      var pre := RunTasks(w, p.pre, env, 1);
      var version := VersionRead(p.source, pre.world, pre.writes, env(1 + |p.pre|));
      SmoothAndQuietIsClean(pre.world, p.post(version), env, 2 + |p.pre|);
    }
  }

  /** If from some pass on nothing fails and everything is ready, some pass is clean, and so is
      every later one; the world no longer changes. */
  lemma Converges(p: Plan, w: World, envs: Envs, from: nat) returns (n: nat)
    requires WellNamed(p) && Sound(p) && AlwaysReadable(p, envs)
    requires forall m :: from <= m ==> Smooth(p, envs(m))
    ensures from <= n
    ensures forall m :: n <= m ==>
      Pass(p, WorldAt(p, w, envs, m), envs(m)) == Effect(WorldAt(p, w, envs, n), CLEAN, [])
  {
    n := EventuallyQuiet(p, w, envs, from);
    forall m | n <= m
      ensures Pass(p, WorldAt(p, w, envs, m), envs(m)) == Effect(WorldAt(p, w, envs, n), CLEAN, [])
    {
      SmoothPassWritesOrIsClean(p, WorldAt(p, w, envs, m), envs(m));
      assert !Writes(p, w, envs, m);
      assert WorldAt(p, w, envs, m + 1) == WorldAt(p, w, envs, n);
    }
  }

  /** The same answers in every pass. */
  function Always(env: Env): Envs {
    n => env
  }

  lemma ConvergesAlways(p: Plan, w: World, env: Env) returns (n: nat)
    requires WellNamed(p) && Sound(p) && Smooth(p, env)
    ensures var v := WorldAt(p, w, Always(env), n); Pass(p, v, env) == Effect(v, CLEAN, [])
  {
    n := Converges(p, w, Always(env), 0);
    assert Always(env)(n) == env;
  }
}
