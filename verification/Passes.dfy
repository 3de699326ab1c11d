/** What every pass does, whatever it is planned to do: the discipline of its writes and the
    config version it works with. */
module Passes {
  import opened Kube
  import opened Protocol
  import opened TaskFacts

  /** Everything a pass that reads config version `version` may reconcile. */
  function PassWants(p: Plan, version: string): set<Want> {
    Wants(p.pre) + Wants(p.post(version))
  }

  /** The config maps among them, and the rest. */
  function ConfigWants(p: Plan): set<Want> {
    set x <- Wants(p.pre) | x.key.kind.ConfigMapKind?
  }

  function RestWants(p: Plan, version: string): set<Want> {
    set x <- PassWants(p, version) | !x.key.kind.ConfigMapKind?
  }

  /** Objects with distinct keys have distinct hash keys and no object is asked for in two ways. */
  ghost predicate WellNamed(p: Plan) {
    forall version: string :: Consistent(PassWants(p, version))
  }

  /** The tasks after the version is read ask for no ConfigMap, put exactly the version they are
      given on every StatefulSet, and ask for the StatefulSet the version may come from. */
  ghost predicate SoundPost(s: Source, tasks: seq<Task>, version: string) {
    && (forall x :: x in Wants(tasks) ==> !x.key.kind.ConfigMapKind?)
    && (forall x :: x in Wants(tasks) && x.key.kind.StatefulSetKind? ==> Stamp(x.content) == version)
    && (s.FromStatefulSet? ==> s.key in KeysOf(Wants(tasks)))
  }

  ghost predicate Sound(p: Plan) {
    && p.source.key.kind == (if p.source.FromStatefulSet? then StatefulSetKind else ConfigMapKind)
    && (forall x :: x in Wants(p.pre) ==> !Gated(x.key.kind))
    && (forall version: string :: SoundPost(p.source, p.post(version), version))
  }

  // ---------- discipline and accounting ----------

  /** The writes of a pass, ignoring events: services and config maps created, then at most one
      other write, with which the pass ends. */
  lemma WriteDiscipline(p: Plan, w: World, env: Env)
    ensures Disciplined(Pass(p, w, env))
  {
    TasksDisciplined(w, p.pre, env, 1);
    var pre := RunTasks(w, p.pre, env, 1);
    var version := VersionRead(p.source, pre.world, pre.writes, env(1 + |p.pre|));
    TasksDisciplined(pre.world, p.post(version), env, 2 + |p.pre|);
  }

  /** So a pass updates at most one object, and writes at most one StatefulSet or disruption budget. */
  lemma AtMostOneOtherWrite(p: Plan, w: World, env: Env, i: nat, j: nat)
    requires i < |Pass(p, w, env).writes| && j < |Pass(p, w, env).writes|
    requires !Passing(Pass(p, w, env).writes[i]) && !Passing(Pass(p, w, env).writes[j])
    ensures i == j == |Pass(p, w, env).writes| - 1
    ensures Pass(p, w, env).outcome != CLEAN
  {
    WriteDiscipline(p, w, env);
  }

  lemma PassAccounted(p: Plan, w: World, env: Env)
    ensures Accounted(w, Pass(p, w, env))
  {
    TasksAccounted(w, p.pre, env, 1);
    var pre := RunTasks(w, p.pre, env, 1);
    if !env(0).getFails && pre.outcome == CLEAN {
      var version := VersionRead(p.source, pre.world, pre.writes, env(1 + |p.pre|));
      TasksAccounted(pre.world, p.post(version), env, 2 + |p.pre|);
      var post := RunTasks(pre.world, p.post(version), env, 2 + |p.pre|);
      AccountedTwice(w, pre, post, post.outcome);
    }
  }

  // ---------- the config version ----------

  /** The config version found by every pass that leaves the config maps alone. */
  function SteadyVersion(s: Source, w: World): string {
    match s
    case FromCreate(_, _) => ""
    case FromConfigMap(k) => AnnotatedVersion(w, k)
    case FromStatefulSet(k) => StampOf(w, k)
  }

  /** The version a pass works with, if it gets that far. */
  function PassVersion(p: Plan, w: World, env: Env): string {
    var pre := RunTasks(w, p.pre, env, 1);
    if !env(0).getFails && pre.outcome == CLEAN
    then VersionRead(p.source, pre.world, pre.writes, env(1 + |p.pre|))
    else SteadyVersion(p.source, w)
  }

  ghost predicate WritesConfig(writes: seq<Write>) {
    exists j :: 0 <= j < |writes| && writes[j].key.kind.ConfigMapKind?
  }

  lemma WritesSplit(a: seq<Write>, b: seq<Write>)
    ensures WritesConfig(a) || WritesConfig(b) ==> WritesConfig(a + b)
  {
    if j :| 0 <= j < |a| && a[j].key.kind.ConfigMapKind? {
      assert (a + b)[j] == a[j];
    }
    if j :| 0 <= j < |b| && b[j].key.kind.ConfigMapKind? {
      assert (a + b)[|a| + j] == b[j];
    }
  }

  /** Creating services and config maps does not change the version that is read afterwards. */
  lemma PassVersionIsSteady(p: Plan, w: World, env: Env)
    requires Sound(p) && VersionReadable(p, env)
    ensures PassVersion(p, w, env) == SteadyVersion(p.source, w)
         || (p.source.FromCreate? && WritesConfig(Pass(p, w, env).writes))
  {
    var pre := RunTasks(w, p.pre, env, 1);
    if !env(0).getFails && pre.outcome == CLEAN {
      CleanRunsOnlyAdd(w, p.pre, env, 1);
      var post := RunTasks(pre.world, p.post(PassVersion(p, w, env)), env, 2 + |p.pre|);
      WritesSplit(pre.writes, post.writes);
      if p.source.FromCreate? && CreatedVersion(pre.writes, p.source.key) != "" {
        assert pre.writes[|pre.writes| - 1].key.kind.ConfigMapKind?;
      }
    }
  }

  /** Objects that tasks change get the content of one of the tasks' wants. */
  lemma {:induction false} ChangesAreWanted(w: World, tasks: seq<Task>, env: Env, i: nat)
    ensures var v := RunTasks(w, tasks, env, i).world;
            forall k :: k in v.objects ==>
              || (k in w.objects && v.objects[k] == w.objects[k])
              || exists x :: x in Wants(tasks) && x.key == k && v.objects[k].content == x.content
    decreases |tasks|
  {
    if tasks != [] {
      WantsOfTail(tasks);
      var e := RunTask(w, tasks[0], env(i));
      if e.outcome == CLEAN {
        ChangesAreWanted(e.world, tasks[1..], env, i + 1);
      }
    }
  }

  /** As long as no ConfigMap is written, tasks that put `version` on every StatefulSet they ask
      for leave a world that has that version with that version. */
  lemma TasksKeepVersion(s: Source, w: World, tasks: seq<Task>, version: string, env: Env, i: nat)
    requires s.key.kind == (if s.FromStatefulSet? then StatefulSetKind else ConfigMapKind)
    requires forall x :: x in Wants(tasks) && x.key.kind.StatefulSetKind? ==> Stamp(x.content) == version
    requires version == SteadyVersion(s, w)
    requires !WritesConfig(RunTasks(w, tasks, env, i).writes)
    ensures SteadyVersion(s, RunTasks(w, tasks, env, i).world) == version
  {
    TasksAccounted(w, tasks, env, i);
    ChangesAreWanted(w, tasks, env, i);
  }

  /** Writes to services, stateful sets and disruption budgets do not change the version that the
      next pass will find. */
  lemma VersionIsSteady(p: Plan, w: World, env: Env)
    requires Sound(p) && VersionReadable(p, env)
    requires !WritesConfig(Pass(p, w, env).writes)
    ensures SteadyVersion(p.source, Pass(p, w, env).world) == SteadyVersion(p.source, w)
  {
    var version := SteadyVersion(p.source, w);
    var pre := RunTasks(w, p.pre, env, 1);
    if !env(0).getFails {
      PassVersionIsSteady(p, w, env);
      var post := RunTasks(pre.world, p.post(version), env, 2 + |p.pre|);
      if pre.outcome == CLEAN {
        WritesSplit(pre.writes, post.writes);
      }
      TasksKeepVersion(p.source, w, p.pre, version, env, 1);
      if pre.outcome == CLEAN {
        assert SoundPost(p.source, p.post(version), version);
        TasksKeepVersion(p.source, pre.world, p.post(version), version, env, 2 + |p.pre|);
      }
    }
  }
}
