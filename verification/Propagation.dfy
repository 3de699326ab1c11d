/** A change of the HBase configuration reaches every pod template when the label asks for it. */
module Propagation {
  import opened Kube
  import opened Protocol
  import opened TaskFacts
  import opened Passes
  import opened Agreement
  import opened Convergence

  /** The ConfigMap has been seen before and its digest is not that of the new data. */
  ghost predicate Changed(w: World, x: Want) {
    x.key in w.objects && HashKey(x.key) in w.hashes && Stale(w, x)
  }

  /** The ConfigMap has the new data and carries the update-time annotation. */
  ghost predicate Rewritten(w: World, x: Want) {
    x.key in w.objects && w.objects[x.key].annotated && !Stale(w, x)
  }

  /** No StatefulSet or disruption budget differs. */
  ghost predicate SameGated(w: World, v: World) {
    forall k: Key :: Gated(k.kind) ==>
      (k in w.objects <==> k in v.objects) && (k in w.objects ==> w.objects[k] == v.objects[k])
  }

  /** Nothing else has the ConfigMap's hash key. */
  ghost predicate Alone(x: Want, xs: set<Want>) {
    forall y :: y in xs && HashKey(y.key) == HashKey(x.key) ==> y == x
  }

  lemma {:induction false} ChangeStopsTasks(w: World, tasks: seq<Task>, env: Env, i: nat, x: Want)
    requires Alone(x, Wants(tasks)) && x in Wants(tasks) && x.key.kind.ConfigMapKind? && Changed(w, x)
    ensures var e := RunTasks(w, tasks, env, i); e.outcome != CLEAN && (Changed(e.world, x) || Rewritten(e.world, x))
    decreases |tasks|
  {
    WantsOfTail(tasks);
    var e := RunTask(w, tasks[0], env(i));
    if e.outcome == CLEAN {
      assert Changed(e.world, x);
      ChangeStopsTasks(e.world, tasks[1..], env, i + 1, x);
    } else {
      assert tasks[0] == Ensure(x) || Changed(e.world, x);
    }
  }

  lemma {:induction false} RewrittenStays(w: World, tasks: seq<Task>, env: Env, i: nat, x: Want)
    requires Alone(x, Wants(tasks)) && Rewritten(w, x)
    ensures var v := RunTasks(w, tasks, env, i).world; Rewritten(v, x) && v.objects[x.key] == w.objects[x.key]
    decreases |tasks|
  {
    if tasks != [] {
      WantsOfTail(tasks);
      var e := RunTask(w, tasks[0], env(i));
      assert Rewritten(e.world, x) && e.world.objects[x.key] == w.objects[x.key];
      if e.outcome == CLEAN {
        RewrittenStays(e.world, tasks[1..], env, i + 1, x);
      }
    }
  }

  /** What the theorem is about: the plan takes the version from the ConfigMap `x`. */
  ghost predicate Tracks(p: Plan, x: Want) {
    Sound(p) && WellNamed(p) && x in ConfigWants(p) && p.source == FromConfigMap(x.key)
  }

  lemma TrackedAlone(p: Plan, x: Want, version: string)
    requires Tracks(p, x)
    ensures Alone(x, Wants(p.pre)) && Alone(x, Wants(p.post(version)))
  {
    assert Consistent(PassWants(p, version));
  }

  /** As long as the ConfigMap is not rewritten no pass is clean and none touches a StatefulSet. */
  lemma PassBeforeRewrite(p: Plan, w: World, env: Env, x: Want)
    requires Tracks(p, x) && Changed(w, x)
    ensures var e := Pass(p, w, env);
            && e.outcome != CLEAN
            && SameGated(w, e.world)
            && (Changed(e.world, x) || Rewritten(e.world, x))
  {
    TrackedAlone(p, x, "");
    if !env(0).getFails {
      ChangeStopsTasks(w, p.pre, env, 1, x);
      ChangesAreWanted(w, p.pre, env, 1);
      TasksAccounted(w, p.pre, env, 1);
    }
  }

  lemma PassAfterRewrite(p: Plan, w: World, env: Env, x: Want)
    requires Tracks(p, x) && Rewritten(w, x)
    ensures var v := Pass(p, w, env).world; Rewritten(v, x) && v.objects[x.key] == w.objects[x.key]
    ensures VersionReadable(p, env) ==> PassVersion(p, w, env) == w.objects[x.key].version
  {
    hide Sound, WellNamed, Alone, RunTasks, Stale, CreatedVersion;
    var version := PassVersion(p, w, env);
    TrackedAlone(p, x, version);
    RewrittenStays(w, p.pre, env, 1, x);
    RewrittenStays(RunTasks(w, p.pre, env, 1).world, p.post(version), env, 2 + |p.pre|, x);
  }

  /** Before pass `n` the change is still to be written and no StatefulSet has been touched, or the
      ConfigMap has been rewritten. */
  lemma {:induction false} RewriteComesFirst(p: Plan, w: World, envs: Envs, x: Want, n: nat)
    requires Tracks(p, x) && Changed(w, x)
    ensures var v := WorldAt(p, w, envs, n); (Changed(v, x) && SameGated(w, v)) || Rewritten(v, x)
    decreases n
  {
    hide Pass, Tracks;
    if n > 0 {
      RewriteComesFirst(p, w, envs, x, n - 1);
      var v := WorldAt(p, w, envs, n - 1);
      if Changed(v, x) {
        PassBeforeRewrite(p, v, envs(n - 1), x);
      } else {
        PassAfterRewrite(p, v, envs(n - 1), x);
      }
    }
  }

  /** It is rewritten once only. */
  lemma {:induction false} RewrittenOnce(p: Plan, w: World, envs: Envs, x: Want, m: nat, n: nat)
    requires Tracks(p, x) && m <= n && Rewritten(WorldAt(p, w, envs, m), x)
    ensures Rewritten(WorldAt(p, w, envs, n), x)
    ensures WorldAt(p, w, envs, n).objects[x.key] == WorldAt(p, w, envs, m).objects[x.key]
    decreases n
  {
    hide Pass, Tracks;
    if m < n {
      RewrittenOnce(p, w, envs, x, m, n - 1);
      PassAfterRewrite(p, WorldAt(p, w, envs, n - 1), envs(n - 1), x);
    }
  }

  /** Once the HBase ConfigMap's digest is remembered and the label asks for restarts of pods, a
      change of its data leads, whatever fails before, to this: a clean pass comes only after the
      ConfigMap has been rewritten, and after it every StatefulSet is as wanted and carries exactly
      the resource version of the rewritten ConfigMap; before that no StatefulSet is touched. */
  lemma ChangePropagates(p: Plan, w: World, envs: Envs, x: Want, n: nat, ks: set<Key>, s: Want)
    requires Tracks(p, x) && Changed(w, x)
    requires OneKeyPerHash(ks) && Agrees(w, ks)
    requires forall version: string :: KeysOf(PassWants(p, version)) <= ks
    requires var v := WorldAt(p, w, envs, n); Pass(p, v, envs(n)).outcome == CLEAN && VersionReadable(p, envs(n))
    requires s.key.kind.StatefulSetKind? && s in Wants(p.post(PassVersion(p, WorldAt(p, w, envs, n), envs(n))))
    ensures var v := WorldAt(p, w, envs, n);
            && Rewritten(v, x)
            && Done(WorldAt(p, w, envs, n + 1), s)
            && StampOf(WorldAt(p, w, envs, n + 1), s.key) == v.objects[x.key].version
  {
    var v := WorldAt(p, w, envs, n);
    RewriteComesFirst(p, w, envs, x, n);
    if Changed(v, x) {
      PassBeforeRewrite(p, v, envs(n), x);
    }
    PassAfterRewrite(p, v, envs(n), x);
    EndlessRunAgrees(p, w, envs, n, ks);
    CleanPassMeansDone(p, v, envs(n), ks);
    assert s in PassWants(p, PassVersion(p, v, envs(n)));
    assert SoundPost(p.source, p.post(PassVersion(p, v, envs(n))), PassVersion(p, v, envs(n)));
  }

  lemma {:induction false} EndlessRunAgrees(p: Plan, w: World, envs: Envs, n: nat, ks: set<Key>)
    requires OneKeyPerHash(ks) && Agrees(w, ks)
    requires forall version: string :: KeysOf(PassWants(p, version)) <= ks
    ensures Agrees(WorldAt(p, w, envs, n), ks)
    decreases n
  {
    if n > 0 {
      EndlessRunAgrees(p, w, envs, n - 1, ks);
      PassAgrees(p, WorldAt(p, w, envs, n - 1), envs(n - 1), ks);
    }
  }
}
