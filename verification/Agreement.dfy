/** The hash store agrees with the API server, and a clean pass means that everything is done. */
module Agreement {
  import opened Kube
  import opened Protocol
  import opened TaskFacts
  import opened Passes

  ghost predicate OneKeyPerHash(ks: set<Key>) {
    forall k, l :: k in ks && l in ks && HashKey(k) == HashKey(l) ==> k == l
  }

  /** Every digest remembered for one of these keys is that of an object that is there. The hash
      store may remember other digests besides. */
  ghost predicate Agrees(w: World, ks: set<Key>) {
    forall k :: k in ks && HashKey(k) in w.hashes ==>
      k in w.objects && w.hashes[HashKey(k)] == Digest(w.objects[k].content)
  }

  /** No other digests are remembered. */
  ghost predicate Covered(w: World, ks: set<Key>) {
    forall h :: h in w.hashes ==> exists k :: k in ks && HashKey(k) == h
  }

  lemma OneAgrees(w: World, x: Want, a: Answer, ks: set<Key>)
    requires OneKeyPerHash(ks) && x.key in ks && Agrees(w, ks)
    ensures var e := Reconcile(w, x, a);
            Agrees(e.world, ks) && (e.outcome == CLEAN ==> Done(e.world, x) && !Waiting(x, a.status))
  {
  }

  lemma OneCovered(w: World, x: Want, a: Answer, ks: set<Key>)
    requires x.key in ks && Covered(w, ks)
    ensures Covered(Reconcile(w, x, a).world, ks)
  {
  }

  lemma {:induction false} TasksCovered(w: World, tasks: seq<Task>, env: Env, i: nat, ks: set<Key>)
    requires KeysOf(Wants(tasks)) <= ks && Covered(w, ks)
    ensures Covered(RunTasks(w, tasks, env, i).world, ks)
    decreases |tasks|
  {
    hide Covered;
    if tasks != [] {
      WantsOfTail(tasks);
      assert KeysOf(Wants(tasks[1..])) <= KeysOf(Wants(tasks));
      var e := RunTask(w, tasks[0], env(i));
      if tasks[0].Ensure? {
        assert tasks[0].want.key in KeysOf(Wants(tasks));
        OneCovered(w, tasks[0].want, env(i), ks);
      }
      if e.outcome == CLEAN {
        TasksCovered(e.world, tasks[1..], env, i + 1, ks);
      }
    }
  }

  lemma {:induction false} TasksAgree(w: World, tasks: seq<Task>, env: Env, i: nat, ks: set<Key>)
    requires OneKeyPerHash(ks) && KeysOf(Wants(tasks)) <= ks && Agrees(w, ks)
    ensures Agrees(RunTasks(w, tasks, env, i).world, ks)
    decreases |tasks|
  {
    if tasks != [] {
      WantsOfTail(tasks);
      assert KeysOf(Wants(tasks[1..])) <= KeysOf(Wants(tasks));
      var e := RunTask(w, tasks[0], env(i));
      if tasks[0].Ensure? {
        assert tasks[0].want.key in KeysOf(Wants(tasks));
        OneAgrees(w, tasks[0].want, env(i), ks);
      }
      if e.outcome == CLEAN {
        TasksAgree(e.world, tasks[1..], env, i + 1, ks);
      }
    }
  }

  /** The objects of every pass are among `ks`. */
  ghost predicate Within(moves: seq<Move>, ks: set<Key>) {
    forall i :: 0 <= i < |moves| && moves[i].Reconciled? ==>
      forall version: string :: KeysOf(PassWants(moves[i].plan, version)) <= ks
  }

  lemma PassAgrees(p: Plan, w: World, env: Env, ks: set<Key>)
    requires OneKeyPerHash(ks) && Agrees(w, ks)
    requires forall version: string :: KeysOf(PassWants(p, version)) <= ks
    ensures Agrees(Pass(p, w, env).world, ks)
  {
    var version := PassVersion(p, w, env);
    assert KeysOf(PassWants(p, version)) == KeysOf(Wants(p.pre)) + KeysOf(Wants(p.post(version)));
    TasksAgree(w, p.pre, env, 1, ks);
    var pre := RunTasks(w, p.pre, env, 1);
    if pre.outcome == CLEAN {
      TasksAgree(pre.world, p.post(version), env, 2 + |p.pre|, ks);
    }
  }

  lemma PassCovered(p: Plan, w: World, env: Env, ks: set<Key>)
    requires Covered(w, ks) && forall version: string :: KeysOf(PassWants(p, version)) <= ks
    ensures Covered(Pass(p, w, env).world, ks)
  {
    var version := PassVersion(p, w, env);
    assert KeysOf(PassWants(p, version)) == KeysOf(Wants(p.pre)) + KeysOf(Wants(p.post(version)));
    hide Covered;
    TasksCovered(w, p.pre, env, 1, ks);
    TasksCovered(RunTasks(w, p.pre, env, 1).world, p.post(version), env, 2 + |p.pre|, ks);
  }

  /** In every reachable state a remembered digest is that of an object that is there: over edits
      of any number of custom resources, failed reads and writes, and operator restarts. */
  lemma {:induction false} CacheAgreement(w: World, moves: seq<Move>, ks: set<Key>)
    requires OneKeyPerHash(ks) && Within(moves, ks)
    requires Agrees(w, ks)
    ensures Agrees(Run(w, moves), ks)
    ensures Covered(w, ks) ==> Covered(Run(w, moves), ks)
    decreases |moves|
  {
    hide Agrees, Covered, Pass;
    if moves != [] {
      var before := moves[..|moves| - 1];
      assert Within(before, ks) by {
        forall i | 0 <= i < |before| && before[i].Reconciled?
          ensures forall version: string :: KeysOf(PassWants(before[i].plan, version)) <= ks
        {
          assert before[i] == moves[i];
        }
      }
      CacheAgreement(w, before, ks);
      if moves[|moves| - 1].Reconciled? {
        PassAgrees(moves[|moves| - 1].plan, Run(w, before), moves[|moves| - 1].env, ks);
        if Covered(w, ks) {
          PassCovered(moves[|moves| - 1].plan, Run(w, before), moves[|moves| - 1].env, ks);
        }
      } else {
        NothingRemembered(Run(w, moves), ks);
      }
    }
  }

  lemma NothingRemembered(w: World, ks: set<Key>)
    requires w.hashes == map[]
    ensures Agrees(w, ks) && Covered(w, ks)
  {
  }

  /** The agreement needs that nobody else deletes objects: once somebody has deleted an object
      whose digest is remembered it is broken, and creating the object again restores it exactly
      if what is asked for has the remembered digest. */
  lemma ForeignDeletion(w: World, ks: set<Key>, x: Want, a: Answer)
    requires OneKeyPerHash(ks) && Agrees(w, ks)
    requires x.key in ks && HashKey(x.key) in w.hashes
    requires !a.getFails && !a.writeFails
    ensures var v := World(w.objects - {x.key}, w.hashes);
            && !Agrees(v, ks)
            && (Agrees(Reconcile(v, x, a).world, ks) <==> !Stale(w, x))
  {
    var v := World(w.objects - {x.key}, w.hashes);
    assert x.key !in v.objects;
    var u := Reconcile(v, x, a).world;
    assert u.objects[x.key].content == x.content;
    if !Stale(w, x) {
      forall k | k in ks && HashKey(k) in u.hashes
        ensures k in u.objects && u.hashes[HashKey(k)] == Digest(u.objects[k].content)
      {
        if k != x.key {
          assert u.objects[k] == w.objects[k];
        }
      }
    }
  }

  // ---------- a clean pass ----------

  /** The object is there with the content that is asked for. */
  predicate Done(w: World, x: Want) {
    x.key in w.objects && w.objects[x.key].content == x.content
  }

  ghost predicate AllDone(w: World, xs: set<Want>) {
    forall x :: x in xs ==> Done(w, x)
  }

  /** A task that came out clean: its check held, its StatefulSet was not seen waiting. */
  predicate Passed(t: Task, a: Answer) {
    match t
    case Ensure(x) => !Waiting(x, a.status)
    case Check(ok) => ok
  }

  ghost predicate AllPassed(tasks: seq<Task>, env: Env, i: nat) {
    forall j :: 0 <= j < |tasks| ==> Passed(tasks[j], env(i + j))
  }

  lemma {:induction false} CleanTasks(w: World, tasks: seq<Task>, env: Env, i: nat, ks: set<Key>)
    requires OneKeyPerHash(ks) && KeysOf(Wants(tasks)) <= ks && Agrees(w, ks)
    requires RunTasks(w, tasks, env, i).outcome == CLEAN
    ensures AllDone(RunTasks(w, tasks, env, i).world, Wants(tasks))
    decreases |tasks|
  {
    if tasks != [] {
      WantsOfTail(tasks);
      assert KeysOf(Wants(tasks[1..])) <= KeysOf(Wants(tasks));
      var e := RunTask(w, tasks[0], env(i));
      if tasks[0].Ensure? {
        assert tasks[0].want.key in KeysOf(Wants(tasks));
        OneAgrees(w, tasks[0].want, env(i), ks);
      }
      CleanTasks(e.world, tasks[1..], env, i + 1, ks);
      CleanRunsOnlyAdd(e.world, tasks[1..], env, i + 1);
      forall x | x in Wants(tasks) ensures Done(RunTasks(w, tasks, env, i).world, x) {
        if x !in Wants(tasks[1..]) {
          assert Ensure(x) in tasks[..1] && tasks[0] == Ensure(x);
        }
      }
    }
  }

  lemma {:induction false} CleanTasksPassed(w: World, tasks: seq<Task>, env: Env, i: nat)
    requires RunTasks(w, tasks, env, i).outcome == CLEAN
    ensures AllPassed(tasks, env, i)
    decreases |tasks|
  {
    if tasks != [] {
      CleanTasksPassed(RunTask(w, tasks[0], env(i)).world, tasks[1..], env, i + 1);
      forall j | 0 <= j < |tasks| ensures Passed(tasks[j], env(i + j)) {
        if j > 0 {
          assert tasks[j] == tasks[1..][j - 1] && i + 1 + (j - 1) == i + j;
        }
      }
    }
  }

  /** After a pass that returns an empty result and no error, every object the custom resource
      asks for is there with the content it asks for, and in that pass every check held and every
      StatefulSet was seen with all replicas ready and one revision. */
  lemma CleanPassMeansDone(p: Plan, w: World, env: Env, ks: set<Key>)
    requires OneKeyPerHash(ks) && Agrees(w, ks)
    requires forall version: string :: KeysOf(PassWants(p, version)) <= ks
    requires Pass(p, w, env).outcome == CLEAN
    ensures var version := PassVersion(p, w, env);
            && AllDone(Pass(p, w, env).world, PassWants(p, version))
            && AllPassed(p.pre, env, 1)
            && AllPassed(p.post(version), env, 2 + |p.pre|)
  {
    var version := PassVersion(p, w, env);
    assert KeysOf(PassWants(p, version)) == KeysOf(Wants(p.pre)) + KeysOf(Wants(p.post(version)));
    var pre := RunTasks(w, p.pre, env, 1);
    TasksAgree(w, p.pre, env, 1, ks);
    CleanTasks(w, p.pre, env, 1, ks);
    CleanTasksPassed(w, p.pre, env, 1);
    CleanTasks(pre.world, p.post(version), env, 2 + |p.pre|, ks);
    CleanTasksPassed(pre.world, p.post(version), env, 2 + |p.pre|);
    CleanRunsOnlyAdd(pre.world, p.post(version), env, 2 + |p.pre|);
  }

  // ---------- a settled world ----------

  /** The objects are there and their digests are up to date. */
  ghost predicate Settled(w: World, xs: set<Want>) {
    forall x :: x in xs ==> x.key in w.objects && !Stale(w, x)
  }

  lemma {:induction false} SettledTasksDoNothing(w: World, tasks: seq<Task>, env: Env, i: nat)
    requires Settled(w, Wants(tasks))
    ensures RunTasks(w, tasks, env, i).writes == [] && RunTasks(w, tasks, env, i).world == w
    decreases |tasks|
  {
    if tasks != [] {
      WantsOfTail(tasks);
      SettledTasksDoNothing(w, tasks[1..], env, i + 1);
    }
  }

  lemma {:induction false} IdleTasksAreSettled(w: World, tasks: seq<Task>, env: Env, i: nat)
    requires RunTasks(w, tasks, env, i).outcome == CLEAN && RunTasks(w, tasks, env, i).writes == []
    ensures Settled(w, Wants(tasks)) && RunTasks(w, tasks, env, i).world == w
    decreases |tasks|
  {
    if tasks != [] {
      WantsOfTail(tasks);
      IdleTasksAreSettled(w, tasks[1..], env, i + 1);
      forall x | x in Wants(tasks) ensures x.key in w.objects && !Stale(w, x) {
        if x !in Wants(tasks[1..]) {
          assert Ensure(x) in tasks[..1] && tasks[0] == Ensure(x);
        }
      }
    }
  }

  /** A converged world: a pass over it is clean and writes nothing. */
  ghost predicate Converged(p: Plan, w: World, env: Env) {
    VersionReadable(p, env) && Pass(p, w, env) == Effect(w, CLEAN, [])
  }

  /** In a converged world every object is there and every digest is up to date, for the version
      that passes find there. */
  lemma ConvergedIsSettled(p: Plan, w: World, env: Env)
    requires Sound(p) && Converged(p, w, env)
    ensures Settled(w, PassWants(p, SteadyVersion(p.source, w)))
  {
    var version := PassVersion(p, w, env);
    PassVersionIsSteady(p, w, env);
    var pre := RunTasks(w, p.pre, env, 1);
    assert pre.writes == [] && RunTasks(pre.world, p.post(version), env, 2 + |p.pre|).writes == [];
    IdleTasksAreSettled(w, p.pre, env, 1);
    IdleTasksAreSettled(w, p.post(version), env, 2 + |p.pre|);
  }

  /** And conversely passes over a settled world write nothing. */
  lemma SettledPassWritesNothing(p: Plan, w: World, env: Env)
    requires Sound(p) && VersionReadable(p, env)
    requires Settled(w, PassWants(p, SteadyVersion(p.source, w)))
    ensures Pass(p, w, env).writes == [] && Pass(p, w, env).world == w
  {
    SettledTasksDoNothing(w, p.pre, env, 1);
    var version := SteadyVersion(p.source, w);
    SettledTasksDoNothing(w, p.post(version), env, 2 + |p.pre|);
  }

  lemma SettledIsDone(w: World, xs: set<Want>, ks: set<Key>)
    requires Agrees(w, ks) && KeysOf(xs) <= ks && Settled(w, xs)
    ensures AllDone(w, xs)
  {
    forall x | x in xs ensures Done(w, x) {
      assert x.key in KeysOf(xs);
    }
  }
}
