/** What holds of any list of tasks, whatever custom resource it comes from. */
module TaskFacts {
  import opened Kube
  import opened Protocol

  function Wants(tasks: seq<Task>): set<Want> {
    set t <- tasks | t.Ensure? :: t.want
  }

  /** Distinct wanted objects are remembered under distinct hash keys. */
  ghost predicate Consistent(xs: set<Want>) {
    forall x, y :: x in xs && y in xs && HashKey(x.key) == HashKey(y.key) ==> x == y
  }

  lemma WantsOfTail(tasks: seq<Task>)
    requires tasks != []
    ensures Wants(tasks) == Wants(tasks[..1]) + Wants(tasks[1..])
    ensures tasks[0].Ensure? ==> tasks[0].want in Wants(tasks)
  {
    assert tasks == tasks[..1] + tasks[1..];
    assert tasks[0] in tasks;
  }

  lemma WantsOfConcat(a: seq<Task>, b: seq<Task>)
    ensures Wants(a + b) == Wants(a) + Wants(b)
  {
    forall x | x in Wants(a) + Wants(b) ensures x in Wants(a + b) {
      assert Ensure(x) in a + b;
    }
  }

  /** Running two lists one after the other. */
  lemma {:induction false} RunConcat(w: World, a: seq<Task>, b: seq<Task>, env: Env, i: nat)
    ensures var e := RunTasks(w, a, env, i);
            RunTasks(w, a + b, env, i) ==
              if e.outcome != CLEAN then e
              else
                var r := RunTasks(e.world, b, env, i + |a|);
                Effect(r.world, r.outcome, e.writes + r.writes)
    decreases |a|
  {
    hide RunTask;
    if a == [] {
      assert a + b == b;
    } else {
      assert (a + b)[0] == a[0] && (a + b)[1..] == a[1..] + b;
      var e := RunTask(w, a[0], env(i));
      if e.outcome == CLEAN {
        RunConcat(e.world, a[1..], b, env, i + 1);
        var f := RunTasks(e.world, a[1..], env, i + 1);
        if f.outcome == CLEAN {
          var r := RunTasks(f.world, b, env, i + |a|);
          assert e.writes + (f.writes + r.writes) == (e.writes + f.writes) + r.writes;
        }
      }
    }
  }

  // ---------- write discipline ----------

  /** A write after which the pass goes on. */
  predicate Passing(e: Write) {
    e.Created? && !Gated(e.key.kind)
  }

  /** Passing writes, followed by at most one other write if the pass stops there. */
  ghost predicate Disciplined(e: Effect) {
    && (forall j :: 0 <= j < |e.writes| - 1 ==> Passing(e.writes[j]))
    && (e.writes != [] && !Passing(e.writes[|e.writes| - 1]) ==> e.outcome != CLEAN && !e.outcome.failed)
  }

  lemma {:induction false} TasksDisciplined(w: World, tasks: seq<Task>, env: Env, i: nat)
    ensures Disciplined(RunTasks(w, tasks, env, i))
    decreases |tasks|
  {
    if tasks != [] {
      var e := RunTask(w, tasks[0], env(i));
      if e.outcome == CLEAN {
        TasksDisciplined(e.world, tasks[1..], env, i + 1);
      }
    }
  }

  /** No object disappears, and every change of one is a recorded write. */
  ghost predicate ObjectsAccounted(w: World, v: World, writes: seq<Write>) {
    && (forall k :: k in w.objects ==> k in v.objects)
    && (forall k :: k in v.objects && (k !in w.objects || v.objects[k] != w.objects[k]) ==>
          exists j :: 0 <= j < |writes| && writes[j].key == k)
  }

  /** No digest is forgotten, and every change of one is a recorded update. */
  ghost predicate DigestsAccounted(w: World, v: World, writes: seq<Write>) {
    && (forall h :: h in w.hashes ==> h in v.hashes)
    && (forall h :: h in v.hashes && (h !in w.hashes || v.hashes[h] != w.hashes[h]) ==>
          exists j :: 0 <= j < |writes| && writes[j].Updated? && HashKey(writes[j].key) == h)
  }

  /** Every change of an object or digest is one of the recorded writes. */
  ghost predicate Accounted(w: World, e: Effect) {
    ObjectsAccounted(w, e.world, e.writes) && DigestsAccounted(w, e.world, e.writes)
  }

  lemma ObjectsTwice(w: World, u: World, v: World, a: seq<Write>, b: seq<Write>)
    requires ObjectsAccounted(w, u, a) && ObjectsAccounted(u, v, b)
    ensures ObjectsAccounted(w, v, a + b)
  {
    forall k | k in v.objects && (k !in w.objects || v.objects[k] != w.objects[k])
      ensures exists j :: 0 <= j < |a + b| && (a + b)[j].key == k
    {
      if k in u.objects && v.objects[k] == u.objects[k] {
        var j :| 0 <= j < |a| && a[j].key == k;
        assert (a + b)[j].key == k;
      } else {
        var j :| 0 <= j < |b| && b[j].key == k;
        assert (a + b)[|a| + j].key == k;
      }
    }
  }

  lemma DigestsTwice(w: World, u: World, v: World, a: seq<Write>, b: seq<Write>)
    requires DigestsAccounted(w, u, a) && DigestsAccounted(u, v, b)
    ensures DigestsAccounted(w, v, a + b)
  {
    hide HashKey;
    forall h | h in v.hashes && (h !in w.hashes || v.hashes[h] != w.hashes[h])
      ensures exists j :: 0 <= j < |a + b| && (a + b)[j].Updated? && HashKey((a + b)[j].key) == h
    {
      if h in u.hashes && v.hashes[h] == u.hashes[h] {
        var j :| 0 <= j < |a| && a[j].Updated? && HashKey(a[j].key) == h;
        assert (a + b)[j] == a[j];
      } else {
        var j :| 0 <= j < |b| && b[j].Updated? && HashKey(b[j].key) == h;
        assert (a + b)[|a| + j] == b[j];
      }
    }
  }

  lemma AccountedTwice(w: World, a: Effect, b: Effect, outcome: Outcome)
    requires Accounted(w, a) && Accounted(a.world, b)
    ensures Accounted(w, Effect(b.world, outcome, a.writes + b.writes))
  {
    hide ObjectsAccounted, DigestsAccounted;
    ObjectsTwice(w, a.world, b.world, a.writes, b.writes);
    DigestsTwice(w, a.world, b.world, a.writes, b.writes);
  }

  lemma TaskAccounted(w: World, t: Task, a: Answer)
    ensures Accounted(w, RunTask(w, t, a))
  {
    var e := RunTask(w, t, a);
    if e.writes != [] {
      assert e.writes[0].key == t.want.key;
    }
    hide HashKey, CreatedObject, UpdatedObject, Stale, Waiting;
  }

  lemma {:induction false} TasksAccounted(w: World, tasks: seq<Task>, env: Env, i: nat)
    ensures Accounted(w, RunTasks(w, tasks, env, i))
    decreases |tasks|
  {
    if tasks != [] {
      var e := RunTask(w, tasks[0], env(i));
      TaskAccounted(w, tasks[0], env(i));
      hide RunTask, Accounted;
      if e.outcome == CLEAN {
        TasksAccounted(e.world, tasks[1..], env, i + 1);
        AccountedTwice(w, e, RunTasks(e.world, tasks[1..], env, i + 1),
            RunTasks(e.world, tasks[1..], env, i + 1).outcome);
      }
    } else {
      hide HashKey;
    }
  }

  /** An object that is changed has its digest remembered. */
  lemma {:induction false} ChangedIsRemembered(w: World, tasks: seq<Task>, env: Env, i: nat)
    ensures var v := RunTasks(w, tasks, env, i).world;
            && w.hashes.Keys <= v.hashes.Keys
            && forall k :: k in w.objects ==> k in v.objects && (v.objects[k] == w.objects[k] || HashKey(k) in v.hashes)
    decreases |tasks|
  {
    if tasks != [] {
      var e := RunTask(w, tasks[0], env(i));
      if e.outcome == CLEAN {
        ChangedIsRemembered(e.world, tasks[1..], env, i + 1);
      }
    }
  }

  /** Without a write nothing changes. */
  lemma NoWriteNoChange(w: World, e: Effect)
    requires Accounted(w, e) && e.writes == []
    ensures e.world == w
  {
    assert e.world.objects == w.objects;
    assert e.world.hashes == w.hashes;
  }

  /** The second world has everything the first has, and besides only unannotated services and
      config maps with a content that is asked for; no digest differs. */
  ghost predicate OnlyAdds(w: World, v: World, xs: set<Want>) {
    && v.hashes == w.hashes
    && (forall k :: k in w.objects ==> k in v.objects && v.objects[k] == w.objects[k])
    && (forall k :: k in v.objects && k !in w.objects ==>
          !Gated(k.kind) && !v.objects[k].annotated && exists x ::
              x in xs && x.key == k && v.objects[k].content == x.content)
  }

  lemma CleanTaskOnlyAdds(w: World, t: Task, a: Answer, xs: set<Want>)
    requires RunTask(w, t, a).outcome == CLEAN && (t.Ensure? ==> t.want in xs)
    ensures OnlyAdds(w, RunTask(w, t, a).world, xs)
  {
  }

  lemma OnlyAddsTwice(w: World, u: World, v: World, xs: set<Want>, ys: set<Want>)
    requires OnlyAdds(w, u, xs) && OnlyAdds(u, v, ys) && ys <= xs
    ensures OnlyAdds(w, v, xs)
  {
  }

  /** While tasks come out clean they only add services and config maps, and no digest. */
  lemma {:induction false} CleanRunsOnlyAdd(w: World, tasks: seq<Task>, env: Env, i: nat)
    requires RunTasks(w, tasks, env, i).outcome == CLEAN
    ensures OnlyAdds(w, RunTasks(w, tasks, env, i).world, Wants(tasks))
    decreases |tasks|
  {
    if tasks != [] {
      var e := RunTask(w, tasks[0], env(i));
      WantsOfTail(tasks);
      hide OnlyAdds, RunTask, Wants;
      CleanTaskOnlyAdds(w, tasks[0], env(i), Wants(tasks));
      CleanRunsOnlyAdd(e.world, tasks[1..], env, i + 1);
      OnlyAddsTwice(w, e.world, RunTasks(w, tasks, env, i).world, Wants(tasks), Wants(tasks[1..]));
    }
  }

  // ---------- conservation of work ----------

  ghost function Absent(w: World, xs: set<Want>): set<Want> {
    set x | x in xs && x.key !in w.objects
  }

  ghost function Outdated(w: World, xs: set<Want>): set<Want> {
    set x | x in xs && Stale(w, x)
  }

  /** Work left: one for every absent object and one for every digest that is not up to date. */
  ghost function Work(w: World, xs: set<Want>): nat {
    |Absent(w, xs)| + |Outdated(w, xs)|
  }

  ghost function KeysOf(xs: set<Want>): set<Key> {
    set x <- xs :: x.key
  }

  /** How many of the writes are to objects of `xs`. */
  ghost function WritesTo(writes: seq<Write>, xs: set<Want>): nat {
    if writes == [] then 0
    else (if writes[0].key in KeysOf(xs) then 1 else 0) + WritesTo(writes[1..], xs)
  }

  lemma {:induction false} WritesToConcat(a: seq<Write>, b: seq<Write>, xs: set<Want>)
    ensures WritesTo(a + b, xs) == WritesTo(a, xs) + WritesTo(b, xs)
    decreases |a|
  {
    if a == [] {
      assert a + b == b;
    } else {
      assert (a + b)[1..] == a[1..] + b;
      WritesToConcat(a[1..], b, xs);
    }
  }

  lemma CreateIsOneUnit(w: World, x: Want, a: Answer, xs: set<Want>, all: set<Want>)
    requires xs <= all && Consistent(all) && x in all && x.key !in w.objects
    ensures var v := World(w.objects[x.key := CreatedObject(x, a)], w.hashes);
            Work(v, xs) + (if x in xs then 1 else 0) == Work(w, xs)
  {
    var v := World(w.objects[x.key := CreatedObject(x, a)], w.hashes);
    assert Outdated(v, xs) == Outdated(w, xs);
    if x in xs {
      assert Absent(w, xs) == Absent(v, xs) + {x};
    } else {
      assert Absent(w, xs) == Absent(v, xs);
    }
  }

  lemma UpdateIsOneUnit(w: World, x: Want, o: Stored, xs: set<Want>, all: set<Want>)
    requires xs <= all && Consistent(all) && x in all && x.key in w.objects && Stale(w, x)
    ensures var v := World(w.objects[x.key := o], w.hashes[HashKey(x.key) := Digest(x.content)]);
            Work(v, xs) + (if x in xs then 1 else 0) == Work(w, xs)
  {
    var v := World(w.objects[x.key := o], w.hashes[HashKey(x.key) := Digest(x.content)]);
    assert Absent(v, xs) == Absent(w, xs);
    forall y | y in xs && y != x ensures Stale(v, y) == Stale(w, y) {
      assert HashKey(y.key) != HashKey(x.key);
    }
    if x in xs {
      assert Outdated(w, xs) == Outdated(v, xs) + {x};
    } else {
      assert Outdated(w, xs) == Outdated(v, xs);
    }
  }

  lemma OneWriteOneUnit(w: World, x: Want, a: Answer, xs: set<Want>, all: set<Want>)
    requires xs <= all && Consistent(all) && x in all
    ensures var e := Reconcile(w, x, a); Work(e.world, xs) + WritesTo(e.writes, xs) == Work(w, xs)
  {
    var e := Reconcile(w, x, a);
    if e.writes != [] {
      assert e.writes[1..] == [];
      assert x in xs <==> x.key in KeysOf(xs);
      if x.key !in w.objects {
        CreateIsOneUnit(w, x, a, xs, all);
      } else {
        UpdateIsOneUnit(w, x, UpdatedObject(w, x, a), xs, all);
      }
    }
  }

  /** Every write does exactly one unit of work, whatever fails and whatever the statuses are. */
  lemma {:induction false} WorkIsConserved(w: World, tasks: seq<Task>, env: Env, i: nat, xs: set<Want>, all: set<Want>)
    requires xs <= all && Consistent(all) && Wants(tasks) <= all
    ensures var e := RunTasks(w, tasks, env, i); Work(e.world, xs) + WritesTo(e.writes, xs) == Work(w, xs)
    decreases |tasks|
  {
    if tasks != [] {
      WantsOfTail(tasks);
      var e := RunTask(w, tasks[0], env(i));
      if tasks[0].Ensure? {
        OneWriteOneUnit(w, tasks[0].want, env(i), xs, all);
      }
      if e.outcome == CLEAN {
        WorkIsConserved(e.world, tasks[1..], env, i + 1, xs, all);
        WritesToConcat(e.writes, RunTasks(e.world, tasks[1..], env, i + 1).writes, xs);
      }
    }
  }
}
