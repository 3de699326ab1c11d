/** Components come up one after the other. */
module Staging {
  import opened Kube
  import opened Protocol
  import opened TaskFacts
  import opened Passes

  /** A StatefulSet or disruption budget that a pass reads here and goes past: there, up to date
      and, if it is a StatefulSet, fully ready. */
  predicate Seen(w: World, t: Task, a: Answer) {
    match t
    case Check(ok) => ok
    case Ensure(x) => !Gated(x.key.kind) || (!a.getFails && x.key in w.objects && !Stale(w, x) && !Waiting(x, a.status))
  }

  /** The task at which a list of tasks stops, or its length. */
  function Stop(w: World, tasks: seq<Task>, env: Env, i: nat): (n: nat)
    ensures n <= |tasks|
    decreases |tasks|
  {
    if tasks == [] then 0
    else
      var e := RunTask(w, tasks[0], env(i));
      if e.outcome != CLEAN then 0 else 1 + Stop(e.world, tasks[1..], env, i + 1)
  }

  /** Creating a service or config map takes nothing away from what was seen of the others. */
  lemma SeenBefore(w: World, t: Task, a: Answer, u: Task, b: Answer)
    requires RunTask(w, t, a).outcome == CLEAN && Seen(RunTask(w, t, a).world, u, b)
    ensures Seen(w, u, b)
  {
  }

  lemma {:induction false} SeenUntilStop(w: World, tasks: seq<Task>, env: Env, i: nat)
    ensures forall m :: 0 <= m < Stop(w, tasks, env, i) ==> Seen(w, tasks[m], env(i + m))
    decreases |tasks|
  {
    if tasks != [] {
      var e := RunTask(w, tasks[0], env(i));
      if e.outcome == CLEAN {
        SeenUntilStop(e.world, tasks[1..], env, i + 1);
        forall m | 0 <= m < Stop(w, tasks, env, i) ensures Seen(w, tasks[m], env(i + m)) {
          if m > 0 {
            assert Seen(e.world, tasks[1..][m - 1], env(i + 1 + (m - 1)));
            SeenBefore(w, tasks[0], env(i), tasks[m], env(i + m));
          }
        }
      }
    }
  }

  /** The write with which a list of tasks ends is the one of the task at which it stops. */
  lemma {:induction false} StopIsWritten(w: World, tasks: seq<Task>, env: Env, i: nat)
    ensures var e, n := RunTasks(w, tasks, env, i), Stop(w, tasks, env, i);
            e.writes != [] && !Passing(e.writes[|e.writes| - 1]) ==>
              n < |tasks| && tasks[n].Ensure? && tasks[n].want.key == e.writes[|e.writes| - 1].key
    decreases |tasks|
  {
    if tasks != [] {
      hide CreatedObject, UpdatedObject, Stale;
      var e := RunTask(w, tasks[0], env(i));
      if e.outcome == CLEAN {
        StopIsWritten(e.world, tasks[1..], env, i + 1);
      }
    }
  }

  lemma {:induction false} UngatedWrites(w: World, tasks: seq<Task>, env: Env, i: nat)
    requires forall x :: x in Wants(tasks) ==> !Gated(x.key.kind)
    ensures var e := RunTasks(w, tasks, env, i); e.writes != [] ==> !Gated(e.writes[|e.writes| - 1].key.kind)
    decreases |tasks|
  {
    if tasks != [] {
      WantsOfTail(tasks);
      UngatedWrites(RunTask(w, tasks[0], env(i)).world, tasks[1..], env, i + 1);
    }
  }

  /** The last write is to a StatefulSet or disruption budget. */
  predicate EndsGated(writes: seq<Write>) {
    writes != [] && Gated(writes[|writes| - 1].key.kind)
  }

  /** The tasks stop at number `n`, which is for the object of the last write, and each of the
      tasks before it has been seen. */
  ghost predicate StopsAt(w: World, tasks: seq<Task>, env: Env, i: nat, writes: seq<Write>, n: nat) {
    && writes != [] && n < |tasks| && tasks[n].Ensure? && tasks[n].want.key == writes[|writes| - 1].key
    && forall m :: 0 <= m < n ==> Seen(w, tasks[m], env(i + m))
  }

  lemma GatedStop(w: World, tasks: seq<Task>, env: Env, i: nat)
    requires EndsGated(RunTasks(w, tasks, env, i).writes)
    ensures StopsAt(w, tasks, env, i, RunTasks(w, tasks, env, i).writes, Stop(w, tasks, env, i))
  {
    hide RunTasks, Stop, Seen;
    SeenUntilStop(w, tasks, env, i);
    StopIsWritten(w, tasks, env, i);
  }

  /** A write to a StatefulSet or disruption budget comes after the version has been read. */
  lemma GatedWriteIsLate(p: Plan, w: World, env: Env)
    requires Sound(p) && EndsGated(Pass(p, w, env).writes)
    ensures var pre := RunTasks(w, p.pre, env, 1);
            var post := RunTasks(pre.world, p.post(PassVersion(p, w, env)), env, 2 + |p.pre|);
            && pre.outcome == CLEAN && EndsGated(post.writes)
            && Pass(p, w, env).writes[|Pass(p, w, env).writes| - 1] == post.writes[|post.writes| - 1]
  {
    hide RunTasks, VersionRead;
    var pre := RunTasks(w, p.pre, env, 1);
    UngatedWrites(w, p.pre, env, 1);
    LastWrite(pre.writes, RunTasks(pre.world, p.post(PassVersion(p, w, env)), env, 2 + |p.pre|).writes);
  }

  /** A pass that writes a StatefulSet or disruption budget has in this same pass, whatever failed
      before and whatever the statuses are now, seen every earlier one there, up to date and ready,
      and nothing after it. */
  lemma WritesOnlyAfterSeen(p: Plan, w: World, env: Env) returns (n: nat)
    requires Sound(p) && EndsGated(Pass(p, w, env).writes)
    ensures RunTasks(w, p.pre, env, 1).outcome == CLEAN
    ensures StopsAt(RunTasks(w, p.pre, env, 1).world, p.post(PassVersion(p, w, env)), env, 2 + |p.pre|,
                    Pass(p, w, env).writes, n)
  {
    hide RunTasks, Stop, Seen, Pass, PassVersion;
    var pre := RunTasks(w, p.pre, env, 1);
    var tasks := p.post(PassVersion(p, w, env));
    GatedWriteIsLate(p, w, env);
    GatedStop(pre.world, tasks, env, 2 + |p.pre|);
    n := Stop(pre.world, tasks, env, 2 + |p.pre|);
  }

  lemma LastWrite(a: seq<Write>, b: seq<Write>)
    ensures b != [] ==> (a + b)[|a + b| - 1] == b[|b| - 1]
    ensures b == [] ==> a + b == a
  {
  }

  // ---------- bring-up over whole runs ----------

  /** The StatefulSets of a list of tasks, in order. */
  function SetsOf(tasks: seq<Task>): seq<Key> {
    if tasks == [] then []
    else
      (if tasks[0].Ensure? && tasks[0].want.key.kind.StatefulSetKind? then [tasks[0].want.key] else [])
      + SetsOf(tasks[1..])
  }

  lemma {:induction false} SetsOfConcat(a: seq<Task>, b: seq<Task>)
    ensures SetsOf(a + b) == SetsOf(a) + SetsOf(b)
    decreases |a|
  {
    if a == [] {
      assert a + b == b;
    } else {
      assert (a + b)[0] == a[0] && (a + b)[1..] == a[1..] + b;
      SetsOfConcat(a[1..], b);
    }
  }

  lemma {:induction false} OnlyItsSets(w: World, tasks: seq<Task>, env: Env, i: nat)
    ensures forall k: Key :: k.kind.StatefulSetKind? && k in RunTasks(w, tasks, env, i).world.objects ==>
              k in w.objects || k in SetsOf(tasks)
    decreases |tasks|
  {
    if tasks != [] {
      var e := RunTask(w, tasks[0], env(i));
      if e.outcome == CLEAN {
        OnlyItsSets(e.world, tasks[1..], env, i + 1);
      }
    }
  }

  /** The StatefulSets that exist are the first ones of the order. */
  ghost predicate Prefix(w: World, order: seq<Key>) {
    forall a, b :: 0 <= a < b < |order| && order[b] in w.objects ==> order[a] in w.objects
  }

  ghost predicate Distinct(order: seq<Key>) {
    forall a, b :: 0 <= a < b < |order| ==> order[a] != order[b]
  }

  /** One task that is not for a StatefulSet of the order, or for the next one. */
  lemma OneTaskKeepsPrefix(w: World, t: Task, a: Answer, order: seq<Key>, c: nat)
    requires Distinct(order) && (forall k :: k in order ==> k.kind.StatefulSetKind?) && Prefix(w, order)
    requires c <= |order| && forall n :: 0 <= n < c ==> order[n] in w.objects
    requires t.Ensure? && t.want.key.kind.StatefulSetKind? ==> c < |order| && t.want.key == order[c]
    ensures var e := RunTask(w, t, a);
            && Prefix(e.world, order)
            && (forall n :: 0 <= n < c ==> order[n] in e.world.objects)
            && (t.Ensure? && t.want.key.kind.StatefulSetKind? && e.outcome == CLEAN ==> order[c] in e.world.objects)
  {
    var e := RunTask(w, t, a);
    assert forall k: Key :: k in e.world.objects ==> k in w.objects || (t.Ensure? && k == t.want.key);
    forall m, n | 0 <= m < n < |order| && order[n] in e.world.objects ensures order[m] in e.world.objects {
      assert order[n] in order;
      if order[n] !in w.objects {
        assert order[n] == order[c];
      }
    }
  }

  lemma {:induction false} TasksKeepPrefix(w: World, tasks: seq<Task>, env: Env, i: nat, order: seq<Key>, c: nat)
    requires Distinct(order) && (forall k :: k in order ==> k.kind.StatefulSetKind?) && Prefix(w, order)
    requires c <= |order| && SetsOf(tasks) == order[c..]
    requires forall n :: 0 <= n < c ==> order[n] in w.objects
    ensures Prefix(RunTasks(w, tasks, env, i).world, order)
    decreases |tasks|
  {
    if tasks != [] {
      var e := RunTask(w, tasks[0], env(i));
      var next := if tasks[0].Ensure? && tasks[0].want.key.kind.StatefulSetKind? then c + 1 else c;
      if next > c {
        assert order[c] == order[c..][0] == tasks[0].want.key;
      }
      OneTaskKeepsPrefix(w, tasks[0], env(i), order, c);
      assert SetsOf(tasks[1..]) == order[next..];
      if e.outcome == CLEAN {
        TasksKeepPrefix(e.world, tasks[1..], env, i + 1, order, next);
      }
    }
  }

  /** A move of a run in which only these passes touch the StatefulSets of the order: a restart, a
      pass that brings up exactly these in this order, or a pass that has none of them. */
  ghost predicate Stages(m: Move, order: seq<Key>) {
    m.Reconciled? ==>
      && Sound(m.plan)
      && forall version: string ::
           || SetsOf(m.plan.post(version)) == order
           || forall k :: k in SetsOf(m.plan.post(version)) ==> k !in order
  }

  lemma PassKeepsPrefix(p: Plan, w: World, env: Env, order: seq<Key>)
    requires Distinct(order) && (forall k :: k in order ==> k.kind.StatefulSetKind?)
    requires Prefix(w, order) && Stages(Reconciled(p, env), order)
    ensures Prefix(Pass(p, w, env).world, order)
  {
    var pre := RunTasks(w, p.pre, env, 1);
    var version := PassVersion(p, w, env);
    TasksAccounted(w, p.pre, env, 1);
    ChangesAreWanted(w, p.pre, env, 1);
    assert forall k: Key :: k.kind.StatefulSetKind? ==> (k in pre.world.objects <==> k in w.objects);
    assert Prefix(pre.world, order) by {
      forall a, b | 0 <= a < b < |order| && order[b] in pre.world.objects ensures order[a] in pre.world.objects {
        assert order[a] in order && order[b] in order;
      }
    }
    if SetsOf(p.post(version)) == order {
      assert order[0..] == order;
      TasksKeepPrefix(pre.world, p.post(version), env, 2 + |p.pre|, order, 0);
    } else {
      OnlyItsSets(pre.world, p.post(version), env, 2 + |p.pre|);
      TasksAccounted(pre.world, p.post(version), env, 2 + |p.pre|);
      var v := RunTasks(pre.world, p.post(version), env, 2 + |p.pre|).world;
      forall a, b | 0 <= a < b < |order| && order[b] in v.objects ensures order[a] in v.objects {
        assert order[b] in order;
        assert order[b] in pre.world.objects;
      }
    }
  }

  /** In every reachable state the StatefulSets that exist are a prefix of the bring-up order:
      despite edits that keep the components, failures, restarts and any change of status. */
  lemma {:induction false} StagedBringUp(w: World, moves: seq<Move>, order: seq<Key>)
    requires Distinct(order) && (forall k :: k in order ==> k.kind.StatefulSetKind?)
    requires Prefix(w, order)
    requires forall m :: m in moves ==> Stages(m, order)
    ensures Prefix(Run(w, moves), order)
    decreases |moves|
  {
    if moves != [] {
      var before, last := moves[..|moves| - 1], moves[|moves| - 1];
      StagedBringUp(w, before, order);
      assert last in moves;
      if last.Reconciled? {
        PassKeepsPrefix(last.plan, Run(w, before), last.env, order);
      }
    }
  }
}
