/** The address of a service never changes. */
module Addresses {
  import opened Kube
  import opened Resources
  import opened Protocol
  import opened TaskFacts
  import opened Passes
  import opened Plans
  import opened Names

  /** Whoever asks for the service leaves its address open. */
  ghost predicate Open(k: Key, xs: set<Want>) {
    forall x :: x in xs && x.key == k ==> x.content.ServiceContent? && x.content.spec.clusterIP == ""
  }

  ghost predicate SameAddress(k: Key, w: World, v: World) {
    k in w.objects ==> k in v.objects && v.objects[k].clusterIP == w.objects[k].clusterIP
  }

  lemma {:induction false} TasksKeepAddress(w: World, tasks: seq<Task>, env: Env, i: nat, k: Key)
    requires Open(k, Wants(tasks))
    ensures SameAddress(k, w, RunTasks(w, tasks, env, i).world)
    decreases |tasks|
  {
    if tasks != [] {
      WantsOfTail(tasks);
      var e := RunTask(w, tasks[0], env(i));
      if e.outcome == CLEAN {
        TasksKeepAddress(e.world, tasks[1..], env, i + 1, k);
      }
    }
  }

  lemma PassKeepsAddress(p: Plan, w: World, env: Env, k: Key)
    requires forall version: string :: Open(k, PassWants(p, version))
    ensures SameAddress(k, w, Pass(p, w, env).world)
  {
    var version := PassVersion(p, w, env);
    assert Open(k, PassWants(p, version));
    TasksKeepAddress(w, p.pre, env, 1, k);
    TasksKeepAddress(RunTasks(w, p.pre, env, 1).world, p.post(version), env, 2 + |p.pre|, k);
  }

  /** Passes over custom resources none of which is called like the service, and restarts. */
  ghost predicate OnlyPods(m: Move, k: Key) {
    m.Reconciled? ==> exists cr :: m.plan == PlanOf(cr) && ClusterService(cr).key != k
  }

  lemma PodServicesAreOpen(cr: CR, k: Key, version: string)
    requires k.kind.ServiceKind? && ClusterService(cr).key != k
    ensures Open(k, PassWants(PlanOf(cr), version))
  {
    forall x | x in PassWants(PlanOf(cr), version) && x.key == k
      ensures x.content.ServiceContent? && x.content.spec.clusterIP == ""
    {
      PassWantsAre(cr, version, x);
      KindOfWants(cr, version, x);
      var d :| d in Components(cr) && (WorkloadWant(cr, d, version, x) || PodWant(cr, d, x));
    }
  }

  /** A pod service keeps the address it was given, although its spec leaves it open and every
      change replaces the whole object: over edits, failures and restarts. */
  lemma {:induction false} PodServiceKeepsItsAddress(w: World, moves: seq<Move>, k: Key)
    requires k.kind.ServiceKind? && forall m :: m in moves ==> OnlyPods(m, k)
    ensures SameAddress(k, w, Run(w, moves))
    decreases |moves|
  {
    if moves != [] {
      var before, last := moves[..|moves| - 1], moves[|moves| - 1];
      assert last in moves;
      PodServiceKeepsItsAddress(w, before, k);
      if last.Reconciled? {
        var cr :| last.plan == PlanOf(cr) && ClusterService(cr).key != k;
        forall version: string ensures Open(k, PassWants(last.plan, version)) {
          PodServicesAreOpen(cr, k, version);
        }
        PassKeepsAddress(last.plan, Run(w, before), last.env, k);
      }
    }
  }
}
