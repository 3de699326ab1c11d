/** Where the config versions on pod templates come from. */
module Provenance {
  import opened Kube
  import opened Protocol
  import opened TaskFacts
  import opened Passes

  /** The resource version, after `n` moves, of an annotated ConfigMap. */
  function AnnotatedVersionAt(w: World, moves: seq<Move>, n: nat, k: Key): string
    requires n <= |moves|
  {
    AnnotatedVersion(Run(w, moves[..n]), k)
  }

  /** At some moment of the run so far, one of these ConfigMaps was annotated and had this version. */
  ghost predicate WasAnnotated(w: World, moves: seq<Move>, configs: set<Key>, version: string) {
    exists n, k :: 0 <= n <= |moves| && k in configs && AnnotatedVersionAt(w, moves, n, k) == version
  }

  /** Every StatefulSet among `sets` is unversioned or has a version with such a past. */
  ghost predicate Accountable(w: World, moves: seq<Move>, sets: set<Key>, configs: set<Key>) {
    forall k :: k in sets ==>
      StampOf(Run(w, moves), k) == "" || WasAnnotated(w, moves, configs, StampOf(Run(w, moves), k))
  }

  /** A restart, a pass that has none of these StatefulSets, or a pass of a cluster or tenant that
      takes the version from one of these ConfigMaps or StatefulSets. */
  ghost predicate Versions(m: Move, sets: set<Key>, configs: set<Key>) {
    m.Reconciled? ==>
      && Sound(m.plan)
      && ((!m.plan.source.FromCreate?
           && m.plan.source.key in (if m.plan.source.FromStatefulSet? then sets else configs))
          || forall version: string, x :: x in Wants(m.plan.post(version)) ==> x.key !in sets)
  }

  lemma AnnotatedStays(w: World, moves: seq<Move>, configs: set<Key>, version: string)
    requires moves != [] && WasAnnotated(w, moves[..|moves| - 1], configs, version)
    ensures WasAnnotated(w, moves, configs, version)
  {
    var before := moves[..|moves| - 1];
    var n, k :| 0 <= n <= |before| && k in configs && AnnotatedVersionAt(w, before, n, k) == version;
    assert before[..n] == moves[..n];
    assert AnnotatedVersionAt(w, moves, n, k) == version;
  }

  /** A StatefulSet's version after a pass: the one it had, or the one the pass found. */
  lemma StampAfterPass(p: Plan, w: World, env: Env, k: Key)
    requires Sound(p) && k.kind.StatefulSetKind?
    ensures var v := Pass(p, w, env).world;
            || StampOf(v, k) == StampOf(w, k)
            || ((exists x :: x in Wants(p.post(PassVersion(p, w, env))) && x.key == k)
                && StampOf(v, k) == PassVersion(p, w, env))
  {
    var pre := RunTasks(w, p.pre, env, 1);
    var version := PassVersion(p, w, env);
    ChangesAreWanted(w, p.pre, env, 1);
    TasksAccounted(w, p.pre, env, 1);
    assert k in pre.world.objects <==> k in w.objects;
    assert StampOf(pre.world, k) == StampOf(w, k);
    if pre.outcome == CLEAN {
      ChangesAreWanted(pre.world, p.post(version), env, 2 + |p.pre|);
      TasksAccounted(pre.world, p.post(version), env, 2 + |p.pre|);
      assert SoundPost(p.source, p.post(version), version);
    }
  }

  /** The version a pass finds was annotated, or on the source's StatefulSet, before the pass. */
  lemma VersionFound(p: Plan, w: World, env: Env)
    requires Sound(p) && !p.source.FromCreate?
    ensures PassVersion(p, w, env) == "" || PassVersion(p, w, env) == SteadyVersion(p.source, w)
  {
    var pre := RunTasks(w, p.pre, env, 1);
    if pre.outcome == CLEAN {
      CleanRunsOnlyAdd(w, p.pre, env, 1);
    }
  }

  /** Across runs that switch the rollout label freely, edit the custom resources, fail and
      restart: every config version on a cluster's or tenant's StatefulSet was, at some earlier
      moment, the resource version of a ConfigMap while it carried the update-time annotation. */
  lemma {:induction false} VersionProvenance(w: World, moves: seq<Move>, sets: set<Key>, configs: set<Key>)
    requires forall k :: k in sets ==> k.kind.StatefulSetKind? && StampOf(w, k) == ""
    requires forall m :: m in moves ==> Versions(m, sets, configs)
    ensures Accountable(w, moves, sets, configs)
    decreases |moves|
  {
    if moves != [] {
      var before, last := moves[..|moves| - 1], moves[|moves| - 1];
      VersionProvenance(w, before, sets, configs);
      assert last in moves;
      forall k | k in sets
        ensures StampOf(Run(w, moves), k) == "" || WasAnnotated(w, moves, configs, StampOf(Run(w, moves), k))
      {
        var stamp := StampOf(Run(w, moves), k);
        if WasAnnotated(w, before, configs, stamp) {
          AnnotatedStays(w, moves, configs, stamp);
        }
        if last.Reconciled? {
          var here := Run(w, before);
          StampAfterPass(last.plan, here, last.env, k);
          if stamp != StampOf(here, k) && stamp != "" {
            VersionFound(last.plan, here, last.env);
            assert stamp == SteadyVersion(last.plan.source, here);
            if last.plan.source.FromConfigMap? {
              assert moves[..|before|] == before;
              assert AnnotatedVersionAt(w, moves, |before|, last.plan.source.key) == stamp;
            }
          }
        }
      }
    }
  }
}
