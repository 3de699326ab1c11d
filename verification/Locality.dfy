/** What a custom resource's passes do to its own objects does not depend on others: a run next to
    passes of other custom resources looks, on its own objects, like the run of its own passes. */
module Locality {
  import opened Kube
  import opened Protocol
  import opened TaskFacts
  import opened Passes
  import opened Convergence
  import opened Interleaving

  /** The custom resource of a plan has no object and no hash key in common with these objects. */
  ghost predicate Foreign(ks: set<Key>, p: Plan) {
    && p.source.key !in ks
    && forall version: string, x, k :: x in PassWants(p, version) && k in ks ==> HashKey(x.key) != HashKey(k)
  }

  lemma OthersAgree(w: World, e: Effect, ks: set<Key>, ls: set<Key>)
    requires Accounted(w, e) && WritesWithin(e.writes, ls)
    requires forall k, l :: k in ks && l in ls ==> HashKey(k) != HashKey(l)
    ensures AgreeOn(w, e.world, ks)
  {
    hide HashKey;
  }

  /** A pass leaves the objects and digests of others alone. */
  lemma PassLeavesOthers(p: Plan, w: World, env: Env, ks: set<Key>)
    requires Foreign(ks, p)
    ensures AgreeOn(w, Pass(p, w, env).world, ks)
  {
    var version := PassVersion(p, w, env);
    PassAccounted(p, w, env);
    PassWritesAreWanted(p, w, env);
    forall k, l | k in ks && l in KeysOf(PassWants(p, version)) ensures HashKey(k) != HashKey(l) {
      var x :| x in PassWants(p, version) && x.key == l;
    }
    hide Pass, PassWants, PassVersion, HashKey, Accounted, KeysOf;
    OthersAgree(w, Pass(p, w, env), ks, KeysOf(PassWants(p, version)));
  }

  lemma {:induction false} SoloIsLocal(p: Proc, w: World, v: World, n: nat, ks: set<Key>)
    requires Inside(p, ks) && AgreeOn(w, v, ks)
    ensures Solo(p, w, n).proc == Solo(p, v, n).proc && Inside(Solo(p, w, n).proc, ks)
    ensures AgreeOn(Solo(p, w, n).world, Solo(p, v, n).world, ks)
    decreases n
  {
    hide Step, Inside, AgreeOn;
    if n > 0 {
      SoloIsLocal(p, w, v, n - 1, ks);
      StepIsLocal(Solo(p, w, n - 1).proc, Solo(p, w, n - 1).world, Solo(p, v, n - 1).world, ks);
    }
  }

  /** A pass depends on its own objects and digests only. */
  lemma PassIsLocal(p: Plan, w: World, v: World, env: Env, ks: set<Key>)
    requires Owns(ks, p) && AgreeOn(w, v, ks)
    ensures var e, f := Pass(p, w, env), Pass(p, v, env);
            e.outcome == f.outcome && e.writes == f.writes && AgreeOn(e.world, f.world, ks)
  {
    var q := Start(p, env);
    assert Inside(q, ks);
    hide Pass, Solo, Step, Inside, AgreeOn, Owns;
    var m := SoloPass(p, env, w);
    var n := SoloPass(p, env, v);
    SoloIsLocal(q, w, v, m, ks);
    SameEnd(q, v, m, n);
  }

  lemma OwnPassStays(p: Plan, w: World, env: Env, ks: set<Key>)
    requires Owns(ks, p)
    ensures SameOutside(w, Pass(p, w, env).world, ks)
  {
    PassAccounted(p, w, env);
    PassWritesAreWanted(p, w, env);
    assert KeysOf(PassWants(p, PassVersion(p, w, env))) <= ks;
    hide Pass, PassWants, PassVersion, HashKey;
  }

  // ---------- runs ----------

  /** A restart, a pass that has to do with these objects only, or one of another custom resource. */
  ghost predicate Beside(moves: seq<Move>, ks: set<Key>) {
    forall m :: m in moves && m.Reconciled? ==> Owns(ks, m.plan) || Foreign(ks, m.plan)
  }

  ghost predicate OwnMove(m: Move, ks: set<Key>) {
    m.Reconciled? ==> Owns(ks, m.plan)
  }

  /** The moves that have to do with these objects. */
  ghost function OwnMoves(moves: seq<Move>, ks: set<Key>): seq<Move> {
    if moves == [] then []
    else
      var last := moves[|moves| - 1];
      OwnMoves(moves[..|moves| - 1], ks) + if OwnMove(last, ks) then [last] else []
  }

  lemma {:induction false} OwnMovesAre(moves: seq<Move>, ks: set<Key>)
    ensures forall m :: m in OwnMoves(moves, ks) ==> m in moves && OwnMove(m, ks)
    decreases |moves|
  {
    if moves != [] {
      OwnMovesAre(moves[..|moves| - 1], ks);
      hide OwnMove;
    }
  }

  lemma ForgetAgrees(w: World, v: World, ks: set<Key>)
    requires AgreeOn(w, v, ks)
    ensures AgreeOn(Forget(w), Forget(v), ks)
  {
  }

  lemma AgreeTwice(w: World, v: World, u: World, ks: set<Key>)
    requires AgreeOn(w, v, ks) && AgreeOn(w, u, ks)
    ensures AgreeOn(v, u, ks)
  {
    hide HashKey;
  }

  lemma RunOneMore(w: World, moves: seq<Move>, m: Move)
    ensures Run(w, moves + [m]) == Apply(Run(w, moves), m)
  {
    assert (moves + [m])[..|moves + [m]| - 1] == moves;
  }

  /** On its own objects and digests a run next to passes of other custom resources ends like the run
      of its own passes and the restarts. */
  lemma {:induction false} RunProjects(w: World, moves: seq<Move>, ks: set<Key>)
    requires Beside(moves, ks)
    ensures AgreeOn(Run(w, moves), Run(w, OwnMoves(moves, ks)), ks)
    decreases |moves|
  {
    hide AgreeOn, Owns, Foreign, Pass;
    Unmoved(w, ks);
    if moves != [] {
      var before, last := moves[..|moves| - 1], moves[|moves| - 1];
      assert last in moves;
      RunProjects(w, before, ks);
      var here, own := Run(w, before), Run(w, OwnMoves(before, ks));
      RunOneMore(w, OwnMoves(before, ks), last);
      if last.Restarted? {
        ForgetAgrees(here, own, ks);
      } else if Owns(ks, last.plan) {
        PassIsLocal(last.plan, here, own, last.env, ks);
      } else {
        PassLeavesOthers(last.plan, here, last.env, ks);
        assert OwnMoves(before, ks) + [] == OwnMoves(before, ks);
        AgreeTwice(here, Run(w, moves), own, ks);
      }
    }
  }

  /** And a pass after it comes to the same, with the same writes. */
  lemma NextPassProjects(w: World, moves: seq<Move>, p: Plan, env: Env, ks: set<Key>)
    requires Beside(moves, ks) && Owns(ks, p)
    ensures var e, f := Pass(p, Run(w, moves), env), Pass(p, Run(w, OwnMoves(moves, ks)), env);
            e.outcome == f.outcome && e.writes == f.writes && AgreeOn(e.world, f.world, ks)
  {
    hide Pass, AgreeOn, Owns;
    RunProjects(w, moves, ks);
    PassIsLocal(p, Run(w, moves), Run(w, OwnMoves(moves, ks)), env, ks);
  }
}
