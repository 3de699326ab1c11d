/** The guarantees hold next to other custom resources: in runs that also hold passes, restarts and
    failures of any others that share no object and no hash key. */
module Together {
  import opened Kube
  import opened Resources
  import opened Protocol
  import opened TaskFacts
  import opened Passes
  import opened Plans
  import opened Names
  import opened Agreement
  import opened Convergence
  import opened Rollout
  import opened Propagation
  import opened Controllers
  import opened Guarantees
  import opened Locality

  /** A pass of a custom resource that has nothing to do with these objects. */
  ghost predicate Others(m: Move, ks: set<Key>) {
    m.Reconciled? && Foreign(ks, m.plan)
  }

  lemma OwnKeys(cr: CR)
    ensures Interleaving.Owns(Keys(cr), PlanOf(cr))
  {
    SourceIsOwn(cr);
    forall version: string ensures KeysOf(PassWants(PlanOf(cr), version)) <= Keys(cr) {
      KeysDoNotDependOnVersion(cr, version);
    }
    hide Keys, PlanOf;
  }

  // ---------- edits of configuration files ----------

  lemma FilesKeepKeys(a: CR, b: CR)
    requires OtherFiles(a, b)
    ensures Keys(a) == Keys(b)
  {
    FilesKeepKeysOneWay(a, b);
    FilesKeepKeysOneWay(b, a);
  }

  lemma FilesKeepKeysOneWay(a: CR, b: CR)
    requires OtherFiles(a, b)
    ensures Keys(a) <= Keys(b)
  {
    PreWantsAre(b);
    FilesOnlyReachConfig(a, b, "");
    forall x | x in PassWants(PlanOf(a), "") ensures x.key in Keys(b) {
      PassWantsAre(a, "", x);
      KindOfWants(a, "", x);
      hide RestWants;
      if ConfigWant(a, x) {
        SameConfigKey(a, b, x);
      } else {
        RestIs(a, "", x);
        assert x in RestWants(PlanOf(b), "");
        RestIsPart(b, x);
      }
    }
  }

  lemma RestIsPart(cr: CR, x: Want)
    requires x in RestWants(PlanOf(cr), "")
    ensures x.key in Keys(cr)
  {
  }

  lemma SameConfigKey(a: CR, b: CR, x: Want)
    requires OtherFiles(a, b) && ConfigWant(a, x)
    ensures x.key in Keys(b)
  {
    PreWantsAre(b);
    var n :| n in Namespaces(a) && (x == HbaseConfigMap(a.config, n) || x == HadoopConfigMap(a.config, n));
    assert n in Namespaces(b);
    var i :| 0 <= i < |Namespaces(b)| && Namespaces(b)[i] == n;
    var y := if x == HbaseConfigMap(a.config, n) then HbaseConfigMap(b.config, n) else HadoopConfigMap(b.config, n);
    assert y in Wants(Pre(b)) && y.key == x.key;
    assert y in PassWants(PlanOf(b), "");
  }

  lemma EditOwns(m: Move, cr: CR)
    requires EditsFiles(m, cr)
    ensures m.Reconciled? && Interleaving.Owns(Keys(cr), m.plan)
  {
    var b :| OtherFiles(cr, b) && Unstamped(b) && m.plan == PlanOf(b);
    FilesKeepKeys(cr, b);
    OwnKeys(b);
  }

  /** Edits of this custom resource's files, and passes of others. */
  ghost predicate FileEdits(moves: seq<Move>, cr: CR) {
    forall m :: m in moves ==> EditsFiles(m, cr) || Others(m, Keys(cr))
  }

  lemma FileEditsBeside(cr: CR, moves: seq<Move>)
    requires FileEdits(moves, cr)
    ensures Beside(moves, Keys(cr))
    ensures forall m :: m in OwnMoves(moves, Keys(cr)) ==> EditsFiles(m, cr)
  {
    hide Keys, EditsFiles;
    OwnMovesAre(moves, Keys(cr));
    forall m | m in moves && EditsFiles(m, cr) ensures m.Reconciled? && Interleaving.Owns(Keys(cr), m.plan) {
      EditIsPass(m, cr);
      EditOwns(m, cr);
    }
  }

  lemma SameOnKeys(w: World, v: World, u: World, ks: set<Key>)
    requires SameButConfig(w, u) && Interleaving.AgreeOn(v, u, ks)
    ensures forall k :: k in ks && !k.kind.ConfigMapKind? ==>
      (k in w.objects <==> k in v.objects) && (k in w.objects ==> w.objects[k] == v.objects[k])
  {
    hide HashKey;
  }

  /** Once the services, StatefulSets and disruption budgets of a cluster or tenant whose label is
      neither true nor yes are settled, they stay as they are, however often its configuration files
      are edited, whatever fails, and whatever happens to other custom resources; and each of its
      passes writes config maps only. */
  lemma FileEditsLeavePodsAlone(cr: CR, w: World, moves: seq<Move>)
    requires WellFormed(cr) && RolloutLabel(cr) !in {Some("true"), Some("yes")} && !cr.flavour.Standalone?
    requires Settled(w, RestWants(PlanOf(cr), StampOf(w, StatefulSetKey(cr, cr.main))))
    requires FileEdits(moves, cr)
    ensures forall k :: k in Keys(cr) && !k.kind.ConfigMapKind? ==>
      (k in w.objects <==> k in Run(w, moves).objects) && (k in w.objects ==> w.objects[k] == Run(w, moves).objects[k])
    ensures forall j :: 0 <= j < |moves| && EditsFiles(moves[j], cr) ==>
      moves[j].Reconciled? && OnlyConfigWrites(Pass(moves[j].plan, Run(w, moves[..j]), moves[j].env).writes)
  {
    hide WellFormed, RolloutLabel, Keys, EditsFiles, Pass, Settled, RestWants, OnlyConfigWrites, Run;
    var ks := Keys(cr);
    FileEditsBeside(cr, moves);
    RunProjects(w, moves, ks);
    Guarantees.FileEditsLeavePodsAlone(cr, w, OwnMoves(moves, ks));
    SameOnKeys(w, Run(w, moves), Run(w, OwnMoves(moves, ks)), ks);
    hide Interleaving.AgreeOn, SameButConfig, Beside, OwnMoves;
    forall j | 0 <= j < |moves| && EditsFiles(moves[j], cr)
      ensures moves[j].Reconciled? && OnlyConfigWrites(Pass(moves[j].plan, Run(w, moves[..j]), moves[j].env).writes)
    {
      NextFileEdit(cr, w, moves[..j], moves[j]);
    }
  }

  lemma NextFileEdit(cr: CR, w: World, before: seq<Move>, m: Move)
    requires WellFormed(cr) && RolloutLabel(cr) !in {Some("true"), Some("yes")} && !cr.flavour.Standalone?
    requires Settled(w, RestWants(PlanOf(cr), StampOf(w, StatefulSetKey(cr, cr.main))))
    requires FileEdits(before, cr) && EditsFiles(m, cr)
    ensures m.Reconciled? && OnlyConfigWrites(Pass(m.plan, Run(w, before), m.env).writes)
  {
    hide WellFormed, RolloutLabel, Keys, EditsFiles, Pass, Settled, RestWants, OnlyConfigWrites, Run;
    FileEditsBeside(cr, before);
    EditOwns(m, cr);
    NextPassProjects(w, before, m.plan, m.env, Keys(cr));
    var own := OwnMoves(before, Keys(cr)) + [m];
    assert own[..|own| - 1] == OwnMoves(before, Keys(cr)) && own[|own| - 1] == m;
    Guarantees.FileEditsLeavePodsAlone(cr, w, own);
  }

  lemma EditIsPass(m: Move, cr: CR)
    requires EditsFiles(m, cr)
    ensures m.Reconciled?
  {
  }

  // ---------- upgrades ----------

  /** All objects that the custom resource asks for under some service labels. */
  ghost function WidestKeys(cr: CR): set<Key> {
    Keys(WithLabels(cr, Some(map[RECONCILE_CONFIG_LABEL := "true"])))
  }

  lemma LabelsAddConfigOnly(cr: CR, labels: Option<Labels>)
    ensures Keys(WithLabels(cr, labels)) <= WidestKeys(cr)
  {
    var a, b := WithLabels(cr, labels), WithLabels(cr, Some(map[RECONCILE_CONFIG_LABEL := "true"]));
    assert Rolling(b);
    RollingWritesConfig(b);
    forall x | x in PassWants(PlanOf(a), "") ensures x.key in Keys(b) {
      PassWantsAre(a, "", x);
      WidestHas(a, b, x);
    }
  }

  lemma WidestHas(a: CR, b: CR, x: Want)
    requires b == a.(serviceLabels := b.serviceLabels) && b.namespace in Namespaces(b)
    requires x == ClusterService(a) || ConfigWant(a, x) || ComponentWant(a, "", x)
    ensures x.key in Keys(b)
  {
    PreWantsAre(b);
    PostWantsAre(b, "");
    var y := x;
    if x == ClusterService(a) {
      y := ClusterService(b);
    } else if ConfigWant(a, x) {
      var n :| n in Namespaces(a) && (x == HbaseConfigMap(a.config, n) || x == HadoopConfigMap(a.config, n));
      assert n in Namespaces(b);
      var i :| 0 <= i < |Namespaces(b)| && Namespaces(b)[i] == n;
    } else {
      var d :| d in Components(a) && (WorkloadWant(a, d, "", x) || PodWant(a, d, x));
      SameWithOtherLabels(a, b.serviceLabels, d, "", x);
    }
    assert y in PassWants(PlanOf(b), "") && y.key == x.key;
  }

  lemma LabelledOwns(m: Move, cr: CR)
    requires m.Reconciled? && AnyLabel(m, cr)
    ensures Interleaving.Owns(WidestKeys(cr), m.plan)
  {
    var labels :| m.plan == PlanOf(cr.(serviceLabels := labels)) && WellFormed(cr.(serviceLabels := labels));
    OwnKeys(WithLabels(cr, labels));
    LabelsAddConfigOnly(cr, labels);
    hide Keys;
  }

  lemma SetKeysAreOwn(cr: CR)
    ensures SetKeys(cr) <= WidestKeys(cr)
  {
    var b := WithLabels(cr, Some(map[RECONCILE_CONFIG_LABEL := "true"]));
    forall d | d in Components(cr) ensures StatefulSetKey(cr, d) in Keys(b) {
      PostWantsAre(b, "");
      assert WorkloadWant(b, d, "", StatefulSetFor(b, d, ""));
      assert StatefulSetFor(b, d, "") in PassWants(PlanOf(b), "");
    }
  }

  /** Restarts, passes of this custom resource with whatever service labels, and passes of others. */
  ghost predicate AnyLabels(moves: seq<Move>, cr: CR) {
    forall m :: m in moves ==> AnyLabel(m, cr) || Others(m, WidestKeys(cr))
  }

  lemma AnyLabelsBeside(cr: CR, moves: seq<Move>)
    requires AnyLabels(moves, cr)
    ensures Beside(moves, WidestKeys(cr))
    ensures forall m :: m in OwnMoves(moves, WidestKeys(cr)) ==> AnyLabel(m, cr)
  {
    hide WidestKeys, AnyLabel;
    OwnMovesAre(moves, WidestKeys(cr));
    forall m | m in moves && m.Reconciled? ensures AnyLabel(m, cr) ==> Interleaving.Owns(WidestKeys(cr), m.plan) {
      if AnyLabel(m, cr) {
        LabelledOwns(m, cr);
      }
    }
  }

  /** A freshly started operator that finds the StatefulSets of a cluster or tenant unversioned puts
      a version on none of them in any number of passes and restarts, whatever the label is, however
      it changes, and whatever happens to other custom resources. */
  lemma UpgradesDoNotVersion(cr: CR, w: World, moves: seq<Move>)
    requires !cr.flavour.Standalone? && w.hashes == map[]
    requires forall k :: k in SetKeys(cr) ==> StampOf(w, k) == ""
    requires AnyLabels(moves, cr)
    ensures forall k :: k in SetKeys(cr) ==> StampOf(Run(w, moves), k) == ""
  {
    hide WidestKeys, AnyLabel, SetKeys, Run;
    var ks := WidestKeys(cr);
    AnyLabelsBeside(cr, moves);
    SetKeysAreOwn(cr);
    RunProjects(w, moves, ks);
    Guarantees.UpgradesDoNotVersion(cr, w, OwnMoves(moves, ks));
  }

  // ---------- how often config maps are updated ----------

  lemma {:induction false} NoUpdate(writes: seq<Write>, k: Key)
    requires forall j :: 0 <= j < |writes| ==> writes[j].key != k
    ensures Updates(writes, k) == 0
    decreases |writes|
  {
    if writes != [] {
      NoUpdate(writes[..|writes| - 1], k);
    }
  }

  lemma OthersDoNotUpdate(p: Plan, w: World, env: Env, ks: set<Key>, k: Key)
    requires Foreign(ks, p) && k in ks
    ensures Updates(Pass(p, w, env).writes, k) == 0
  {
    var e, version := Pass(p, w, env), PassVersion(p, w, env);
    PassWritesAreWanted(p, w, env);
    hide Pass, PassVersion, PassWants;
    forall j | 0 <= j < |e.writes| ensures e.writes[j].key != k {
      assert e.writes[j].key in KeysOf(PassWants(p, version));
      var x :| x in PassWants(p, version) && x.key == e.writes[j].key;
      assert x in PassWants(p, version) && k in ks && HashKey(x.key) != HashKey(k);
    }
    NoUpdate(e.writes, k);
  }

  lemma UpdatesOneMore(w: World, moves: seq<Move>, m: Move, k: Key)
    ensures Updates(RunWrites(w, moves + [m]), k) ==
      Updates(RunWrites(w, moves), k) + if m.Reconciled? then
          Updates(Pass(m.plan, Run(w, moves), m.env).writes, k) else 0
    ensures Restarts(moves + [m]) == Restarts(moves) + if m.Restarted? then 1 else 0
  {
    hide Pass, Run, Updates;
    assert (moves + [m])[..|moves + [m]| - 1] == moves;
    var more := if m.Reconciled? then Pass(m.plan, Run(w, moves), m.env).writes else [];
    UpdatesConcat(RunWrites(w, moves), more, k);
    NoUpdate([], k);
  }

  lemma OwnOneMore(moves: seq<Move>, m: Move, ks: set<Key>)
    ensures OwnMoves(moves + [m], ks) == if OwnMove(m, ks) then OwnMoves(moves, ks) + [m] else OwnMoves(moves, ks)
  {
    hide OwnMove;
    assert (moves + [m])[..|moves + [m]| - 1] == moves;
    assert OwnMoves(moves, ks) + [] == OwnMoves(moves, ks);
  }

  lemma BesideBefore(moves: seq<Move>, m: Move, ks: set<Key>)
    requires Beside(moves + [m], ks)
    ensures Beside(moves, ks) && (m.Reconciled? ==> Interleaving.Owns(ks, m.plan) || Foreign(ks, m.plan))
  {
    hide Interleaving.Owns, Foreign;
    assert m in moves + [m] && forall n :: n in moves ==> n in moves + [m];
  }

  lemma {:induction false} UpdatesProject(w: World, moves: seq<Move>, ks: set<Key>, k: Key)
    requires Beside(moves, ks) && k in ks
    ensures Updates(RunWrites(w, moves), k) == Updates(RunWrites(w, OwnMoves(moves, ks)), k)
    ensures Restarts(moves) == Restarts(OwnMoves(moves, ks))
    decreases |moves|
  {
    if moves == [] {
      assert OwnMoves(moves, ks) == [];
    } else {
      var before, last := moves[..|moves| - 1], moves[|moves| - 1];
      assert moves == before + [last];
      hide Pass, Interleaving.Owns, Foreign, Run, Updates, RunWrites, Restarts, OwnMoves, Beside;
      BesideBefore(before, last, ks);
      UpdatesProject(w, before, ks, k);
      OwnOneMore(before, last, ks);
      UpdatesOneMore(w, before, last, k);
      UpdatesOneMore(w, OwnMoves(before, ks), last, k);
      if last.Reconciled? {
        if Interleaving.Owns(ks, last.plan) {
          NextPassProjects(w, before, last.plan, last.env, ks);
        } else {
          OthersDoNotUpdate(last.plan, Run(w, before), last.env, ks, k);
        }
      }
    }
  }

  /** Over such a run the HBase ConfigMap is updated at most once, and at most once more for each
      further restart. */
  lemma OneUpdatePerStart(cr: CR, w: World, moves: seq<Move>)
    requires !cr.flavour.Standalone? && w.hashes == map[] && AnyLabels(moves, cr)
    ensures Updates(RunWrites(w, moves), HbaseConfigMap(cr.config, cr.namespace).key) <= 1 + Restarts(moves)
  {
    var b := WithLabels(cr, Some(map[RECONCILE_CONFIG_LABEL := "true"]));
    assert Rolling(b);
    RollingWritesConfig(b);
    HbaseConfigIsWanted(b);
    assert HbaseConfigMap(cr.config, cr.namespace) in PassWants(PlanOf(b), "");
    var k := HbaseConfigMap(cr.config, cr.namespace).key;
    assert k in WidestKeys(cr);
    hide WidestKeys, AnyLabel, RunWrites, Restarts, HbaseConfigMap;
    AnyLabelsBeside(cr, moves);
    UpdatesProject(w, moves, WidestKeys(cr), k);
    Guarantees.OneUpdatePerStart(cr, w, OwnMoves(moves, WidestKeys(cr)));
  }

  // ---------- changes of the configuration ----------

  /** Passes of this custom resource as it is, and of others. */
  ghost predicate Steadily(moves: seq<Move>, cr: CR) {
    forall m :: m in moves ==> m.Reconciled? && (m.plan == PlanOf(cr) || Foreign(Keys(cr), m.plan))
  }

  lemma SteadilyBeside(cr: CR, moves: seq<Move>)
    requires Steadily(moves, cr)
    ensures Beside(moves, Keys(cr))
    ensures forall m :: m in OwnMoves(moves, Keys(cr)) ==> m.Reconciled? && m.plan == PlanOf(cr)
  {
    OwnKeys(cr);
    hide Keys, PlanOf;
    OwnMovesAre(moves, Keys(cr));
  }

  /** The answers of the passes of a run, and then the last ones for ever. */
  function EnvsOf(moves: seq<Move>, env: Env): Envs {
    (n: nat) => if n < |moves| && moves[n].Reconciled? then moves[n].env else env
  }

  lemma {:induction false} RunIsEndless(p: Plan, w: World, moves: seq<Move>, envs: Envs)
    requires forall i :: 0 <= i < |moves| ==> moves[i] == Reconciled(p, envs(i))
    ensures Run(w, moves) == WorldAt(p, w, envs, |moves|)
    decreases |moves|
  {
    hide Pass;
    if moves != [] {
      RunIsEndless(p, w, moves[..|moves| - 1], envs);
    }
  }

  lemma OwnRunIsEndless(cr: CR, w: World, moves: seq<Move>, env: Env)
    requires Steadily(moves, cr)
    ensures var own := OwnMoves(moves, Keys(cr));
            Run(w, own) == WorldAt(PlanOf(cr), w, EnvsOf(own, env), |own|) && EnvsOf(own, env)(|own|) == env
  {
    SteadilyBeside(cr, moves);
    var own := OwnMoves(moves, Keys(cr));
    hide Keys, PlanOf, Run;
    forall i | 0 <= i < |own| ensures own[i] == Reconciled(PlanOf(cr), EnvsOf(own, env)(i)) {
      assert own[i] in own;
    }
    RunIsEndless(PlanOf(cr), w, own, EnvsOf(own, env));
  }

  lemma RewrittenOn(w: World, v: World, x: Want, ks: set<Key>)
    requires Interleaving.AgreeOn(w, v, ks) && x.key in ks
    ensures Rewritten(w, x) <==> Rewritten(v, x)
    ensures x.key in w.objects ==> x.key in v.objects && w.objects[x.key] == v.objects[x.key]
    ensures Done(w, x) <==> Done(v, x)
  {
  }

  lemma ConfigAndSetsAreOwn(cr: CR, d: Deployment)
    requires cr.namespace in Namespaces(cr) && d in Components(cr)
    ensures HbaseConfigMap(cr.config, cr.namespace).key in Keys(cr) && StatefulSetKey(cr, d) in Keys(cr)
  {
    HbaseConfigIsWanted(cr);
    assert HbaseConfigMap(cr.config, cr.namespace) in PassWants(PlanOf(cr), "");
    PostWantsAre(cr, "");
    assert WorkloadWant(cr, d, "", StatefulSetFor(cr, d, ""));
    assert StatefulSetFor(cr, d, "") in PassWants(PlanOf(cr), "");
  }

  /** With the label true or yes, once the HBase ConfigMap's digest is remembered, a change of its
      data is followed by no clean pass until the ConfigMap has been rewritten; and after the next
      clean pass, whatever has failed and whatever other custom resources' passes have done in
      between, the StatefulSet of every component is as wanted and carries exactly the resource
      version of the rewritten ConfigMap. */
  lemma ChangeReachesEveryComponent(cr: CR, w: World, moves: seq<Move>, env: Env, d: Deployment)
    requires WellFormed(cr) && RolloutLabel(cr) in {Some("true"), Some("yes")} && !cr.flavour.Standalone?
    requires d in Components(cr)
    requires Agrees(w, Keys(cr)) && Changed(w, HbaseConfigMap(cr.config, cr.namespace)) && Steadily(moves, cr)
    requires VersionReadable(PlanOf(cr), env) && Pass(PlanOf(cr), Run(w, moves), env).outcome == CLEAN
    ensures var v, x := Run(w, moves), HbaseConfigMap(cr.config, cr.namespace);
            && Rewritten(v, x)
            && Done(Pass(PlanOf(cr), v, env).world, StatefulSetFor(cr, d, v.objects[x.key].version))
  {
    LabelDecides(cr);
    hide RolloutLabel, Rolling;
    var ks, x := Keys(cr), HbaseConfigMap(cr.config, cr.namespace);
    RollingWritesConfig(cr);
    ConfigAndSetsAreOwn(cr, d);
    OwnKeys(cr);
    SteadilyBeside(cr, moves);
    OwnRunIsEndless(cr, w, moves, env);
    SetKeyOf(cr, d);
    var own := OwnMoves(moves, ks);
    var envs := EnvsOf(own, env);
    NextIs(PlanOf(cr), w, envs, |own|);
    hide Keys, PlanOf, Run, Pass, WellFormed, RolloutLabel, Agrees, Changed, Rewritten, Done, HbaseConfigMap,
      StatefulSetFor, Components, VersionReadable, WorldAt, EnvsOf, Interleaving.AgreeOn, Interleaving.Owns;
    NextPassProjects(w, moves, PlanOf(cr), env, ks);
    RunProjects(w, moves, ks);
    Guarantees.ChangeReachesEveryComponent(cr, w, envs, |own|, d);
    RewrittenOn(Run(w, moves), Run(w, own), x, ks);
    RewrittenHasObject(Run(w, own), x);
    RewrittenOn(Pass(PlanOf(cr), Run(w, moves), env).world, Pass(PlanOf(cr), Run(w, own), env).world,
                StatefulSetFor(cr, d, Run(w, own).objects[x.key].version), ks);
  }

  lemma RewrittenHasObject(w: World, x: Want)
    requires Rewritten(w, x)
    ensures x.key in w.objects
  {
  }

  lemma SetKeyOf(cr: CR, d: Deployment)
    ensures forall version: string :: StatefulSetFor(cr, d, version).key == StatefulSetKey(cr, d)
  {
  }

  lemma NextIs(p: Plan, w: World, envs: Envs, n: nat)
    ensures WorldAt(p, w, envs, n + 1) == Pass(p, WorldAt(p, w, envs, n), envs(n)).world
  {
  }

  /** And none of its StatefulSets and disruption budgets is touched before that. */
  lemma NothingRestartsBeforeTheRewrite(cr: CR, w: World, moves: seq<Move>, env: Env)
    requires WellFormed(cr) && RolloutLabel(cr) in {Some("true"), Some("yes")} && !cr.flavour.Standalone?
    requires Changed(w, HbaseConfigMap(cr.config, cr.namespace)) && Steadily(moves, cr)
    ensures var v := Run(w, moves);
            || Rewritten(v, HbaseConfigMap(cr.config, cr.namespace))
            || forall k :: k in Keys(cr) && Gated(k.kind) ==>
                 (k in w.objects <==> k in v.objects) && (k in w.objects ==> w.objects[k] == v.objects[k])
  {
    LabelDecides(cr);
    hide RolloutLabel, Rolling;
    var ks, x := Keys(cr), HbaseConfigMap(cr.config, cr.namespace);
    RollingWritesConfig(cr);
    MainIsWanted(cr, "");
    ConfigAndSetsAreOwn(cr, cr.main);
    SteadilyBeside(cr, moves);
    OwnRunIsEndless(cr, w, moves, env);
    var own := OwnMoves(moves, ks);
    hide Keys, PlanOf, Run, WellFormed, RolloutLabel, Changed, Rewritten, HbaseConfigMap, WorldAt, EnvsOf;
    RunProjects(w, moves, ks);
    Guarantees.NothingRestartsBeforeTheRewrite(cr, w, EnvsOf(own, env), |own|);
    RewrittenOn(Run(w, moves), Run(w, own), x, ks);
  }

  // ---------- restarts ----------

  /** The same of these objects, with the same hashed content. */
  ghost predicate SameContentsOn(ks: set<Key>, w: World, v: World) {
    forall k :: k in ks ==>
      (k in w.objects <==> k in v.objects) && (k in w.objects ==> w.objects[k].content == v.objects[k].content)
  }

  /** Restarts, passes of this custom resource whose version can be read, and passes of others. */
  ghost predicate Among(cr: CR, moves: seq<Move>) {
    forall m :: m in moves && m.Reconciled? ==>
      (m.plan == PlanOf(cr) && VersionReadable(m.plan, m.env)) || Foreign(Keys(cr), m.plan)
  }

  lemma AmongBeside(cr: CR, moves: seq<Move>)
    requires Among(cr, moves)
    ensures Beside(moves, Keys(cr)) && Over(PlanOf(cr), OwnMoves(moves, Keys(cr)))
  {
    OwnKeys(cr);
    hide Keys, PlanOf, VersionReadable;
    OwnMovesAre(moves, Keys(cr));
  }

  lemma ContentsOn(ks: set<Key>, w: World, v: World, u: World)
    requires SameContents(w, v) && Interleaving.AgreeOn(u, v, ks)
    ensures SameContentsOn(ks, w, u)
  {
    hide HashKey;
  }

  /** Restarting the operator once a custom resource is settled changes the content of none of its
      objects, in any run of restarts, of its passes and of the passes of others, if and only if it is
      a standalone, its label is neither true nor yes, or its HBase ConfigMap does not carry the
      update-time annotation. */
  lemma RestartIsHarmlessIff(cr: CR, w: World, env: Env)
    requires WellFormed(cr) && Agrees(w, Keys(cr)) && Smooth(PlanOf(cr), env)
    requires Settled(w, PassWants(PlanOf(cr), SteadyVersion(SourceOf(cr), w)))
    ensures (forall moves: seq<Move> :: Among(cr, moves) ==> SameContentsOn(Keys(cr), w, Run(w, moves)))
       <==> !LosesVersion(cr, w)
  {
    hide WellFormed, Agrees, Smooth, Settled, Keys, PlanOf, LosesVersion, Run, SameContents, SameContentsOn, Over,
        SourceOf;
    Guarantees.RestartIsHarmlessIff(cr, w, env);
    if LosesVersion(cr, w) {
      var moves := VersionIsLost(cr, w, env);
    } else {
      forall moves: seq<Move> | Among(cr, moves) ensures SameContentsOn(Keys(cr), w, Run(w, moves)) {
        AmongBeside(cr, moves);
        RunProjects(w, moves, Keys(cr));
        ContentsOn(Keys(cr), w, Run(w, OwnMoves(moves, Keys(cr))), Run(w, moves));
      }
    }
  }

  lemma VersionIsLost(cr: CR, w: World, env: Env) returns (moves: seq<Move>)
    requires WellFormed(cr) && Agrees(w, Keys(cr)) && Smooth(PlanOf(cr), env)
    requires Settled(w, PassWants(PlanOf(cr), SteadyVersion(SourceOf(cr), w))) && LosesVersion(cr, w)
    ensures Among(cr, moves) && !SameContentsOn(Keys(cr), w, Run(w, moves))
  {
    LabelDecides(cr);
    hide RolloutLabel, Rolling;
    var p, s, version := PlanOf(cr), StatefulSetKey(cr, cr.main), SteadyVersion(SourceOf(cr), w);
    WellFormedPlan(cr);
    OneHashPerKey(cr);
    RollingTracks(cr);
    assert HbaseConfigMap(cr.config, cr.namespace) in VersionWants(p);
    forall u: string ensures KeysOf(PassWants(p, u)) <= Keys(cr) && s in KeysOf(Wants(p.post(u))) {
      KeysDoNotDependOnVersion(cr, u);
      MainIsWanted(cr, u);
    }
    MainIsWanted(cr, "");
    assert StatefulSetFor(cr, cr.main, "") in PassWants(p, "");
    assert s in Keys(cr) && AlwaysWanted(p, s) && version != "";
    hide WellFormed, Smooth, Settled, Agrees, Keys, Post, Pre, Sound, WellNamed, AlwaysWanted, LosesVersion, SourceOf,
        Run;
    SettledIsDone(w, PassWants(p, version), Keys(cr));
    moves := RestartUnversions(p, w, env, Keys(cr));
    StampIsContent(w, Run(w, moves), s);
  }

  lemma StampIsContent(w: World, v: World, k: Key)
    requires StampOf(w, k) != StampOf(v, k)
    ensures forall ks: set<Key> :: k in ks ==> !SameContentsOn(ks, w, v)
  {
  }
}
