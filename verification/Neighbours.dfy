/** Several custom resources under one operator: they all converge if and only if no two of them ask
    for different contents under one hash key. */
module Neighbours {
  import opened Kube
  import opened HashKeys
  import opened Resources
  import opened Protocol
  import opened TaskFacts
  import opened Passes
  import opened Plans
  import opened Agreement
  import opened Convergence
  import opened Controllers

  // ---------- endless runs over several custom resources ----------

  /** Which of the custom resources is reconciled in pass `n`. */
  type Turns = nat -> nat

  ghost predicate InTurn(plans: seq<Plan>, turns: Turns) {
    forall n: nat :: turns(n) < |plans|
  }

  /** The world before pass `n`. */
  function WorldBefore(plans: seq<Plan>, w: World, turns: Turns, envs: Envs, n: nat): World {
    if n == 0 then w
    else
      var v := WorldBefore(plans, w, turns, envs, n - 1);
      if turns(n - 1) < |plans| then Pass(plans[turns(n - 1)], v, envs(n - 1)).world else v
  }

  predicate WritesIn(plans: seq<Plan>, w: World, turns: Turns, envs: Envs, n: nat) {
    turns(n) < |plans| && Pass(plans[turns(n)], WorldBefore(plans, w, turns, envs, n), envs(n)).writes != []
  }

  lemma {:induction false} QuietRun(plans: seq<Plan>, w: World, turns: Turns, envs: Envs, begin: nat, end: nat)
    requires begin <= end && forall m :: begin <= m < end ==> !WritesIn(plans, w, turns, envs, m)
    ensures WorldBefore(plans, w, turns, envs, end) == WorldBefore(plans, w, turns, envs, begin)
    decreases end
  {
    hide Pass;
    if begin < end {
      var before := WorldBefore(plans, w, turns, envs, end - 1);
      QuietRun(plans, w, turns, envs, begin, end - 1);
      assert !WritesIn(plans, w, turns, envs, end - 1);
      if turns(end - 1) < |plans| {
        var p := plans[turns(end - 1)];
        PassAccounted(p, before, envs(end - 1));
        NoWriteNoChange(before, Pass(p, before, envs(end - 1)));
      }
    }
  }

  lemma {:induction false} FirstWriteIn(plans: seq<Plan>, w: World, turns: Turns, envs: Envs, begin: nat, some: nat)
      returns (first: nat)
    requires begin <= some && WritesIn(plans, w, turns, envs, some)
    ensures begin <= first <= some && WritesIn(plans, w, turns, envs, first)
    ensures forall m :: begin <= m < first ==> !WritesIn(plans, w, turns, envs, m)
    decreases some
  {
    if m :| begin <= m < some && WritesIn(plans, w, turns, envs, m) {
      first := FirstWriteIn(plans, w, turns, envs, begin, m);
    } else {
      first := some;
    }
  }

  // ---------- what plans have in common ----------

  /** Different contents under one hash key. */
  ghost predicate Clashing(xs: set<Want>, ys: set<Want>) {
    exists x, y :: x in xs && y in ys && HashKey(x.key) == HashKey(y.key) && x.content != y.content
  }

  /** Whatever the versions, the two plans ask for different contents under one hash key. */
  ghost predicate Clash(p: Plan, q: Plan) {
    forall v: string, u: string :: Clashing(PassWants(p, v), PassWants(q, u))
  }

  /** Whatever the versions, they do not. */
  ghost predicate Compatible(p: Plan, q: Plan) {
    forall v: string, u: string :: !Clashing(PassWants(p, v), PassWants(q, u))
  }

  ghost predicate AllCompatible(plans: seq<Plan>) {
    && (forall j :: 0 <= j < |plans| ==> WellNamed(plans[j]) && Sound(plans[j]))
    && (forall i, j :: 0 <= i < |plans| && 0 <= j < |plans| && i != j ==> Compatible(plans[i], plans[j]))
  }

  // ---------- work ----------

  ghost function ConfigWorks(plans: seq<Plan>, w: World): nat {
    if plans == [] then 0 else ConfigWorks(plans[..|plans| - 1], w) + ConfigWork(plans[|plans| - 1], w)
  }

  ghost function RestWorks(plans: seq<Plan>, w: World): nat {
    if plans == [] then 0 else RestWorks(plans[..|plans| - 1], w) + RestWork(plans[|plans| - 1], w)
  }

  /** No object of these is missing, and no digest out of date, that was not so before. */
  ghost predicate NoWorse(w: World, v: World, xs: set<Want>) {
    forall x :: x in xs ==> (x.key in w.objects ==> x.key in v.objects) && (Stale(v, x) ==> Stale(w, x))
  }

  lemma OneNoWorse(w: World, y: Want, a: Answer, xs: set<Want>, ys: set<Want>)
    requires y in ys && !Clashing(xs, ys)
    ensures NoWorse(w, Reconcile(w, y, a).world, xs)
  {
    forall x | x in xs && HashKey(x.key) == HashKey(y.key) ensures x.content == y.content {}
    hide HashKey, Waiting;
  }

  lemma {:induction false} TasksNoWorse(w: World, tasks: seq<Task>, env: Env, i: nat, xs: set<Want>, ys: set<Want>)
    requires Wants(tasks) <= ys && !Clashing(xs, ys)
    ensures NoWorse(w, RunTasks(w, tasks, env, i).world, xs)
    decreases |tasks|
  {
    hide Clashing, Stale;
    if tasks != [] {
      WantsOfTail(tasks);
      var e := RunTask(w, tasks[0], env(i));
      if tasks[0].Ensure? {
        OneNoWorse(w, tasks[0].want, env(i), xs, ys);
      }
      if e.outcome == CLEAN {
        TasksNoWorse(e.world, tasks[1..], env, i + 1, xs, ys);
      }
    }
  }

  lemma PassNoWorse(p: Plan, w: World, env: Env, xs: set<Want>)
    requires !Clashing(xs, PassWants(p, PassVersion(p, w, env)))
    ensures NoWorse(w, Pass(p, w, env).world, xs)
  {
    var version := PassVersion(p, w, env);
    hide Clashing, Stale;
    TasksNoWorse(w, p.pre, env, 1, xs, PassWants(p, version));
    TasksNoWorse(RunTasks(w, p.pre, env, 1).world, p.post(version), env, 2 + |p.pre|, xs, PassWants(p, version));
  }

  lemma SmallerSet<T>(a: set<T>, b: set<T>)
    requires a <= b
    ensures |a| <= |b|
  {
    assert b == a + (b - a);
  }

  lemma NoMoreWork(w: World, v: World, xs: set<Want>)
    requires NoWorse(w, v, xs)
    ensures Work(v, xs) <= Work(w, xs)
  {
    hide Stale;
    SmallerSet(Absent(v, xs), Absent(w, xs));
    SmallerSet(Outdated(v, xs), Outdated(w, xs));
  }

  /** A StatefulSet's content depends on the version. */
  lemma SharedSetsClash(p: Plan, q: Plan, v: string, u: string, x: Want, y: Want)
    requires Sound(p) && Sound(q) && x in PassWants(p, v) && y in PassWants(q, u)
    requires x.key == y.key && x.key.kind.StatefulSetKind? && v != u
    ensures Clashing(PassWants(p, v), PassWants(q, u))
  {
    assert SoundPost(p.source, p.post(v), v) && SoundPost(q.source, q.post(u), u);
    assert Stamp(x.content) == v && Stamp(y.content) == u;
  }

  /** So two compatible plans share none. */
  lemma NoSharedSet(p: Plan, q: Plan, version: string, y: Want)
    requires Sound(p) && Sound(q) && Compatible(p, q) && p.source.FromStatefulSet?
    requires y in PassWants(q, version)
    ensures y.key != p.source.key
  {
    var other := version + "'";
    assert |other| != |version|;
    assert SoundPost(p.source, p.post(other), other);
    assert !Clashing(PassWants(p, other), PassWants(q, version));
    hide Clashing;
    var x :| x in Wants(p.post(other)) && x.key == p.source.key;
    if y.key == x.key {
      SharedSetsClash(p, q, other, version, x, y);
    }
  }

  /** A pass that writes no ConfigMap does not change the version that a compatible plan finds. */
  lemma OthersVersionStays(p: Plan, q: Plan, w: World, env: Env)
    requires Sound(p) && Sound(q) && Compatible(p, q) && !WritesConfig(Pass(q, w, env).writes)
    ensures SteadyVersion(p.source, Pass(q, w, env).world) == SteadyVersion(p.source, w)
  {
    var e, version := Pass(q, w, env), PassVersion(q, w, env);
    PassAccounted(q, w, env);
    PassWritesAreWanted(q, w, env);
    hide Pass, PassVersion, Clashing;
    if p.source.FromStatefulSet? {
      forall j | 0 <= j < |e.writes| ensures e.writes[j].key != p.source.key {
        var y :| y in PassWants(q, version) && y.key == e.writes[j].key;
        NoSharedSet(p, q, version, y);
      }
    }
  }

  /** A pass of one plan is no setback for a compatible one. */
  lemma NoSetback(p: Plan, q: Plan, w: World, env: Env)
    requires Sound(p) && Sound(q) && Compatible(p, q)
    ensures var e := Pass(q, w, env);
            && ConfigWork(p, e.world) <= ConfigWork(p, w)
            && (!WritesConfig(e.writes) ==> RestWork(p, e.world) <= RestWork(p, w))
  {
    var e, version, found := Pass(q, w, env), PassVersion(q, w, env), SteadyVersion(p.source, w);
    assert !Clashing(PassWants(p, found), PassWants(q, version));
    PassNoWorse(q, w, env, PassWants(p, found));
    PartsOfWants(p, found);
    if !WritesConfig(e.writes) {
      OthersVersionStays(p, q, w, env);
    }
    hide Pass, PassVersion, PassWants, ConfigWants, RestWants, SteadyVersion, Work, Stale;
    NoMoreWork(w, e.world, ConfigWants(p));
    NoMoreWork(w, e.world, RestWants(p, found));
  }

  lemma PartsOfWants(p: Plan, version: string)
    ensures ConfigWants(p) <= PassWants(p, version) && RestWants(p, version) <= PassWants(p, version)
  {
  }

  lemma {:induction false} ConfigWorksShrink(plans: seq<Plan>, w: World, v: World, j: nat)
    requires forall i :: 0 <= i < |plans| && i != j ==> ConfigWork(plans[i], v) <= ConfigWork(plans[i], w)
    ensures j < |plans| ==>
        ConfigWorks(plans, v) - ConfigWorks(plans, w) <= ConfigWork(plans[j], v) - ConfigWork(plans[j], w)
    ensures j >= |plans| ==> ConfigWorks(plans, v) <= ConfigWorks(plans, w)
    decreases |plans|
  {
    hide ConfigWork;
    if plans != [] {
      var before := plans[..|plans| - 1];
      assert forall i :: 0 <= i < |before| ==> before[i] == plans[i];
      ConfigWorksShrink(before, w, v, j);
    }
  }

  lemma {:induction false} RestWorksShrink(plans: seq<Plan>, w: World, v: World, j: nat)
    requires forall i :: 0 <= i < |plans| && i != j ==> RestWork(plans[i], v) <= RestWork(plans[i], w)
    ensures j < |plans| ==> RestWorks(plans, v) - RestWorks(plans, w) <= RestWork(plans[j], v) - RestWork(plans[j], w)
    ensures j >= |plans| ==> RestWorks(plans, v) <= RestWorks(plans, w)
    decreases |plans|
  {
    hide RestWork;
    if plans != [] {
      var before := plans[..|plans| - 1];
      assert forall i :: 0 <= i < |before| ==> before[i] == plans[i];
      RestWorksShrink(before, w, v, j);
    }
  }

  /** A pass of one of them that writes makes the pair of the sums smaller. */
  lemma WriteIsProgressForAll(plans: seq<Plan>, w: World, j: nat, env: Env)
    requires AllCompatible(plans) && j < |plans| && VersionReadable(plans[j], env)
    requires Pass(plans[j], w, env).writes != []
    ensures var v := Pass(plans[j], w, env).world;
            || ConfigWorks(plans, v) < ConfigWorks(plans, w)
            || (ConfigWorks(plans, v) == ConfigWorks(plans, w) && RestWorks(plans, v) < RestWorks(plans, w))
  {
    hide Pass, ConfigWork, RestWork, WellNamed, Sound, Compatible, VersionReadable, WritesConfig;
    var e := Pass(plans[j], w, env);
    EveryWriteIsProgress(plans[j], w, env);
    forall i | 0 <= i < |plans| && i != j
      ensures ConfigWork(plans[i], e.world) <= ConfigWork(plans[i], w)
      ensures !WritesConfig(e.writes) ==> RestWork(plans[i], e.world) <= RestWork(plans[i], w)
    {
      NoSetback(plans[i], plans[j], w, env);
    }
    ConfigWorksShrink(plans, w, e.world, j);
    if WritesConfig(e.writes) {
      ConfigWriteIsProgress(plans[j], w, env);
    } else {
      RestWorksShrink(plans, w, e.world, j);
    }
  }

  ghost predicate ReadableIn(plans: seq<Plan>, turns: Turns, envs: Envs) {
    forall n: nat :: turns(n) < |plans| ==> VersionReadable(plans[turns(n)], envs(n))
  }

  /** From pass `n` on nothing is written. */
  ghost predicate QuietFrom(plans: seq<Plan>, w: World, turns: Turns, envs: Envs, n: nat) {
    forall m :: n <= m ==> !WritesIn(plans, w, turns, envs, m)
  }

  /** Custom resources that ask for the same contents wherever they share a hash key, reconciled in
      any order, under any failures and any statuses, are all eventually left alone. */
  lemma {:induction false} AllConverge(plans: seq<Plan>, w: World, turns: Turns, envs: Envs, begin: nat)
    returns (n: nat)
    requires AllCompatible(plans) && InTurn(plans, turns) && ReadableIn(plans, turns, envs)
    ensures begin <= n && QuietFrom(plans, w, turns, envs, n)
    decreases ConfigWorks(plans, WorldBefore(plans, w, turns, envs, begin)),
              RestWorks(plans, WorldBefore(plans, w, turns, envs, begin))
  {
    hide Pass, ConfigWorks, RestWorks, AllCompatible, VersionReadable;
    if some :| begin <= some && WritesIn(plans, w, turns, envs, some) {
      var first := FirstWriteIn(plans, w, turns, envs, begin, some);
      QuietRun(plans, w, turns, envs, begin, first);
      WriteIsProgressForAll(plans, WorldBefore(plans, w, turns, envs, first), turns(first), envs(first));
      assert WorldBefore(plans, w, turns, envs, first + 1)
          == Pass(plans[turns(first)], WorldBefore(plans, w, turns, envs, first), envs(first)).world;
      n := AllConverge(plans, w, turns, envs, first + 1);
    } else {
      n := begin;
    }
  }

  /** From then on the world stays as it is, and a pass in which nothing fails and everything is ready
      is clean. */
  lemma QuietMeansClean(plans: seq<Plan>, w: World, turns: Turns, envs: Envs, n: nat, m: nat)
    requires QuietFrom(plans, w, turns, envs, n) && InTurn(plans, turns) && n <= m
    ensures WorldBefore(plans, w, turns, envs, m) == WorldBefore(plans, w, turns, envs, n)
    ensures Smooth(plans[turns(m)], envs(m)) ==>
      Pass(plans[turns(m)], WorldBefore(plans, w, turns, envs, m), envs(m)).outcome == CLEAN
  {
    hide Pass, Smooth;
    QuietRun(plans, w, turns, envs, n, m);
    assert !WritesIn(plans, w, turns, envs, m);
    if Smooth(plans[turns(m)], envs(m)) {
      SmoothPassWritesOrIsClean(plans[turns(m)], WorldBefore(plans, w, turns, envs, m), envs(m));
    }
  }

  // ---------- clashes ----------

  lemma NotBothSettled(w: World, xs: set<Want>, ys: set<Want>)
    requires Clashing(xs, ys)
    ensures !Settled(w, xs) || !Settled(w, ys)
  {
    var x, y :| x in xs && y in ys && HashKey(x.key) == HashKey(y.key) && x.content != y.content;
    hide HashKey;
    assert Stale(w, x) || Stale(w, y);
  }

  lemma NotBothConverged(p: Plan, q: Plan, w: World, e: Env, f: Env)
    requires Sound(p) && Sound(q) && Clash(p, q)
    ensures !Converged(p, w, e) || !Converged(q, w, f)
  {
    var xs, ys := PassWants(p, SteadyVersion(p.source, w)), PassWants(q, SteadyVersion(q.source, w));
    assert Clashing(xs, ys);
    NotBothSettled(w, xs, ys);
    hide Converged, Settled, PassWants, Sound;
    if Converged(p, w, e) {
      ConvergedIsSettled(p, w, e);
    }
    if Converged(q, w, f) {
      ConvergedIsSettled(q, w, f);
    }
  }

  /** Two custom resources that clash are never both left alone: from any pass on until each of them
      has been reconciled once without a failure and with everything ready, something is written. */
  lemma ClashesGoOnForEver(plans: seq<Plan>, w: World, turns: Turns, envs: Envs, begin: nat, a: nat, b: nat)
      returns (m: nat)
    requires InTurn(plans, turns) && begin <= a && begin <= b
    requires var p, q := plans[turns(a)], plans[turns(b)];
             Sound(p) && Sound(q) && Clash(p, q) && Smooth(p, envs(a)) && Smooth(q, envs(b))
    ensures begin <= m && (m <= a || m <= b) && WritesIn(plans, w, turns, envs, m)
  {
    hide Pass, Clash, Sound;
    var end := if a <= b then b else a;
    m := end;
    if some :| begin <= some <= end && WritesIn(plans, w, turns, envs, some) {
      m := some;
    } else {
      QuietRun(plans, w, turns, envs, begin, a);
      QuietRun(plans, w, turns, envs, begin, b);
      assert !WritesIn(plans, w, turns, envs, a) && !WritesIn(plans, w, turns, envs, b);
      var v := WorldBefore(plans, w, turns, envs, begin);
      hide Converged;
      NotBothConverged(plans[turns(a)], plans[turns(b)], v, envs(a), envs(b));
      QuietIsConverged(plans[turns(a)], v, envs(a));
      QuietIsConverged(plans[turns(b)], v, envs(b));
    }
  }

  lemma QuietIsConverged(p: Plan, w: World, env: Env)
    requires Smooth(p, env)
    ensures Pass(p, w, env).writes == [] ==> Converged(p, w, env)
  {
    PassAccounted(p, w, env);
    SmoothPassWritesOrIsClean(p, w, env);
    hide Pass;
    if Pass(p, w, env).writes == [] {
      NoWriteNoChange(w, Pass(p, w, env));
    }
  }

  // ---------- custom resources ----------

  /** Two custom resources: they differ in kind, namespace or name. */
  predicate Another(a: CR, b: CR) {
    a.namespace != b.namespace || OwnerOf(a) != OwnerOf(b)
  }

  /** Wherever they share a hash key they ask for the same content, if neither has a version. */
  ghost predicate Harmonious(a: CR, b: CR) {
    !Clashing(PassWants(PlanOf(a), ""), PassWants(PlanOf(b), ""))
  }

  /** What a pass with another version asks for in the place of an object. */
  lemma OtherVersion(cr: CR, v: string, u: string, x: Want) returns (y: Want)
    requires x in PassWants(PlanOf(cr), v)
    ensures y in PassWants(PlanOf(cr), u) && y.key == x.key
    ensures !x.key.kind.StatefulSetKind? ==> y == x
    ensures x.key.kind.StatefulSetKind? ==>
      && y.content.StatefulSetContent?
      && y.content.workload.namespace == cr.namespace && y.content.workload.owner == OwnerOf(cr)
  {
    PostWantsAre(cr, v);
    PostWantsAre(cr, u);
    KindsOfPre(cr);
    y := x;
    hide Components, OwnerOf;
    if x in Wants(Post(cr, v)) && !(x == ClusterService(cr) && cr.flavour.Tenant?) {
      var d :| d in Components(cr) && (WorkloadWant(cr, d, v, x) || PodWant(cr, d, x));
      y := if x == StatefulSetFor(cr, d, v) then StatefulSetFor(cr, d, u) else x;
      assert WorkloadWant(cr, d, u, y) || PodWant(cr, d, y);
    }
  }

  /** The version makes no difference to whether two custom resources clash. */
  lemma ClashAtAnyVersion(a: CR, b: CR, v: string, u: string, v2: string, u2: string)
    requires Another(a, b) && Clashing(PassWants(PlanOf(a), v), PassWants(PlanOf(b), u))
    ensures Clashing(PassWants(PlanOf(a), v2), PassWants(PlanOf(b), u2))
  {
    var xs, ys := PassWants(PlanOf(a), v), PassWants(PlanOf(b), u);
    var x, y :| x in xs && y in ys && HashKey(x.key) == HashKey(y.key) && x.content != y.content;
    KindsNeverCollide(x.key, y.key);
    hide PassWants, PlanOf, HashKey;
    var x2 := OtherVersion(a, v, v2, x);
    var y2 := OtherVersion(b, u, u2, y);
    assert x2.content != y2.content;
  }

  /** So any two custom resources are compatible or clash; nothing in between. */
  lemma CompatibleOrClash(a: CR, b: CR)
    requires Another(a, b)
    ensures if Harmonious(a, b) then Compatible(PlanOf(a), PlanOf(b)) else Clash(PlanOf(a), PlanOf(b))
  {
    hide Clashing, PlanOf, PassWants;
    forall v: string, u: string
      ensures Clashing(PassWants(PlanOf(a), v), PassWants(PlanOf(b), u)) <==> !Harmonious(a, b)
    {
      if Clashing(PassWants(PlanOf(a), v), PassWants(PlanOf(b), u)) {
        ClashAtAnyVersion(a, b, v, u, "", "");
      } else if !Harmonious(a, b) {
        ClashAtAnyVersion(a, b, "", "", v, u);
      }
    }
  }

  lemma HarmonyIsMutual(a: CR, b: CR)
    ensures Harmonious(a, b) <==> Harmonious(b, a)
  {
    hide PassWants, PlanOf, HashKey;
  }

  ghost predicate AllHarmonious(crs: seq<CR>) {
    forall i, j :: 0 <= i < j < |crs| ==> Harmonious(crs[i], crs[j])
  }

  /** Well-formed, and no two are the same custom resource. */
  ghost predicate Cohabiting(crs: seq<CR>) {
    && (forall j :: 0 <= j < |crs| ==> WellFormed(crs[j]))
    && (forall i, j :: 0 <= i < j < |crs| ==> Another(crs[i], crs[j]))
  }

  /** Each is reconciled again and again without a failure and with everything ready. */
  ghost predicate Recurring(plans: seq<Plan>, turns: Turns, envs: Envs) {
    forall j: nat, n: nat :: j < |plans| ==> SmoothAgain(plans, turns, envs, j, n)
  }

  ghost predicate SmoothAgain(plans: seq<Plan>, turns: Turns, envs: Envs, j: nat, n: nat) {
    exists m :: SmoothTurn(plans, turns, envs, j, n, m)
  }

  ghost predicate SmoothTurn(plans: seq<Plan>, turns: Turns, envs: Envs, j: nat, n: nat, m: nat) {
    n <= m && turns(m) == j < |plans| && Smooth(plans[j], envs(m))
  }

  lemma HarmoniousIsCompatible(crs: seq<CR>)
    requires Cohabiting(crs) && AllHarmonious(crs)
    ensures AllCompatible(PlansOf(crs))
  {
    hide WellFormed, WellNamed, Sound, PlanOf, Harmonious, Compatible, Clash, Another;
    forall j | 0 <= j < |crs| ensures WellNamed(PlanOf(crs[j])) && Sound(PlanOf(crs[j])) {
      WellFormedPlan(crs[j]);
    }
    forall i, j | 0 <= i < |crs| && 0 <= j < |crs| && i != j ensures Compatible(PlanOf(crs[i]), PlanOf(crs[j])) {
      HarmonyIsMutual(crs[i], crs[j]);
      AnotherIsMutual(crs[i], crs[j]);
      CompatibleOrClash(crs[i], crs[j]);
    }
  }

  lemma AnotherIsMutual(a: CR, b: CR)
    ensures Another(a, b) <==> Another(b, a)
  {
  }

  lemma DiscordGoesOn(crs: seq<CR>, w: World, turns: Turns, envs: Envs, i: nat, j: nat, n: nat)
    requires Cohabiting(crs) && InTurn(PlansOf(crs), turns) && Recurring(PlansOf(crs), turns, envs)
    requires i < j < |crs| && !Harmonious(crs[i], crs[j])
    ensures !QuietFrom(PlansOf(crs), w, turns, envs, n)
  {
    hide WellFormed, WellNamed, Sound, PlanOf, Harmonious, Clash, WritesIn, Another;
    var plans := PlansOf(crs);
    WellFormedPlan(crs[i]);
    WellFormedPlan(crs[j]);
    CompatibleOrClash(crs[i], crs[j]);
    assert SmoothAgain(plans, turns, envs, i, n) && SmoothAgain(plans, turns, envs, j, n);
    var a :| SmoothTurn(plans, turns, envs, i, n, a);
    var b :| SmoothTurn(plans, turns, envs, j, n, b);
    var m := ClashesGoOnForEver(plans, w, turns, envs, n, a, b);
  }

  /** If wherever two of them share a hash key they ask for the same content, any number of clusters,
      tenants and standalones are all eventually left alone, in whatever order they are reconciled and
      whatever fails; and then every pass in which nothing fails and everything is ready is clean. */
  lemma NeighboursConverge(crs: seq<CR>, w: World, turns: Turns, envs: Envs, begin: nat) returns (n: nat)
    requires Cohabiting(crs) && AllHarmonious(crs)
    requires InTurn(PlansOf(crs), turns) && ReadableIn(PlansOf(crs), turns, envs)
    ensures begin <= n && QuietFrom(PlansOf(crs), w, turns, envs, n)
    ensures forall m :: n <= m && Smooth(PlansOf(crs)[turns(m)], envs(m)) ==>
      Pass(PlansOf(crs)[turns(m)], WorldBefore(PlansOf(crs), w, turns, envs, m), envs(m)).outcome == CLEAN
  {
    HarmoniousIsCompatible(crs);
    hide PlansOf, Cohabiting, AllHarmonious, QuietFrom, ReadableIn, AllCompatible, Pass, Smooth, WorldBefore;
    n := AllConverge(PlansOf(crs), w, turns, envs, begin);
    forall m | n <= m && Smooth(PlansOf(crs)[turns(m)], envs(m))
      ensures Pass(PlansOf(crs)[turns(m)], WorldBefore(PlansOf(crs), w, turns, envs, m), envs(m)).outcome == CLEAN
    {
      QuietMeansClean(PlansOf(crs), w, turns, envs, n, m);
    }
  }

  /** Any number of clusters, tenants and standalones, each of them reconciled again and again without
      a failure and with everything ready, in whatever order and whatever happens in between, are all
      eventually left alone if and only if wherever two of them share a hash key they ask for the
      same content. Otherwise something is written again and again, for ever. */
  lemma NeighboursConvergeIff(crs: seq<CR>, w: World, turns: Turns, envs: Envs)
    requires Cohabiting(crs)
    requires InTurn(PlansOf(crs), turns) && ReadableIn(PlansOf(crs), turns, envs) && Recurring(PlansOf(crs), turns,
        envs)
    ensures (exists n :: QuietFrom(PlansOf(crs), w, turns, envs, n)) <==> AllHarmonious(crs)
  {
    hide PlansOf, Cohabiting, QuietFrom, InTurn, ReadableIn, Recurring, Harmonious, AllCompatible;
    if AllHarmonious(crs) {
      HarmoniousIsCompatible(crs);
      var n := AllConverge(PlansOf(crs), w, turns, envs, 0);
    } else {
      var i, j :| 0 <= i < j < |crs| && !Harmonious(crs[i], crs[j]);
      forall n: nat ensures !QuietFrom(PlansOf(crs), w, turns, envs, n) {
        DiscordGoesOn(crs, w, turns, envs, i, j, n);
      }
    }
  }

  // ---------- named cases ----------

  /** Two custom resources with components of the same name clash, in one namespace or in two: the
      hash key of a StatefulSet is its name, but its content names its namespace and owner. */
  lemma SameNamesClash(a: CR, d: Deployment, b: CR, e: Deployment)
    requires d in Components(a) && e in Components(b) && d.name == e.name && Another(a, b)
    ensures !Harmonious(a, b) && Clash(PlanOf(a), PlanOf(b))
  {
    var x, y := StatefulSetFor(a, d, ""), StatefulSetFor(b, e, "");
    SetIsWanted(a, d, "");
    SetIsWanted(b, e, "");
    assert HashKey(x.key) == HashKey(y.key);
    assert x.content.workload.namespace == a.namespace && y.content.workload.namespace == b.namespace;
    assert x.content.workload.owner == OwnerOf(a) && y.content.workload.owner == OwnerOf(b);
    hide HashKey, PassWants, PlanOf, StatefulSetFor, Components, OwnerOf;
    CompatibleOrClash(a, b);
  }

  lemma SetIsWanted(cr: CR, d: Deployment, version: string)
    requires d in Components(cr)
    ensures StatefulSetFor(cr, d, version) in PassWants(PlanOf(cr), version)
  {
    PostWantsAre(cr, version);
    assert WorkloadWant(cr, d, version, StatefulSetFor(cr, d, version));
  }

  /** So from any pass on, until each of them has been reconciled once without a failure and with
      everything ready, something is written. */
  lemma SameNamesNeverSettle(crs: seq<CR>, w: World, turns: Turns, envs: Envs, begin: nat, s: nat, t: nat,
                             d: Deployment, e: Deployment)
    returns (m: nat)
    requires InTurn(PlansOf(crs), turns) && begin <= s && begin <= t
    requires var a, b := crs[turns(s)], crs[turns(t)];
             && Unstamped(a) && Unstamped(b) && Another(a, b)
             && d in Components(a) && e in Components(b) && d.name == e.name
             && Smooth(PlanOf(a), envs(s)) && Smooth(PlanOf(b), envs(t))
    ensures begin <= m && (m <= s || m <= t) && WritesIn(PlansOf(crs), w, turns, envs, m)
  {
    var a, b := crs[turns(s)], crs[turns(t)];
    SameNamesClash(a, d, b, e);
    PlanIsSound(a);
    PlanIsSound(b);
    hide PlanOf, Clash, Sound, Smooth, Unstamped, Components, WritesIn;
    m := ClashesGoOnForEver(PlansOf(crs), w, turns, envs, begin, s, t);
  }

  /** So do a cluster and a tenant that both write the HBase ConfigMap of one namespace, under one
      name, with different files. */
  lemma SharedConfigMapsClash(a: CR, b: CR, namespace: string)
    requires Another(a, b) && namespace in Namespaces(a) && namespace in Namespaces(b)
    requires a.config.hbaseName == b.config.hbaseName
    requires HbaseConfigMap(a.config, namespace) != HbaseConfigMap(b.config, namespace)
    ensures !Harmonious(a, b) && Clash(PlanOf(a), PlanOf(b))
  {
    ConfigIsWanted(a, namespace);
    ConfigIsWanted(b, namespace);
    var x, y := HbaseConfigMap(a.config, namespace), HbaseConfigMap(b.config, namespace);
    assert x.key == y.key && x.content != y.content;
    hide HashKey, PassWants, PlanOf, HbaseConfigMap, Namespaces;
    CompatibleOrClash(a, b);
  }

  lemma ConfigIsWanted(cr: CR, namespace: string)
    requires namespace in Namespaces(cr)
    ensures HbaseConfigMap(cr.config, namespace) in PassWants(PlanOf(cr), "")
  {
    PreWantsAre(cr);
    var i :| 0 <= i < |Namespaces(cr)| && Namespaces(cr)[i] == namespace;
  }
}
