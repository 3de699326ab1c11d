/** Passes over different custom resources run at the same time. Their reads, writes and hash
    store accesses interleave freely, but as long as they share no object and no hash key the
    result is that of running them one after the other. */
module Interleaving {
  import opened Kube
  import opened Protocol
  import opened TaskFacts
  import opened Passes

  // ---------- one pass, step by step ----------

  /** How far a pass is with one object: about to get it, about to create it, about to look up its
      digest, about to update it, about to remember its digest. */
  datatype Phase =
    | Getting
    | Creating
    | Comparing(was: Stored)
    | Updating(was: Stored, known: bool)
    | Remembering

  /** Where a pass is: before the read of the custom resource, at a task before or after the read
      of the config version (at that read if no task is left), or finished. */
  datatype Stage =
    | Starting
    | Before(i: nat, rest: seq<Task>, phase: Phase)
    | After(i: nat, rest: seq<Task>, phase: Phase)
    | Halted(outcome: Outcome)

  datatype Proc = Proc(plan: Plan, env: Env, stage: Stage, writes: seq<Write>)

  datatype State = State(proc: Proc, world: World)

  function Halt(p: Proc, outcome: Outcome): Proc {
    p.(stage := Halted(outcome))
  }

  function SetPhase(p: Proc, phase: Phase): Proc
    requires p.stage.Before? || p.stage.After?
  {
    p.(stage := p.stage.(phase := phase))
  }

  /** The task at hand came out with `outcome`. */
  function Next(p: Proc, outcome: Outcome): Proc
    requires (p.stage.Before? || p.stage.After?) && p.stage.rest != []
  {
    if outcome != CLEAN then Halt(p, outcome)
    else p.(stage := p.stage.(i := p.stage.i + 1, rest := p.stage.rest[1..], phase := Getting))
  }

  /** One access to the API server or the hash store on behalf of one object. */
  function ObjectStep(p: Proc, x: Want, w: World): State
    requires (p.stage.Before? || p.stage.After?) && p.stage.rest != []
  {
    var a := p.env(p.stage.i);
    match p.stage.phase
    case Getting =>
      if a.getFails then State(Halt(p, RETRY), w)
      else if x.key in w.objects then State(SetPhase(p, Comparing(w.objects[x.key])), w)
      else State(SetPhase(p, Creating), w)
    case Creating =>
      if a.writeFails || x.key in w.objects then State(Halt(p, RETRY), w)
      else
        State(Next(p.(writes := p.writes + [Created(x.key, a.version)]), AfterCreate(x.key.kind)),
              World(w.objects[x.key := CreatedObject(x, a)], w.hashes))
    case Comparing(was) =>
      if Stale(w, x) then State(SetPhase(p, Updating(was, HashKey(x.key) in w.hashes)), w)
      else if Waiting(x, a.status) then State(Halt(p, WAIT), w)
      else State(Next(p, CLEAN), w)
    case Updating(was, known) =>
      if a.writeFails || x.key !in w.objects then State(Halt(p, RETRY), w)
      else
        State(SetPhase(p.(writes := p.writes + [Updated(x.key)]), Remembering),
              World(w.objects[x.key := Stored(x.content, x.labels, x.key.kind.ConfigMapKind? && known, a.version,
                                              Address(x.content, was.clusterIP))],
                    w.hashes))
    case Remembering =>
      State(Halt(p, AfterUpdate(x.key.kind)), World(w.objects, w.hashes[HashKey(x.key) := Digest(x.content)]))
  }

  function Step(p: Proc, w: World): State {
    match p.stage
    case Starting =>
      State(if p.env(0).getFails then Halt(p, RETRY) else p.(stage := Before(1, p.plan.pre, Getting)), w)
    case Halted(_) => State(p, w)
    case Before(i, rest, _) =>
      if rest == [] then
        var version := VersionRead(p.plan.source, w, p.writes, p.env(i));
        State(p.(stage := After(i + 1, p.plan.post(version), Getting)), w)
      else TaskStep(p, rest[0], w)
    case After(_, rest, _) =>
      if rest == [] then State(Halt(p, CLEAN), w) else TaskStep(p, rest[0], w)
  }

  function TaskStep(p: Proc, t: Task, w: World): State
    requires (p.stage.Before? || p.stage.After?) && p.stage.rest != []
  {
    match t
    case Check(ok) => State(Next(p, if ok then CLEAN else INVALID), w)
    case Ensure(x) => ObjectStep(p, x, w)
  }

  function Start(plan: Plan, env: Env): Proc {
    Proc(plan, env, Starting, [])
  }

  /** `n` steps of one pass with nothing in between. */
  function Solo(p: Proc, w: World, n: nat): State {
    if n == 0 then State(p, w)
    else
      var s := Solo(p, w, n - 1);
      Step(s.proc, s.world)
  }

  lemma {:induction false} SoloSum(p: Proc, w: World, m: nat, n: nat)
    ensures var s := Solo(p, w, m); Solo(p, w, m + n) == Solo(s.proc, s.world, n)
    decreases n
  {
    hide Step;
    if n > 0 {
      SoloSum(p, w, m, n - 1);
    }
  }

  lemma {:induction false} HaltedStays(p: Proc, w: World, n: nat)
    requires p.stage.Halted?
    ensures Solo(p, w, n) == State(p, w)
    decreases n
  {
    if n > 0 {
      HaltedStays(p, w, n - 1);
    }
  }

  // ---------- steps and passes ----------

  /** A process at the beginning of a list of tasks. */
  function At(p: Proc, after: bool, i: nat, rest: seq<Task>, writes: seq<Write>): Proc {
    p.(stage := if after then After(i, rest, Getting) else Before(i, rest, Getting), writes := writes)
  }

  lemma SoloOne(p: Proc, w: World)
    ensures Solo(p, w, 1) == Step(p, w)
  {
    assert Solo(p, w, 0) == State(p, w);
  }

  lemma TwoSteps(p: Proc, w: World)
    ensures var s := Step(p, w); Solo(p, w, 1) == s && Solo(p, w, 2) == Step(s.proc, s.world)
  {
    SoloOne(p, w);
  }

  /** A step of a process that is busy with an object. */
  lemma BusyStep(p: Proc, after: bool, i: nat, rest: seq<Task>, writes: seq<Write>, phase: Phase, w: World)
    requires rest != [] && rest[0].Ensure?
    ensures var q := SetPhase(At(p, after, i, rest, writes), phase); Step(q, w) == ObjectStep(q, rest[0].want, w)
  {
  }

  /** A process that has run an object's reconcile function to its end. */
  function Done(p: Proc, after: bool, i: nat, rest: seq<Task>, writes: seq<Write>, e: Effect): State
    requires rest != []
  {
    State(if e.outcome == CLEAN then At(p, after, i + 1, rest[1..], writes + e.writes)
          else p.(stage := Halted(e.outcome), writes := writes + e.writes), e.world)
  }

  /** From the comparison of an object that was found, at most three more steps. */
  lemma SoloFound(p: Proc, after: bool, i: nat, rest: seq<Task>, writes: seq<Write>, w: World) returns (n: nat)
    requires rest != [] && rest[0].Ensure? && rest[0].want.key in w.objects && !p.env(i).getFails
    ensures var x := rest[0].want;
            Solo(SetPhase(At(p, after, i, rest, writes), Comparing(w.objects[x.key])), w, n)
              == Done(p, after, i, rest, writes, Reconcile(w, x, p.env(i)))
  {
    var x, a := rest[0].want, p.env(i);
    var was := w.objects[x.key];
    var q := SetPhase(At(p, after, i, rest, writes), Comparing(was));
    assert writes + [] == writes;
    BusyStep(p, after, i, rest, writes, Comparing(was), w);
    SoloOne(q, w);
    hide Step, Solo, Stale, Waiting, HashKey;
    n := 1;
    if Stale(w, x) {
      var known := HashKey(x.key) in w.hashes;
      BusyStep(p, after, i, rest, writes, Updating(was, known), w);
      var u := SetPhase(q, Updating(was, known));
      TwoSteps(u, w);
      SoloSum(q, w, 1, 1);
      n := 2;
      if !a.writeFails {
        BusyStep(p, after, i, rest, writes + [Updated(x.key)], Remembering, Step(u, w).world);
        SoloSum(q, w, 1, 2);
        n := 3;
      }
    }
  }

  /** A read that fails, or finds no object. */
  lemma SoloNotFound(p: Proc, after: bool, i: nat, rest: seq<Task>, writes: seq<Write>, w: World) returns (n: nat)
    requires rest != [] && rest[0].Ensure? && (p.env(i).getFails || rest[0].want.key !in w.objects)
    ensures Solo(At(p, after, i, rest, writes), w, n) ==
        Done(p, after, i, rest, writes, Reconcile(w, rest[0].want, p.env(i)))
  {
    var q := At(p, after, i, rest, writes);
    assert writes + [] == writes;
    TwoSteps(q, w);
    BusyStep(p, after, i, rest, writes, Getting, w);
    BusyStep(p, after, i, rest, writes, Creating, w);
    hide Step, Solo, Stale, Waiting, CreatedObject, HashKey, UpdatedObject;
    n := if p.env(i).getFails then 1 else 2;
  }

  lemma FindStep(p: Proc, after: bool, i: nat, rest: seq<Task>, writes: seq<Write>, w: World)
    requires rest != [] && rest[0].Ensure? && rest[0].want.key in w.objects && !p.env(i).getFails
    ensures Step(At(p, after, i, rest, writes), w)
         == State(SetPhase(At(p, after, i, rest, writes), Comparing(w.objects[rest[0].want.key])), w)
  {
  }

  /** Reconciling one object takes at most four steps. */
  lemma SoloObject(p: Proc, after: bool, i: nat, rest: seq<Task>, writes: seq<Write>, w: World) returns (n: nat)
    requires rest != [] && rest[0].Ensure?
    ensures Solo(At(p, after, i, rest, writes), w, n) ==
        Done(p, after, i, rest, writes, Reconcile(w, rest[0].want, p.env(i)))
  {
    hide Step, Solo, Reconcile, Done, At, SetPhase;
    if p.env(i).getFails || rest[0].want.key !in w.objects {
      n := SoloNotFound(p, after, i, rest, writes, w);
    } else {
      var m := SoloFound(p, after, i, rest, writes, w);
      FindStep(p, after, i, rest, writes, w);
      SoloOne(At(p, after, i, rest, writes), w);
      SoloSum(At(p, after, i, rest, writes), w, 1, m);
      n := 1 + m;
    }
  }

  /** One task has the effect of the reconcile function. */
  lemma SoloTask(p: Proc, after: bool, i: nat, rest: seq<Task>, writes: seq<Write>, w: World) returns (n: nat)
    requires rest != []
    ensures var e := RunTask(w, rest[0], p.env(i));
            var s := Solo(At(p, after, i, rest, writes), w, n);
            && s.world == e.world
            && s.proc == (if e.outcome == CLEAN then At(p, after, i + 1, rest[1..], writes + e.writes)
                          else p.(stage := Halted(e.outcome), writes := writes + e.writes))
  {
    if rest[0].Ensure? {
      n := SoloObject(p, after, i, rest, writes, w);
    } else {
      n := 1;
      assert writes + [] == writes;
      SoloOne(At(p, after, i, rest, writes), w);
    }
  }

  lemma {:induction false} SoloTasks(p: Proc, after: bool, i: nat, rest: seq<Task>, writes: seq<Write>, w: World)
      returns (n: nat)
    ensures var e := RunTasks(w, rest, p.env, i);
            var s := Solo(At(p, after, i, rest, writes), w, n);
            && s.world == e.world
            && s.proc == (if e.outcome == CLEAN then At(p, after, i + |rest|, [], writes + e.writes)
                          else p.(stage := Halted(e.outcome), writes := writes + e.writes))
    decreases |rest|
  {
    hide Step, RunTask;
    if rest == [] {
      n := 0;
      assert writes + [] == writes;
    } else {
      var q := At(p, after, i, rest, writes);
      var m := SoloTask(p, after, i, rest, writes, w);
      var e := RunTask(w, rest[0], p.env(i));
      n := m;
      if e.outcome == CLEAN {
        var k := SoloTasks(p, after, i + 1, rest[1..], writes + e.writes, e.world);
        SoloSum(q, w, m, k);
        n := m + k;
        var r := RunTasks(e.world, rest[1..], p.env, i + 1);
        assert (writes + e.writes) + r.writes == writes + (e.writes + r.writes);
      }
    }
  }

  lemma EndStep(p: Proc, i: nat, writes: seq<Write>, w: World)
    ensures Step(At(p, true, i, [], writes), w) == State(p.(stage := Halted(CLEAN), writes := writes), w)
  {
  }

  lemma VersionStep(p: Proc, i: nat, writes: seq<Write>, w: World)
    ensures Step(At(p, false, i, [], writes), w) ==
              State(At(p, true, i + 1, p.plan.post(VersionRead(p.plan.source, w, writes, p.env(i))), writes), w)
  {
  }

  lemma FirstStep(plan: Plan, env: Env, w: World)
    ensures var p := Start(plan, env);
            Step(p, w) == State(if env(0).getFails then Halt(p, RETRY) else At(p, false, 1, plan.pre, []), w)
  {
  }

  /** The tasks after the read of the version, to the end. */
  lemma SoloPost(p: Proc, i: nat, tasks: seq<Task>, writes: seq<Write>, w: World) returns (n: nat)
    ensures var e := RunTasks(w, tasks, p.env, i);
            Solo(At(p, true, i, tasks, writes), w, n) ==
              State(p.(stage := Halted(e.outcome), writes := writes + e.writes), e.world)
  {
    hide Step, RunTasks, Solo;
    n := SoloTasks(p, true, i, tasks, writes, w);
    var e := RunTasks(w, tasks, p.env, i);
    if e.outcome == CLEAN {
      var q := At(p, true, i, tasks, writes);
      var r := Solo(q, w, n);
      SoloSum(q, w, n, 1);
      SoloOne(r.proc, r.world);
      EndStep(p, i + |tasks|, writes + e.writes, e.world);
      n := n + 1;
    }
  }

  /** Left alone, a process finishes, with the outcome, the writes and the world of the pass. */
  lemma SoloPass(plan: Plan, env: Env, w: World) returns (n: nat)
    ensures var e := Pass(plan, w, env);
            Solo(Start(plan, env), w, n) == State(Proc(plan, env, Halted(e.outcome), e.writes), e.world)
  {
    hide Step, RunTasks, VersionRead, Solo;
    var p := Start(plan, env);
    FirstStep(plan, env, w);
    SoloOne(p, w);
    n := 1;
    if !env(0).getFails {
      var pre := RunTasks(w, plan.pre, env, 1);
      var k := SoloTasks(p, false, 1, plan.pre, [], w);
      SoloSum(p, w, 1, k);
      assert [] + pre.writes == pre.writes;
      n := 1 + k;
      if pre.outcome == CLEAN {
        var version := VersionRead(plan.source, pre.world, pre.writes, env(1 + |plan.pre|));
        VersionStep(p, 1 + |plan.pre|, pre.writes, pre.world);
        SoloOne(At(p, false, 1 + |plan.pre|, [], pre.writes), pre.world);
        SoloSum(p, w, n, 1);
        var l := SoloPost(p, 2 + |plan.pre|, plan.post(version), pre.writes, pre.world);
        SoloSum(p, w, n + 1, l);
        n := n + 1 + l;
      }
    }
  }

  // ---------- locality ----------

  /** The two worlds do not differ in these objects and their digests. */
  ghost predicate AgreeOn(w: World, v: World, ks: set<Key>) {
    forall k :: k in ks ==>
      && (k in w.objects <==> k in v.objects)
      && (k in w.objects ==> w.objects[k] == v.objects[k])
      && (HashKey(k) in w.hashes <==> HashKey(k) in v.hashes)
      && (HashKey(k) in w.hashes ==> w.hashes[HashKey(k)] == v.hashes[HashKey(k)])
  }

  /** The worlds differ in these objects and their digests only. */
  ghost predicate SameOutside(w: World, v: World, ks: set<Key>) {
    && (forall k :: k !in ks ==>
        (k in w.objects <==> k in v.objects) && (k in w.objects ==> w.objects[k] == v.objects[k]))
    && (forall h :: (forall k :: k in ks ==> HashKey(k) != h) ==>
          (h in w.hashes <==> h in v.hashes) && (h in w.hashes ==> w.hashes[h] == v.hashes[h]))
  }

  /** The pass has to do with these objects only. */
  ghost predicate Owns(ks: set<Key>, plan: Plan) {
    plan.source.key in ks && forall version: string :: KeysOf(PassWants(plan, version)) <= ks
  }

  ghost predicate Inside(p: Proc, ks: set<Key>) {
    Owns(ks, p.plan) && (p.stage.Before? || p.stage.After? ==> KeysOf(Wants(p.stage.rest)) <= ks)
  }

  lemma OwnTasks(ks: set<Key>, plan: Plan, version: string)
    requires Owns(ks, plan)
    ensures KeysOf(Wants(plan.pre)) <= ks && KeysOf(Wants(plan.post(version))) <= ks
  {
    assert KeysOf(PassWants(plan, version)) == KeysOf(Wants(plan.pre)) + KeysOf(Wants(plan.post(version)));
  }

  lemma OwnHead(ks: set<Key>, rest: seq<Task>)
    requires rest != [] && KeysOf(Wants(rest)) <= ks
    ensures KeysOf(Wants(rest[1..])) <= ks
    ensures rest[0].Ensure? ==> rest[0].want.key in ks
  {
    WantsOfTail(rest);
    if rest[0].Ensure? {
      assert rest[0].want.key in KeysOf(Wants(rest));
    }
    assert KeysOf(Wants(rest[1..])) <= KeysOf(Wants(rest));
  }

  lemma SameWrite(w: World, v: World, k: Key, o: Stored, ks: set<Key>)
    requires k in ks && AgreeOn(w, v, ks)
    ensures AgreeOn(World(w.objects[k := o], w.hashes), World(v.objects[k := o], v.hashes), ks)
    ensures SameOutside(w, World(w.objects[k := o], w.hashes), ks)
  {
  }

  lemma SameDigest(w: World, v: World, k: Key, d: Digest, ks: set<Key>)
    requires k in ks && AgreeOn(w, v, ks)
    ensures AgreeOn(World(w.objects, w.hashes[HashKey(k) := d]), World(v.objects, v.hashes[HashKey(k) := d]), ks)
    ensures SameOutside(w, World(w.objects, w.hashes[HashKey(k) := d]), ks)
  {
  }

  lemma Unmoved(w: World, ks: set<Key>)
    ensures AgreeOn(w, w, ks) && SameOutside(w, w, ks)
  {
  }

  /** The object and its digest are the same in both worlds. */
  lemma SameView(x: Want, w: World, v: World, ks: set<Key>)
    requires x.key in ks && AgreeOn(w, v, ks)
    ensures x.key in w.objects <==> x.key in v.objects
    ensures x.key in w.objects ==> w.objects[x.key] == v.objects[x.key]
    ensures Stale(w, x) <==> Stale(v, x)
    ensures HashKey(x.key) in w.hashes <==> HashKey(x.key) in v.hashes
  {
  }

  lemma ObjectStepIsLocal(p: Proc, x: Want, w: World, v: World, ks: set<Key>)
    requires (p.stage.Before? || p.stage.After?) && p.stage.rest != []
    requires x.key in ks && AgreeOn(w, v, ks)
    ensures ObjectStep(p, x, w).proc == ObjectStep(p, x, v).proc
    ensures AgreeOn(ObjectStep(p, x, w).world, ObjectStep(p, x, v).world, ks)
    ensures SameOutside(w, ObjectStep(p, x, w).world, ks)
  {
    hide AgreeOn, SameOutside, HashKey, Stale, Waiting, CreatedObject, Address, Next, Halt, SetPhase;
    var a := p.env(p.stage.i);
    Unmoved(w, ks);
    SameView(x, w, v, ks);
    match p.stage.phase
    case Creating =>
      SameWrite(w, v, x.key, CreatedObject(x, a), ks);
    case Updating(was, known) =>
      SameWrite(w, v, x.key, Stored(x.content, x.labels, x.key.kind.ConfigMapKind? && known, a.version,
                                    Address(x.content, was.clusterIP)), ks);
    case Remembering =>
      SameDigest(w, v, x.key, Digest(x.content), ks);
    case _ =>
  }

  lemma SameVersion(s: Source, w: World, v: World, writes: seq<Write>, a: Answer, ks: set<Key>)
    requires s.key in ks && AgreeOn(w, v, ks)
    ensures VersionRead(s, w, writes, a) == VersionRead(s, v, writes, a)
  {
  }

  lemma TaskStepIsLocal(p: Proc, t: Task, w: World, v: World, ks: set<Key>)
    requires (p.stage.Before? || p.stage.After?) && p.stage.rest != []
    requires Inside(p, ks) && AgreeOn(w, v, ks) && (t.Ensure? ==> t.want.key in ks)
    ensures TaskStep(p, t, w).proc == TaskStep(p, t, v).proc && Inside(TaskStep(p, t, w).proc, ks)
    ensures AgreeOn(TaskStep(p, t, w).world, TaskStep(p, t, v).world, ks)
    ensures SameOutside(w, TaskStep(p, t, w).world, ks)
  {
    OwnHead(ks, p.stage.rest);
    Unmoved(w, ks);
    NextInside(p, if t.Check? && !t.ok then INVALID else CLEAN, ks);
    hide AgreeOn, SameOutside;
    match t
    case Check(_) =>
    case Ensure(x) =>
      ObjectStepIsLocal(p, x, w, v, ks);
      ObjectStepInside(p, x, w, ks);
  }

  lemma NextInside(p: Proc, outcome: Outcome, ks: set<Key>)
    requires (p.stage.Before? || p.stage.After?) && p.stage.rest != [] && Inside(p, ks)
    ensures Inside(Next(p, outcome), ks)
  {
    OwnHead(ks, p.stage.rest);
  }

  lemma ObjectStepInside(p: Proc, x: Want, w: World, ks: set<Key>)
    requires (p.stage.Before? || p.stage.After?) && p.stage.rest != [] && Inside(p, ks)
    ensures Inside(ObjectStep(p, x, w).proc, ks)
  {
    NextInside(p, CLEAN, ks);
    NextInside(p.(writes := p.writes + [Created(x.key, p.env(p.stage.i).version)]), AfterCreate(x.key.kind), ks);
  }

  /** A step depends on, and changes, what the pass has to do with and nothing else. */
  lemma StepIsLocal(p: Proc, w: World, v: World, ks: set<Key>)
    requires Inside(p, ks) && AgreeOn(w, v, ks)
    ensures Step(p, w).proc == Step(p, v).proc && Inside(Step(p, w).proc, ks)
    ensures AgreeOn(Step(p, w).world, Step(p, v).world, ks)
    ensures SameOutside(w, Step(p, w).world, ks)
  {
    OwnTasks(ks, p.plan, "");
    Unmoved(w, ks);
    hide AgreeOn, SameOutside, TaskStep, VersionRead;
    if (p.stage.Before? || p.stage.After?) && p.stage.rest != [] {
      OwnHead(ks, p.stage.rest);
      TaskStepIsLocal(p, p.stage.rest[0], w, v, ks);
    } else if p.stage.Before? {
      SameVersion(p.plan.source, w, v, p.writes, p.env(p.stage.i), ks);
      OwnTasks(ks, p.plan, VersionRead(p.plan.source, w, p.writes, p.env(p.stage.i)));
    }
  }

  // ---------- many passes ----------

  datatype System = System(procs: seq<Proc>, world: World)

  function Tick(s: System, j: nat): System {
    if j < |s.procs| then
      var t := Step(s.procs[j], s.world);
      System(s.procs[j := t.proc], t.world)
    else s
  }

  /** The system after its processes have moved in this order. */
  function Exec(s: System, schedule: seq<nat>): System {
    if schedule == [] then s else Tick(Exec(s, schedule[..|schedule| - 1]), schedule[|schedule| - 1])
  }

  /** How often process `j` moves. */
  function Turns(schedule: seq<nat>, j: nat): nat {
    if schedule == [] then 0
    else Turns(schedule[..|schedule| - 1], j) + if schedule[|schedule| - 1] == j then 1 else 0
  }

  /** Each process has objects and hash keys of its own. */
  ghost predicate Apart(s: System, feet: seq<set<Key>>) {
    && |feet| == |s.procs|
    && (forall j :: 0 <= j < |feet| ==> Inside(s.procs[j], feet[j]))
    && (forall i, j, k, l :: 0 <= i < |feet| && 0 <= j < |feet| && i != j && k in feet[i] && l in feet[j] ==>
          HashKey(k) != HashKey(l))
  }

  lemma {:induction false} ExecLength(s: System, schedule: seq<nat>)
    ensures |Exec(s, schedule).procs| == |s.procs|
    decreases |schedule|
  {
    if schedule != [] {
      ExecLength(s, schedule[..|schedule| - 1]);
    }
  }

  lemma {:induction false} SoloInside(p: Proc, w: World, n: nat, ks: set<Key>)
    requires Inside(p, ks)
    ensures Inside(Solo(p, w, n).proc, ks)
    decreases n
  {
    hide Step, Inside, SameOutside;
    if n > 0 {
      SoloInside(p, w, n - 1, ks);
      var s := Solo(p, w, n - 1);
      StepIsLocal(s.proc, s.world, s.world, ks);
    }
  }

  lemma OthersUntouched(w: World, v: World, u: World, ks: set<Key>, ls: set<Key>)
    requires AgreeOn(w, u, ks) && SameOutside(w, v, ls)
    requires forall k, l :: k in ks && l in ls ==> HashKey(k) != HashKey(l)
    ensures AgreeOn(v, u, ks)
  {
    forall k | k in ks
      ensures (k in v.objects <==> k in u.objects) && (k in v.objects ==> v.objects[k] == u.objects[k])
      ensures HashKey(k) in v.hashes <==> HashKey(k) in u.hashes
      ensures HashKey(k) in v.hashes ==> v.hashes[HashKey(k)] == u.hashes[HashKey(k)]
    {
      assert k !in ls;
    }
  }

  /** In the midst of any interleaving each process is where it would be alone, and so is the part
      of the world that it has to do with. */
  lemma {:induction false} EachAsAlone(s: System, feet: seq<set<Key>>, schedule: seq<nat>, j: nat)
    requires Apart(s, feet) && j < |feet|
    ensures |Exec(s, schedule).procs| == |s.procs|
    ensures var alone := Solo(s.procs[j], s.world, Turns(schedule, j));
            Exec(s, schedule).procs[j] == alone.proc && AgreeOn(Exec(s, schedule).world, alone.world, feet[j])
    decreases |schedule|
  {
    hide Step, Inside, AgreeOn, SameOutside, HashKey;
    Unmoved(s.world, feet[j]);
    ExecLength(s, schedule);
    if schedule != [] {
      var before, t := schedule[..|schedule| - 1], schedule[|schedule| - 1];
      ExecLength(s, before);
      EachAsAlone(s, feet, before, j);
      var here := Exec(s, before);
      var alone := Solo(s.procs[j], s.world, Turns(before, j));
      if t == j {
        SoloInside(s.procs[j], s.world, Turns(before, j), feet[j]);
        StepIsLocal(here.procs[j], here.world, alone.world, feet[j]);
      } else if t < |feet| {
        EachAsAlone(s, feet, before, t);
        SoloInside(s.procs[t], s.world, Turns(before, t), feet[t]);
        Unmoved(here.world, feet[t]);
        StepIsLocal(here.procs[t], here.world, here.world, feet[t]);
        OthersUntouched(here.world, Exec(s, schedule).world, alone.world, feet[j], feet[t]);
      }
    }
  }

  ghost function Union(feet: seq<set<Key>>): set<Key> {
    set j, k | 0 <= j < |feet| && k in feet[j] :: k
  }

  lemma {:induction false} NothingElseChanges(s: System, feet: seq<set<Key>>, schedule: seq<nat>)
    requires Apart(s, feet)
    ensures SameOutside(s.world, Exec(s, schedule).world, Union(feet))
    decreases |schedule|
  {
    hide Step, Inside;
    if schedule != [] {
      var before, t := schedule[..|schedule| - 1], schedule[|schedule| - 1];
      NothingElseChanges(s, feet, before);
      ExecLength(s, before);
      if t < |feet| {
        EachAsAlone(s, feet, before, t);
        SoloInside(s.procs[t], s.world, Turns(before, t), feet[t]);
        var here := Exec(s, before);
        StepIsLocal(here.procs[t], here.world, here.world, feet[t]);
        assert feet[t] <= Union(feet);
      }
    }
  }

  ghost predicate Finished(s: System) {
    forall j :: 0 <= j < |s.procs| ==> s.procs[j].stage.Halted?
  }

  lemma SameEnd(p: Proc, w: World, m: nat, n: nat)
    requires Solo(p, w, m).proc.stage.Halted? && Solo(p, w, n).proc.stage.Halted?
    ensures Solo(p, w, m) == Solo(p, w, n)
  {
    hide Step;
    var low, high := if m <= n then m else n, if m <= n then n else m;
    var s := Solo(p, w, low);
    SoloSum(p, w, low, high - low);
    HaltedStays(s.proc, s.world, high - low);
  }

  lemma SameWorlds(w: World, v: World, u: World, feet: seq<set<Key>>)
    requires SameOutside(u, w, Union(feet)) && SameOutside(u, v, Union(feet))
    requires forall j :: 0 <= j < |feet| ==> AgreeOn(w, v, feet[j])
    ensures w == v
  {
    forall k: Key
      ensures (k in w.objects <==> k in v.objects) && (k in w.objects ==> w.objects[k] == v.objects[k])
    {
      if k in Union(feet) {
        var j :| 0 <= j < |feet| && k in feet[j];
        assert AgreeOn(w, v, feet[j]);
      }
    }
    forall h: string
      ensures (h in w.hashes <==> h in v.hashes) && (h in w.hashes ==> w.hashes[h] == v.hashes[h])
    {
      if k :| k in Union(feet) && HashKey(k) == h {
        var j :| 0 <= j < |feet| && k in feet[j];
        assert AgreeOn(w, v, feet[j]);
      }
    }
    assert w.objects == v.objects && w.hashes == v.hashes;
  }

  /** However the steps of passes that share nothing are interleaved, when all have finished the
      outcomes, the API server and the hash store are the same. */
  lemma InterleavingDoesNotMatter(s: System, feet: seq<set<Key>>, one: seq<nat>, two: seq<nat>)
    requires Apart(s, feet) && Finished(Exec(s, one)) && Finished(Exec(s, two))
    ensures Exec(s, one) == Exec(s, two)
  {
    var a, b := Exec(s, one), Exec(s, two);
    ExecLength(s, one);
    ExecLength(s, two);
    forall j | 0 <= j < |feet| ensures a.procs[j] == b.procs[j] && AgreeOn(a.world, b.world, feet[j]) {
      EachAsAlone(s, feet, one, j);
      EachAsAlone(s, feet, two, j);
      SameEnd(s.procs[j], s.world, Turns(one, j), Turns(two, j));
    }
    assert a.procs == b.procs;
    NothingElseChanges(s, feet, one);
    NothingElseChanges(s, feet, two);
    SameWorlds(a.world, b.world, s.world, feet);
  }

  // ---------- one after the other ----------

  /** The world after the first `n` passes, each run to its end before the next. */
  function Serial(plans: seq<Plan>, envs: seq<Env>, w: World, n: nat): World
    requires n <= |plans| == |envs|
  {
    if n == 0 then w else Pass(plans[n - 1], Serial(plans, envs, w, n - 1), envs[n - 1]).world
  }

  function Starts(plans: seq<Plan>, envs: seq<Env>): seq<Proc>
    requires |plans| == |envs|
  {
    seq(|plans|, j requires 0 <= j < |plans| => Start(plans[j], envs[j]))
  }

  function Repeat(j: nat, n: nat): seq<nat> {
    seq(n, _ => j)
  }

  lemma {:induction false} ExecSum(s: System, a: seq<nat>, b: seq<nat>)
    ensures Exec(s, a + b) == Exec(Exec(s, a), b)
    decreases |b|
  {
    if b == [] {
      assert a + b == a;
    } else {
      assert (a + b)[..|a + b| - 1] == a + b[..|b| - 1];
      ExecSum(s, a, b[..|b| - 1]);
    }
  }

  lemma {:induction false} ExecRepeat(s: System, j: nat, n: nat)
    requires j < |s.procs|
    ensures var t := Solo(s.procs[j], s.world, n);
            Exec(s, Repeat(j, n)) == System(s.procs[j := t.proc], t.world)
    decreases n
  {
    if n == 0 {
      assert s.procs[j := s.procs[j]] == s.procs;
    } else {
      assert Repeat(j, n)[..n - 1] == Repeat(j, n - 1);
      ExecRepeat(s, j, n - 1);
    }
  }

  /** The first `n` processes have finished, one after the other, and the rest have not begun. */
  ghost predicate Sequential(s: System, plans: seq<Plan>, envs: seq<Env>, w: World, n: nat)
    requires n <= |plans| == |envs|
  {
    && s.world == Serial(plans, envs, w, n)
    && |s.procs| == |plans|
    && (forall j :: 0 <= j < n ==>
        s.procs[j].stage == Halted(Pass(plans[j], Serial(plans, envs, w, j), envs[j]).outcome))
    && (forall j :: n <= j < |plans| ==> s.procs[j] == Start(plans[j], envs[j]))
  }

  lemma RunNext(s: System, plans: seq<Plan>, envs: seq<Env>, w: World, n: nat) returns (turns: seq<nat>)
    requires n < |plans| == |envs| && Sequential(s, plans, envs, w, n)
    ensures Sequential(Exec(s, turns), plans, envs, w, n + 1)
  {
    hide Step, Pass, Exec, Solo;
    var k := SoloPass(plans[n], envs[n], s.world);
    ExecRepeat(s, n, k);
    turns := Repeat(n, k);
  }

  lemma NothingRun(plans: seq<Plan>, envs: seq<Env>, w: World)
    requires |plans| == |envs|
    ensures Sequential(Exec(System(Starts(plans, envs), w), []), plans, envs, w, 0)
  {
  }

  lemma {:induction false} SerialSchedule(plans: seq<Plan>, envs: seq<Env>, w: World, n: nat)
      returns (schedule: seq<nat>)
    requires n <= |plans| == |envs|
    ensures Sequential(Exec(System(Starts(plans, envs), w), schedule), plans, envs, w, n)
    decreases n
  {
    hide Sequential, Exec, Starts;
    var start := System(Starts(plans, envs), w);
    if n == 0 {
      schedule := [];
      NothingRun(plans, envs, w);
    } else {
      var before := SerialSchedule(plans, envs, w, n - 1);
      var turns := RunNext(Exec(start, before), plans, envs, w, n - 1);
      ExecSum(start, before, turns);
      schedule := before + turns;
    }
  }

  /** Passes that share no object and no hash key are serializable: whenever an interleaving of
      their steps has run to its end, the API server and the hash store are as after running them
      one after the other, and each pass has returned what it returns then. */
  lemma Serializable(plans: seq<Plan>, envs: seq<Env>, w: World, feet: seq<set<Key>>, schedule: seq<nat>)
    requires |plans| == |envs| == |feet|
    requires forall j :: 0 <= j < |feet| ==> Owns(feet[j], plans[j])
    requires forall i, j, k, l :: 0 <= i < |feet| && 0 <= j < |feet| && i != j && k in feet[i] && l in feet[j] ==>
               HashKey(k) != HashKey(l)
    requires Finished(Exec(System(Starts(plans, envs), w), schedule))
    ensures Sequential(Exec(System(Starts(plans, envs), w), schedule), plans, envs, w, |plans|)
  {
    hide Step, Pass, Exec, Solo, HashKey, Serial;
    var serial := SerialSchedule(plans, envs, w, |plans|);
    InterleavingDoesNotMatter(System(Starts(plans, envs), w), feet, schedule, serial);
  }
}
