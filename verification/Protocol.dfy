/** The reconcile protocol as functions on worlds: what happens to one wanted object, to the
    list of tasks a custom resource stands for, to a whole pass and to a run of passes. */
module Protocol {
  import opened Kube

  /** What a reconcile function returns: ask for another pass, after how many seconds, an error. */
  datatype Outcome = Outcome(requeue: bool, after: nat, failed: bool)

  const CLEAN := Outcome(false, 0, false)
  const RETRY := Outcome(false, 5, true)
  const INVALID := Outcome(false, 0, true)
  const WAIT := Outcome(true, 10, false)

  /** A successful write; a create hands back the new object's resource version. */
  datatype Write = Created(key: Key, version: Version) | Updated(key: Key)

  datatype Effect = Effect(world: World, outcome: Outcome, writes: seq<Write>)

  // ---------- one object ----------

  predicate Gated(k: Kind) {
    k.StatefulSetKind? || k.PdbKind?
  }

  function AfterCreate(k: Kind): Outcome {
    if Gated(k) then Outcome(true, 5, false) else CLEAN
  }

  function AfterUpdate(k: Kind): Outcome {
    if Gated(k) then WAIT else Outcome(false, 5, false)
  }

  /** The digest remembered for the wanted object is not the one it should have. */
  predicate Stale(w: World, x: Want) {
    HashKey(x.key) !in w.hashes || w.hashes[HashKey(x.key)] != Digest(x.content)
  }

  /** The address of a Service: the one in its spec, or else the one it is given. */
  function Address(c: Content, given: string): string {
    if !c.ServiceContent? then "" else if c.spec.clusterIP != "" then c.spec.clusterIP else given
  }

  function CreatedObject(x: Want, a: Answer): Stored {
    Stored(x.content, x.labels, false, a.version, Address(x.content, a.clusterIP))
  }

  /** An update replaces the object. Only a ConfigMap that had a digest before is annotated. */
  function UpdatedObject(w: World, x: Want, a: Answer): Stored
    requires x.key in w.objects
  {
    Stored(x.content, x.labels, x.key.kind.ConfigMapKind? && HashKey(x.key) in w.hashes, a.version,
           Address(x.content, w.objects[x.key].clusterIP))
  }

  /** The not-ready gate of a StatefulSet. */
  predicate Waiting(x: Want, s: Status) {
    x.key.kind.StatefulSetKind? && x.content.StatefulSetContent? && !Ready(s, x.content.workload.replicas)
  }

  function Reconcile(w: World, x: Want, a: Answer): Effect {
    if a.getFails then Effect(w, RETRY, [])
    else if x.key !in w.objects then
      if a.writeFails then Effect(w, RETRY, [])
      else
        Effect(World(w.objects[x.key := CreatedObject(x, a)], w.hashes),
               AfterCreate(x.key.kind), [Created(x.key, a.version)])
    else if Stale(w, x) then
      if a.writeFails then Effect(w, RETRY, [])
      else
        Effect(World(w.objects[x.key := UpdatedObject(w, x, a)], w.hashes[HashKey(x.key) := Digest(x.content)]),
               AfterUpdate(x.key.kind), [Updated(x.key)])
    else if Waiting(x, a.status) then Effect(w, WAIT, [])
    else Effect(w, CLEAN, [])
  }

  // ---------- a list of tasks ----------

  /** Reconcile an object, or stop the pass with an error unless a check holds. */
  datatype Task = Ensure(want: Want) | Check(ok: bool)

  function RunTask(w: World, t: Task, a: Answer): Effect {
    match t
    case Ensure(x) => Reconcile(w, x, a)
    case Check(ok) => Effect(w, if ok then CLEAN else INVALID, [])
  }

  /** Tasks run in order until one of them does not come out clean; `i` numbers the first. */
  function RunTasks(w: World, tasks: seq<Task>, env: Env, i: nat): Effect
    decreases |tasks|
  {
    if tasks == [] then Effect(w, CLEAN, [])
    else
      var e := RunTask(w, tasks[0], env(i));
      if e.outcome != CLEAN then e
      else
        var r := RunTasks(e.world, tasks[1..], env, i + 1);
        Effect(r.world, r.outcome, e.writes + r.writes)
  }

  // ---------- a pass ----------

  /** Where a pass finds the config version: on a ConfigMap that carries the update-time
      annotation, on the pod template of a StatefulSet that is already there, or in the answer to
      this pass's own create of a ConfigMap (if it is the only one with that key: the second of two
      finds what the first has left there). */
  datatype Source = FromConfigMap(key: Key) | FromStatefulSet(key: Key) | FromCreate(key: Key, only: bool)

  /** What a custom resource makes a pass do: the tasks before the config version is read, where
      it is read, and the tasks after that. */
  datatype Plan = Plan(pre: seq<Task>, source: Source, post: string -> seq<Task>)

  /** The resource version of an annotated ConfigMap, or "". */
  function AnnotatedVersion(w: World, k: Key): string {
    if k in w.objects && w.objects[k].annotated then w.objects[k].version else ""
  }

  function StampOf(w: World, k: Key): string {
    if k in w.objects then Stamp(w.objects[k].content) else ""
  }

  function CreatedVersion(writes: seq<Write>, k: Key): string {
    if writes != [] && writes[|writes| - 1].Created? && writes[|writes| - 1].key == k
    then writes[|writes| - 1].version else ""
  }

  /** A failed read counts as no version. */
  function VersionRead(s: Source, w: World, writes: seq<Write>, a: Answer): string {
    match s
    case FromCreate(k, only) => if only then CreatedVersion(writes, k) else ""
    case FromConfigMap(k) => if a.getFails then "" else AnnotatedVersion(w, k)
    case FromStatefulSet(k) => if a.getFails then "" else StampOf(w, k)
  }

  /** One pass over an existing custom resource. Answer 0 is for the read of the resource itself,
      answer 1 + |p.pre| for the read of the config version. */
  function Pass(p: Plan, w: World, env: Env): Effect {
    if env(0).getFails then Effect(w, RETRY, [])
    else
      var pre := RunTasks(w, p.pre, env, 1);
      if pre.outcome != CLEAN then pre
      else
        var version := VersionRead(p.source, pre.world, pre.writes, env(1 + |p.pre|));
        var post := RunTasks(pre.world, p.post(version), env, 2 + |p.pre|);
        Effect(post.world, post.outcome, pre.writes + post.writes)
  }

  /** The read behind the config version succeeds or says that there is no such object. */
  predicate VersionReadable(p: Plan, env: Env) {
    !env(1 + |p.pre|).getFails
  }

  // ---------- runs ----------

  /** A pass over a custom resource as it is at that moment, or an operator restart. */
  datatype Move = Reconciled(plan: Plan, env: Env) | Restarted

  function Forget(w: World): World {
    World(w.objects, map[])
  }

  function Apply(w: World, m: Move): World {
    match m
    case Reconciled(p, env) => Pass(p, w, env).world
    case Restarted => Forget(w)
  }

  function Run(w: World, moves: seq<Move>): World {
    if moves == [] then w else Apply(Run(w, moves[..|moves| - 1]), moves[|moves| - 1])
  }
}
