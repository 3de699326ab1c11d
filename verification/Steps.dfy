/** What reconciling one object does, case by case and with the values the operator uses: which
    object it leaves in the API server, which digest in the hash store, and what it asks for next. */
module Steps {
  import opened Kube
  import opened Protocol

  /** The hash store's keys. */
  lemma HashKeysAre(namespace: string, name: string)
    ensures HashKey(Key(ConfigMapKind, namespace, name)) == "cfg-" + name + namespace
    ensures HashKey(Key(ServiceKind, namespace, name)) == "svc-" + name
    ensures HashKey(Key(StatefulSetKind, namespace, name)) == "ss-" + name
    ensures HashKey(Key(PdbKind, namespace, name)) == "pdb-" + name
  {
  }

  /** The object is there, and the digest remembered for it is that of what is asked for. */
  predicate Current(w: World, x: Want) {
    x.key in w.objects && HashKey(x.key) in w.hashes && w.hashes[HashKey(x.key)] == Digest(x.content)
  }

  /** The readiness gate: an up-to-date StatefulSet lets a pass go on if and only if all replicas asked
      for are ready and its current revision is its update revision; otherwise the pass ends and asks
      for another one after ten seconds. */
  lemma GateIff(w: World, x: Want, a: Answer)
    requires x.key.kind.StatefulSetKind? && x.content.StatefulSetContent?
    requires Current(w, x) && !a.getFails
    ensures Reconcile(w, x, a).outcome == Outcome(false, 0, false) <==>
      a.status.readyReplicas == x.content.workload.replicas && a.status.currentRevision == a.status.updateRevision
    ensures Reconcile(w, x, a).outcome == Outcome(false, 0, false)
         || Reconcile(w, x, a).outcome == Outcome(true, 10, false)
    ensures Reconcile(w, x, a).world == w && Reconcile(w, x, a).writes == []
  {
  }

  /** Any other object that is up to date lets a pass go on. */
  lemma CurrentGoesOn(w: World, x: Want, a: Answer)
    requires !x.key.kind.StatefulSetKind? && Current(w, x) && !a.getFails
    ensures Reconcile(w, x, a) == Effect(w, Outcome(false, 0, false), [])
  {
  }

  /** A failed read, or a failed write where one is due, leaves no trace and ends the pass with an error. */
  lemma FailureLeavesNoTrace(w: World, x: Want, a: Answer)
    requires a.getFails || (a.writeFails && !Current(w, x))
    ensures Reconcile(w, x, a) == Effect(w, Outcome(false, 5, true), [])
  {
  }

  /** An absent object is created as asked for, without the update-time annotation; no digest is
      remembered. After a StatefulSet or a disruption budget the pass ends for five seconds. */
  lemma CreateStep(w: World, x: Want, a: Answer)
    requires x.key !in w.objects && !a.getFails && !a.writeFails
    ensures var e := Reconcile(w, x, a);
            && e.world.hashes == w.hashes && e.world.objects.Keys == w.objects.Keys + {x.key}
            && (forall k :: k in w.objects ==> e.world.objects[k] == w.objects[k])
            && e.world.objects[x.key].content == x.content && e.world.objects[x.key].labels == x.labels
            && !e.world.objects[x.key].annotated && e.world.objects[x.key].version == a.version
            && e.writes == [Created(x.key, a.version)]
            && e.outcome ==
                 if x.key.kind.StatefulSetKind? || x.key.kind.PdbKind? then Outcome(true, 5, false)
                 else Outcome(false, 0, false)
  {
  }

  /** An object whose digest is not the one asked for is replaced as a whole and the digest is
      remembered; only a ConfigMap for which some digest was remembered before gets the update-time
      annotation. The pass ends in any case. */
  lemma UpdateStep(w: World, x: Want, a: Answer)
    requires x.key in w.objects && !Current(w, x) && !a.getFails && !a.writeFails
    ensures var e := Reconcile(w, x, a);
            && e.world.hashes == w.hashes[HashKey(x.key) := Digest(x.content)]
            && e.world.objects.Keys == w.objects.Keys
            && (forall k :: k in w.objects && k != x.key ==> e.world.objects[k] == w.objects[k])
            && e.world.objects[x.key].content == x.content && e.world.objects[x.key].labels == x.labels
            && (e.world.objects[x.key].annotated <==> x.key.kind.ConfigMapKind? && HashKey(x.key) in w.hashes)
            && e.world.objects[x.key].version == a.version
            && e.writes == [Updated(x.key)]
            && e.outcome ==
                 if x.key.kind.StatefulSetKind? || x.key.kind.PdbKind? then Outcome(true, 10, false)
                 else Outcome(false, 5, false)
  {
  }

  /** A service keeps the address in its spec, or else the one it was given when it was created. */
  lemma AddressStep(w: World, x: Want, a: Answer)
    requires x.content.ServiceContent? && !a.getFails && !a.writeFails && !Current(w, x)
    ensures Reconcile(w, x, a).world.objects[x.key].clusterIP ==
      if x.content.spec.clusterIP != "" then x.content.spec.clusterIP
      else if x.key in w.objects then w.objects[x.key].clusterIP else a.clusterIP
  {
  }

  /** A pass ends at the first task that does not come out clean, with that task's outcome; a task for
      a check that fails ends it with an error and no other attempt asked for. */
  lemma ChecksStop(w: World, ok: bool, a: Answer)
    ensures RunTask(w, Check(ok), a) == Effect(w, Outcome(false, 0, !ok), [])
  {
  }
}
