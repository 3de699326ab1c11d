/** The names the operator makes up, and why its hash keys do not clash. */
module Names {
  import opened Kube
  import opened HashKeys
  import opened Resources
  import opened TaskFacts
  import opened Passes
  import opened Plans

  predicate Digits(s: string) {
    forall i :: 0 <= i < |s| ==> '0' <= s[i] <= '9'
  }

  lemma {:induction false} DecimalIsDigits(n: nat)
    ensures Digits(Decimal(n)) && Decimal(n) != ""
    decreases n
  {
    if n >= 10 {
      DecimalIsDigits(n / 10);
    }
  }

  lemma {:induction false} DecimalIsInjective(m: nat, n: nat)
    requires Decimal(m) == Decimal(n)
    ensures m == n
    decreases m + n
  {
    DecimalIsDigits(m / 10);
    DecimalIsDigits(n / 10);
    assert Decimal(m)[|Decimal(m)| - 1] == '0' + (m % 10) as char;
    assert Decimal(n)[|Decimal(n)| - 1] == '0' + (n % 10) as char;
    assert m % 10 == n % 10;
    if m >= 10 && n >= 10 {
      assert Decimal(m)[..|Decimal(m)| - 1] == Decimal(m / 10);
      assert Decimal(n)[..|Decimal(n)| - 1] == Decimal(n / 10);
      DecimalIsInjective(m / 10, n / 10);
    }
  }

  /** In `a + "-" + d` the dash before `d` is the last one. */
  lemma NoDashAfter(a: string, d: string, k: nat)
    requires Digits(d)
    ensures (a + "-" + d)[|a|] == '-'
    ensures |a| < k < |a + "-" + d| ==> (a + "-" + d)[k] != '-'
  {
    if |a| < k < |a + "-" + d| {
      assert (a + "-" + d)[k] == d[k - |a| - 1];
    }
  }

  lemma SplitAt(a: string, d: string)
    ensures (a + "-" + d)[..|a|] == a && (a + "-" + d)[|a| + 1..] == d
  {
  }

  lemma LastDash(a: string, d: string, b: string, e: string)
    requires Digits(d) && Digits(e) && a + "-" + d == b + "-" + e
    ensures a == b && d == e
  {
    NoDashAfter(a, d, |b|);
    NoDashAfter(b, e, |a|);
    SplitAt(a, d);
    SplitAt(b, e);
    assert |a| == |b|;
  }

  /** A pod's name tells the component and the ordinal, whatever dashes and digits the component's
      name has: the pod services of a custom resource have pairwise distinct names, and a selector
      on the pod name matches one pod. */
  lemma PodNameIsInjective(a: string, i: nat, b: string, j: nat)
    requires PodName(a, i) == PodName(b, j)
    ensures a == b && i == j
  {
    DecimalIsDigits(i);
    DecimalIsDigits(j);
    LastDash(a, Decimal(i), b, Decimal(j));
    DecimalIsInjective(i, j);
  }

  // ---------- which custom resources are well named ----------

  /** The components have distinct names, no pod is called like the custom resource, and no HBase
      and Hadoop ConfigMap agree in name followed by namespace. */
  ghost predicate DistinctNames(cr: CR) {
    && (forall d, e :: d in Components(cr) && e in Components(cr) && d.name == e.name ==> d == e)
    && (forall d, i: nat :: d in Components(cr) && i < d.size ==> PodName(d.name, i) != cr.name)
    && (forall m, n :: m in Namespaces(cr) && n in Namespaces(cr) ==>
        cr.config.hbaseName + m != cr.config.hadoopName + n)
  }

  ghost predicate ConfigWant(cr: CR, x: Want) {
    exists n :: n in Namespaces(cr) && (x == HbaseConfigMap(cr.config, n) || x == HadoopConfigMap(cr.config, n))
  }

  ghost predicate ComponentWant(cr: CR, version: string, x: Want) {
    exists d :: d in Components(cr) && (WorkloadWant(cr, d, version, x) || PodWant(cr, d, x))
  }

  lemma PassWantsAre(cr: CR, version: string, x: Want)
    requires x in PassWants(PlanOf(cr), version)
    ensures x == ClusterService(cr) || ConfigWant(cr, x) || ComponentWant(cr, version, x)
  {
    PreWantsAre(cr);
    PostWantsAre(cr, version);
    if x in Wants(Pre(cr)) && x != ClusterService(cr) {
      var i :| 0 <= i < |Namespaces(cr)| &&
        (x == HbaseConfigMap(cr.config, Namespaces(cr)[i]) || x == HadoopConfigMap(cr.config, Namespaces(cr)[i]));
      assert Namespaces(cr)[i] in Namespaces(cr);
    }
  }

  lemma CancelLeft(a: string, b: string, c: string)
    requires a + b == a + c
    ensures b == c
  {
    assert (a + b)[|a|..] == b && (a + c)[|a|..] == c;
  }

  lemma CancelRight(a: string, b: string, c: string)
    requires b + a == c + a
    ensures b == c
  {
    assert (b + a)[..|b|] == b && (c + a)[..|c|] == c;
  }

  lemma ConfigWantsApart(cr: CR, x: Want, y: Want)
    requires DistinctNames(cr) && ConfigWant(cr, x) && ConfigWant(cr, y) && HashKey(x.key) == HashKey(y.key)
    ensures x == y
  {
    var m :| m in Namespaces(cr) && (x == HbaseConfigMap(cr.config, m) || x == HadoopConfigMap(cr.config, m));
    var n :| n in Namespaces(cr) && (y == HbaseConfigMap(cr.config, n) || y == HadoopConfigMap(cr.config, n));
    SameKindKeys(x.key, y.key);
    assert x.key.name + m == y.key.name + n;
    assert cr.config.hbaseName + m != cr.config.hadoopName + n && cr.config.hbaseName + n != cr.config.hadoopName + m;
    if x == HbaseConfigMap(cr.config, m) && y == HbaseConfigMap(cr.config, n) {
      CancelLeft(cr.config.hbaseName, m, n);
    } else if x == HadoopConfigMap(cr.config, m) && y == HadoopConfigMap(cr.config, n) {
      CancelLeft(cr.config.hadoopName, m, n);
    }
  }

  lemma ServiceApart(cr: CR, version: string, x: Want)
    requires DistinctNames(cr) && ComponentWant(cr, version, x)
    ensures HashKey(x.key) != HashKey(ClusterService(cr).key)
  {
    var d :| d in Components(cr) && (WorkloadWant(cr, d, version, x) || PodWant(cr, d, x));
    if x.key.kind.ServiceKind? {
      var i: nat :| i < d.size && x == PodService(cr, d, i);
      assert PodName(d.name, i) != cr.name;
      SameKindKeys(x.key, ClusterService(cr).key);
    } else if HashKey(x.key) == HashKey(ClusterService(cr).key) {
      KindsNeverCollide(x.key, ClusterService(cr).key);
    }
  }

  lemma PodsApart(cr: CR, d: Deployment, e: Deployment, x: Want, y: Want)
    requires DistinctNames(cr) && d in Components(cr) && e in Components(cr)
    requires PodWant(cr, d, x) && PodWant(cr, e, y) && HashKey(x.key) == HashKey(y.key)
    ensures x == y
  {
    var i: nat :| i < d.size && x == PodService(cr, d, i);
    var j: nat :| j < e.size && y == PodService(cr, e, j);
    SameKindKeys(x.key, y.key);
    PodNameIsInjective(d.name, i, e.name, j);
  }

  lemma WorkloadsApart(cr: CR, version: string, d: Deployment, e: Deployment, x: Want, y: Want)
    requires DistinctNames(cr) && d in Components(cr) && e in Components(cr)
    requires WorkloadWant(cr, d, version, x) && WorkloadWant(cr, e, version, y) && HashKey(x.key) == HashKey(y.key)
    ensures x == y
  {
    KindsNeverCollide(x.key, y.key);
    SameKindKeys(x.key, y.key);
    if x.key.kind.PdbKind? {
      CancelRight("-pdb", d.name, e.name);
    }
    assert d == e;
  }

  lemma ComponentWantsApart(cr: CR, version: string, x: Want, y: Want)
    requires DistinctNames(cr) && ComponentWant(cr, version, x) && ComponentWant(cr, version, y)
    requires HashKey(x.key) == HashKey(y.key)
    ensures x == y
  {
    var d :| d in Components(cr) && (WorkloadWant(cr, d, version, x) || PodWant(cr, d, x));
    var e :| e in Components(cr) && (WorkloadWant(cr, e, version, y) || PodWant(cr, e, y));
    KindsNeverCollide(x.key, y.key);
    PodKind(cr, d, version, x);
    PodKind(cr, e, version, y);
    hide WorkloadWant, PodWant, HashKey, DistinctNames;
    if PodWant(cr, d, x) {
      PodsApart(cr, d, e, x, y);
    } else {
      WorkloadsApart(cr, version, d, e, x, y);
    }
  }

  lemma PodKind(cr: CR, d: Deployment, version: string, x: Want)
    ensures PodWant(cr, d, x) ==> x.key.kind.ServiceKind?
    ensures WorkloadWant(cr, d, version, x) ==> !x.key.kind.ServiceKind?
  {
  }

  /** Custom resources with distinct names are well named: their objects never share a hash key. */
  lemma DistinctNamesSuffice(cr: CR)
    requires DistinctNames(cr)
    ensures WellNamed(PlanOf(cr))
  {
    forall version: string ensures Consistent(PassWants(PlanOf(cr), version)) {
      var xs := PassWants(PlanOf(cr), version);
      forall x, y | x in xs && y in xs && HashKey(x.key) == HashKey(y.key)
        ensures x == y
      {
        NamesApart(cr, version, x, y);
      }
    }
  }

  lemma NamesApart(cr: CR, version: string, x: Want, y: Want)
    requires DistinctNames(cr) && HashKey(x.key) == HashKey(y.key)
    requires x in PassWants(PlanOf(cr), version) && y in PassWants(PlanOf(cr), version)
    ensures x == y
  {
    PassWantsAre(cr, version, x);
    PassWantsAre(cr, version, y);
    KindsNeverCollide(x.key, y.key);
    KindOfWants(cr, version, x);
    KindOfWants(cr, version, y);
    hide HashKey, PassWants, PlanOf, DistinctNames, ConfigWant, ComponentWant;
    if ConfigWant(cr, x) {
      ConfigWantsApart(cr, x, y);
    } else {
      if ComponentWant(cr, version, x) {
        ServiceApart(cr, version, x);
      }
      if ComponentWant(cr, version, y) {
        ServiceApart(cr, version, y);
      }
      if x != ClusterService(cr) {
        ComponentWantsApart(cr, version, x, y);
      }
    }
  }

  lemma KindOfWants(cr: CR, version: string, x: Want)
    ensures ConfigWant(cr, x) ==> x.key.kind.ConfigMapKind?
    ensures ComponentWant(cr, version, x) ==> !x.key.kind.ConfigMapKind?
    ensures x == ClusterService(cr) ==> x.key.kind.ServiceKind?
  {
  }

  /** For tenants and standalones, which have one component and one namespace, this comes down to:
      no pod is called like the custom resource, and the two config maps have different names. */
  lemma NamesOfOneComponent(cr: CR)
    requires !cr.flavour.Cluster?
    ensures DistinctNames(cr) <==>
      && (forall i: nat :: i < cr.main.size ==> PodName(cr.main.name, i) != cr.name)
      && (Namespaces(cr) != [] ==> cr.config.hbaseName != cr.config.hadoopName)
  {
    assert cr.main in Components(cr);
    if Namespaces(cr) != [] {
      assert cr.namespace in Namespaces(cr);
      if cr.config.hbaseName + cr.namespace == cr.config.hadoopName + cr.namespace {
        CancelRight(cr.namespace, cr.config.hbaseName, cr.config.hadoopName);
      }
    }
  }
}
