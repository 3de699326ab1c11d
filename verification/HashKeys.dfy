/** The hash store's keys. */
module HashKeys {
  import opened Kube

  /** Digests of objects of different kinds are never confused, whatever the names. */
  lemma KindsNeverCollide(k: Key, l: Key)
    requires HashKey(k) == HashKey(l)
    ensures k.kind == l.kind
  {
    var h := HashKey(k);
    assert h[0] == (match k.kind case ConfigMapKind => 'c' case PdbKind => 'p' case _ => 's');
    assert h[0] == (match l.kind case ConfigMapKind => 'c' case PdbKind => 'p' case _ => 's');
    assert h[0] == 's' ==> h[1] == (if k.kind.ServiceKind? then 'v' else 's');
    assert h[0] == 's' ==> h[1] == (if l.kind.ServiceKind? then 'v' else 's');
  }

  /** Within a kind only the namespace can be confused; for config maps also where the name ends. */
  lemma SameKindKeys(k: Key, l: Key)
    requires k.kind == l.kind
    ensures HashKey(k) == HashKey(l) <==>
      if k.kind.ConfigMapKind? then k.name + k.namespace == l.name + l.namespace else k.name == l.name
  {
    var prefix := match k.kind
      case ConfigMapKind => "cfg-" case ServiceKind => "svc-" case StatefulSetKind => "ss-" case PdbKind => "pdb-";
    var a := if k.kind.ConfigMapKind? then k.name + k.namespace else k.name;
    var b := if l.kind.ConfigMapKind? then l.name + l.namespace else l.name;
    assert HashKey(k) == prefix + a && HashKey(l) == prefix + b;
    assert (prefix + a)[|prefix|..] == a && (prefix + b)[|prefix|..] == b;
  }

  /** Two config maps of different namespaces can share a hash key. */
  lemma ConfigMapKeysCanCollide()
    ensures HashKey(Key(ConfigMapKind, "b-c", "a-")) == HashKey(Key(ConfigMapKind, "c", "a-b-"))
  {
    assert "a-" + "b-c" == "a-b-" + "c";
    SameKindKeys(Key(ConfigMapKind, "b-c", "a-"), Key(ConfigMapKind, "c", "a-b-"));
  }
}
