/** The builders as they run: Go maps are shared and written in place. Each method is tied to the
    function of Resources that says what it builds. */
module Builders {
  import opened Kube
  import opened Resources
  import opened Objects

  /** A Go map of strings, seen by everyone who holds a reference to it. */
  class GoMap {
    var entries: Labels

    constructor (entries: Labels)
      ensures this.entries == entries
    {
      this.entries := entries;
    }
  }

  function ValueOf(g: GoMap?): Option<Labels>
    reads g
  {
    if g == null then None else Some(g.entries)
  }

  /** A component as a reconciler holds it: a struct copied by value whose maps are shared. */
  datatype Handle = Handle(spec: Deployment, labels: GoMap?, annotations: GoMap?)

  /** The component with what its maps hold now. */
  function Current(h: Handle): Deployment
    reads h.labels, h.annotations
  {
    h.spec.(labels := ValueOf(h.labels), annotations := ValueOf(h.annotations))
  }

  ghost predicate Separate(h: Handle) {
    h.labels != null ==> h.labels != h.annotations
  }

  method Copy(o: Option<Labels>) returns (g: GoMap?)
    ensures ValueOf(g) == o
    ensures g != null ==> fresh(g)
  {
    if o.None? {
      g := null;
    } else {
      g := new GoMap(o.value);
    }
  }

  /** The read of a custom resource hands out fresh maps. */
  method Fetch(d: Deployment) returns (h: Handle)
    ensures Current(h) == d && h.spec == d && Separate(h)
    ensures (h.labels != null ==> fresh(h.labels)) && (h.annotations != null ==> fresh(h.annotations))
  {
    var labels := Copy(d.labels);
    var annotations := Copy(d.annotations);
    h := Handle(d, labels, annotations);
  }

  /** One more key of `src` is copied. */
  lemma CopyStep<K, V>(dst: map<K, V>, src: map<K, V>, todo: set<K>, key: K)
    requires key in todo && key in src
    ensures (dst + (src - todo))[key := src[key]] == dst + (src - (todo - {key}))
  {
  }

  lemma CopyEnd<K, V>(src: map<K, V>)
    ensures src - src.Keys == map[] && src - {} == src
  {
  }

  /** Writes every entry of `src` into `dst`, in any order. */
  method Merge(dst: GoMap, src: Labels)
    modifies dst
    ensures dst.entries == old(dst.entries) + src
  {
    var todo := src.Keys;
    while todo != {}
      invariant todo <= src.Keys
      invariant dst.entries == old(dst.entries) + (src - todo)
      decreases |todo|
    {
      var key :| key in todo;
      CopyStep(old(dst.entries), src, todo, key);
      dst.entries := dst.entries[key := src[key]];
      todo := todo - {key};
    }
    CopyEnd(src);
  }

  // ---------- labels ----------

  method GetSharedLabelsMap(name: string, labels: GoMap?) returns (r: GoMap)
    modifies labels
    ensures labels != null ==> r == labels
    ensures labels == null ==> fresh(r)
    ensures r.entries == OrEmpty(old(ValueOf(labels))) + SharedLabels(name)
  {
    if labels == null {
      r := new GoMap(map["app" := "hbasecluster", "hbasecluster_cr" := name]);
    } else {
      labels.entries := labels.entries["app" := "hbasecluster"];
      labels.entries := labels.entries["hbasecluster_cr" := name];
      r := labels;
    }
  }

  method LabelsForPodService(crName: string, name: string, labels: GoMap?) returns (r: GoMap)
    modifies labels
    ensures labels != null ==> r == labels
    ensures labels == null ==> fresh(r)
    ensures r.entries == OrEmpty(old(ValueOf(labels))) + SharedLabels(crName)[POD_NAME := name]
  {
    if labels == null {
      r := new GoMap(map["app" := "hbasecluster", "hbasecluster_cr" := crName, POD_NAME := name]);
    } else {
      labels.entries := labels.entries["app" := "hbasecluster"];
      labels.entries := labels.entries["hbasecluster_cr" := crName];
      labels.entries := labels.entries[POD_NAME := name];
      r := labels;
    }
  }

  method LabelsForStatefulSet(name: string, statefulSetName: string) returns (r: GoMap)
    ensures fresh(r) && r.entries == SharedLabels(name)[STATEFULSET_NAME := statefulSetName]
  {
    r := GetSharedLabelsMap(name, null);
    r.entries := r.entries[STATEFULSET_NAME := statefulSetName];
  }

  // ---------- stateful sets and disruption budgets ----------

  lemma LimitIsBad(d: Deployment, i: nat)
    requires i < |d.volumes| && d.volumes[i].source == "EmptyDir" && d.volumes[i].sizeLimit.Malformed?
    ensures !ValidVolumes(d) && exists j :: 0 <= j < |d.volumes| && BadLimit(d.volumes[j])
  {
    assert !ValidVolume(d.volumes[i]) && BadLimit(d.volumes[i]);
  }

  method BuildVolumes(c: Configuration, d: Deployment) returns (r: Option<seq<Volume>>)
    ensures r == if ValidVolumes(d) then Some(Volumes(c, d)) else None
    ensures r.None? <==> exists i :: 0 <= i < |d.volumes| && BadLimit(d.volumes[i])
    ensures r.Some? ==> VolumesAsAsked(r.value, c, d.volumes)
  {
    hide VolumesAsAsked, BadLimit;
    var volumes := [ConfigMapVolume(c.hbaseName, c.hbaseName)];
    volumes := volumes + [ConfigMapVolume(c.hadoopName, c.hadoopName)];
    for i := 0 to |d.volumes|
      invariant forall j :: 0 <= j < i ==> ValidVolume(d.volumes[j])
      invariant volumes == Volumes(c, d)[..2 + i]
    {
      var v := d.volumes[i];
      var volume := EmptyVolume;
      if v.source == "ConfigMap" {
        volume := ConfigMapVolume(v.name, v.configName);
      }
      if v.source == "EmptyDir" {
        var limit := None;
        match v.sizeLimit {
          case NoLimit =>
          case Malformed(_) =>
            LimitIsBad(d, i);
            return None;
          case Quantity(bytes) => limit := Some(bytes);
        }
        volume := EmptyDirVolume(v.name, v.medium, limit);
      }
      if v.source == "Secret" {
        volume := SecretVolume(v.name, v.secretName);
      }
      if v.source == "HostPath" {
        volume := HostPathVolume(v.name, v.path);
      }
      assert volume == VolumeOf(v) == Volumes(c, d)[2 + i];
      volumes := volumes + [volume];
    }
    assert volumes == Volumes(c, d);
    VolumesAre(c, d);
    r := Some(volumes);
  }

  method TemplateLabelsForMultiStatefulSet(name: string, statefulSetName: string, existing: GoMap) returns (r: GoMap)
    modifies existing
    ensures r == existing
    ensures r.entries == old(existing.entries) + (SharedLabels(name) + map[STATEFULSET_NAME := statefulSetName])
  {
    var extra := LabelsForStatefulSet(name, statefulSetName);
    Merge(existing, extra.entries);
    assert extra.entries == SharedLabels(name) + map[STATEFULSET_NAME := statefulSetName];
    r := existing;
  }

  method BuildAnnotations(version: string, annotations: GoMap?) returns (r: Labels)
    modifies annotations
    ensures r == OrEmpty(old(ValueOf(annotations)))
                 + if version != "" then map[STATEFULSET_V2_ANNOTATION := version] else map[]
  {
    var notes := annotations;
    if notes == null {
      notes := new GoMap(map[]);
    }
    if |version| > 0 {
      notes.entries := notes.entries[STATEFULSET_V2_ANNOTATION := version];
    }
    r := notes.entries;
  }

  /** The labels that select a component's pods, and those that its pods get, which are written
      into the component's own map. */
  method BuildLabels(cr: CR, name: string, own: GoMap?) returns (selector: Labels, template: Labels)
    modifies own
    ensures selector == SharedLabels(cr.name) + if Multi(cr) then map[STATEFULSET_NAME := name] else map[]
    ensures template == OrEmpty(old(ValueOf(own))) + selector
    ensures own != null ==> own.entries == template
  {
    ghost var before := OrEmpty(ValueOf(own));
    ghost var extra: Labels := if Multi(cr) then map[STATEFULSET_NAME := name] else map[];
    LabelsTwice(before, SharedLabels(cr.name), extra);
    LabelsForSet(cr.name, name);
    var ls := GetSharedLabelsMap(cr.name, null);
    hide SharedLabels;
    var labels := own;
    if labels == null {
      labels := new GoMap(map[]);
    }
    Merge(labels, ls.entries);
    if cr.flavour.Tenant? {
      selector, template := ls.entries, labels.entries;
    } else {
      labels := TemplateLabelsForMultiStatefulSet(cr.name, name, labels);
      var matchLabels := LabelsForStatefulSet(cr.name, name);
      selector, template := matchLabels.entries, labels.entries;
    }
  }

  lemma LabelsForSet(crName: string, name: string)
    ensures SharedLabels(crName)[STATEFULSET_NAME := name] == SharedLabels(crName) + map[STATEFULSET_NAME := name]
    ensures OrEmpty(None) + SharedLabels(crName) == SharedLabels(crName)
  {
  }

  /** Merging the shared labels once more changes nothing. */
  lemma LabelsTwice(own: Labels, shared: Labels, extra: Labels)
    ensures (own + shared) + (shared + extra) == own + (shared + extra)
    ensures shared + map[] == shared
  {
  }

  /** Builds a component's StatefulSet. The labels of the pod template are the component's own map,
      written in place: a disruption budget built afterwards from the same component sees them,
      unless the component had no labels. */
  method BuildStatefulSet(cr: CR, version: string, h: Handle) returns (r: Option<Want>)
    requires Separate(h)
    modifies h.labels, h.annotations
    ensures r == if ValidVolumes(h.spec) then Some(StatefulSetFor(cr, old(Current(h)), version)) else None
    ensures r.None? <==> exists i :: 0 <= i < |h.spec.volumes| && BadLimit(h.spec.volumes[i])
    ensures h.labels != null ==> h.labels.entries == TemplateLabels(cr.name, old(Current(h)), Multi(cr))
  {
    ghost var d := Current(h);
    var selector, template := BuildLabels(cr, h.spec.name, h.labels);
    var annotations := BuildAnnotations(version, h.annotations);
    var volumes := BuildVolumes(cr.config, h.spec);
    if volumes.None? {
      return None;
    }
    var bootstrap := false;
    if cr.flavour.Cluster? {
      bootstrap := cr.flavour.isBootstrap;
    }
    var pod := PodSpec(cr.baseImage, bootstrap, cr.fsGroup, volumes.value,
                       [Mount(cr.config.hbaseName, cr.config.hbaseMountPath, true),
                        Mount(cr.config.hadoopName, cr.config.hadoopMountPath, true)],
                       h.spec.rest);
    assert pod == Pod(cr, d);
    hide Pod, SelectorLabels, TemplateLabels;
    r := Some(Want(
      Key(StatefulSetKind, cr.namespace, h.spec.name),
      StatefulSetContent(StatefulSet(
        h.spec.name, cr.namespace, OwnerOf(cr), h.spec.size, cr.name, h.spec.podManagementPolicy,
        selector, template, annotations, pod)),
      map[]));
  }

  /** Builds a component's disruption budget from what its label map holds now. */
  method BuildPodDisruptionBudget(cr: CR, h: Handle) returns (r: Option<Want>)
    ensures r.Some? <==> h.spec.pdb.Some?
    ensures r.Some? ==>
      r.value == Want(
        Key(PdbKind, cr.namespace, h.spec.name + "-pdb"),
        PdbContent(Pdb(
          h.spec.name + "-pdb", cr.namespace, OwnerOf(cr),
          map["app.kubernetes.io/name" := cr.name, "app.kubernetes.io/instance" := "pdb-" + h.spec.name],
          OrEmpty(ValueOf(h.labels)),
          h.spec.pdb.value.minAvailable,
          if h.spec.pdb.value.minAvailable.None? then h.spec.pdb.value.maxUnavailable else None)),
        map[])
  {
    if h.spec.pdb.None? {
      return None;
    }
    var labels: Labels := map[];
    labels := labels["app.kubernetes.io/name" := cr.name];
    labels := labels["app.kubernetes.io/instance" := "pdb-" + h.spec.name];
    var selector: Labels := map[];
    if h.labels != null {
      selector := h.labels.entries;
    }
    var min, max: Option<string> := None, None;
    if h.spec.pdb.value.minAvailable.Some? {
      min := h.spec.pdb.value.minAvailable;
    } else if h.spec.pdb.value.maxUnavailable.Some? {
      max := h.spec.pdb.value.maxUnavailable;
    }
    r := Some(Want(Key(PdbKind, cr.namespace, h.spec.name + "-pdb"),
                   PdbContent(Pdb(h.spec.name + "-pdb", cr.namespace, OwnerOf(cr), labels, selector, min, max)),
                       map[]));
  }

  // ---------- services ----------

  lemma PortsOfOneMore(ds: seq<Deployment>, i: nat)
    requires i < |ds|
    ensures DeploymentPorts(ds[..i + 1]) == DeploymentPorts(ds[..i]) + ContainerPorts(ds[i].containers)
  {
    assert ds[..i + 1][..i] == ds[..i];
  }

  lemma ContainerPortsOfOneMore(before: seq<Port>, cs: seq<Container>, j: nat)
    requires j < |cs|
    ensures before + ContainerPorts(cs[..j + 1]) == before + ContainerPorts(cs[..j]) + cs[j].ports
  {
    assert cs[..j + 1][..j] == cs[..j];
  }

  method BuildPorts(ds: seq<Deployment>) returns (ports: seq<Port>)
    ensures ports == DeploymentPorts(ds)
  {
    ports := [];
    for i := 0 to |ds|
      invariant ports == DeploymentPorts(ds[..i])
    {
      hide DeploymentPorts;
      var d := ds[i];
      ghost var before := ports;
      for j := 0 to |d.containers|
        invariant ports == before + ContainerPorts(d.containers[..j])
      {
        hide ContainerPorts;
        var c := d.containers[j];
        ghost var inner := ports;
        for k := 0 to |c.ports|
          invariant ports == inner + c.ports[..k]
        {
          ports := ports + [Port(c.ports[k].name, c.ports[k].number)];
        }
        assert c.ports[..|c.ports|] == c.ports;
        ContainerPortsOfOneMore(before, d.containers, j);
      }
      assert d.containers[..|d.containers|] == d.containers;
      PortsOfOneMore(ds, i);
    }
    assert ds[..|ds|] == ds;
  }

  /** Builds a service; a selector map that is passed in is written in place. */
  method BuildService(name: string, crName: string, namespace: string, labels: Option<Labels>, selector: GoMap?,
                      ds: seq<Deployment>, isClusterService: bool)
    returns (r: Want)
    modifies selector
    ensures r == Want(
      Key(ServiceKind, namespace, name),
      ServiceContent(
        if isClusterService
        then ServiceSpec("None", OrEmpty(old(ValueOf(selector))) + SharedLabels(name), DeploymentPorts(ds))
        else ServiceSpec("", OrEmpty(old(ValueOf(selector))) + SharedLabels(crName)[POD_NAME := name],
            DeploymentPorts(ds))),
      OrEmpty(labels))
  {
    var ports := BuildPorts(ds);
    var spec: ServiceSpec;
    if isClusterService {
      var s := GetSharedLabelsMap(name, selector);
      spec := ServiceSpec("None", s.entries, ports);
    } else {
      var s := LabelsForPodService(crName, name, selector);
      spec := ServiceSpec("", s.entries, ports);
    }
    var own: Labels := map[];
    if labels.Some? {
      own := labels.value;
    }
    r := Want(Key(ServiceKind, namespace, name), ServiceContent(spec), own);
  }

  // ---------- config maps ----------

  /** Copies every entry of `src` but one, in any order. */
  method CopyExcept(dst: map<string, File>, src: map<string, File>, skip: string) returns (r: map<string, File>)
    ensures r == dst + (src - {skip})
  {
    r := dst;
    var todo := src.Keys;
    ghost var rest := src - {skip};
    assert rest - todo == map[] && dst + map[] == dst;
    while todo != {}
      invariant todo <= src.Keys && r == dst + (rest - todo)
      decreases |todo|
    {
      var k :| k in todo;
      if k != skip {
        CopyStep(dst, rest, todo, k);
        r := r[k := src[k]];
      } else {
        assert rest - todo == rest - (todo - {k});
      }
      todo := todo - {k};
    }
    CopyEnd(rest);
  }

  /** Adds an override element to its namespace's group. */
  method AddOverride(groups: map<string, map<string, File>>, elem: map<string, File>)
      returns (r: map<string, map<string, File>>)
    ensures Group(r, OverrideNamespace(elem)) == Group(groups, OverrideNamespace(elem)) + (elem - {NAMESPACE})
    ensures forall ns :: ns != OverrideNamespace(elem) ==> Group(r, ns) == Group(groups, ns)
  {
    r := groups;
    var ns := OverrideNamespace(elem);
    if ns !in r {
      r := r[ns := map[]];
    }
    var group := CopyExcept(r[ns], elem, NAMESPACE);
    r := r[ns := group];
  }

  lemma OverlayStep(config: map<string, File>, overrides: seq<map<string, File>>, i: nat, namespace: string,
      before: map<string, File>)
    requires i < |overrides| && config + before == Overlay(config, overrides[..i], namespace)
    ensures Overlay(config, overrides[..i + 1], namespace) ==
      config + if OverrideNamespace(overrides[i]) == namespace then before + (overrides[i] - {NAMESPACE}) else before
  {
    var elem := overrides[i];
    assert overrides[..i + 1][..i] == overrides[..i];
    assert config + (before + (elem - {NAMESPACE})) == (config + before) + (elem - {NAMESPACE});
  }

  /** Groups the overrides by namespace, in list order, and then copies the base files and the
      overrides of one namespace. */
  method BuildConfigMap(name: string, namespace: string, config: map<string, File>, overrides: seq<map<string, File>>)
    returns (r: Want)
    ensures r == ConfigMapFor(name, namespace, config, overrides)
    ensures ConfigMapAsAsked(r, name, namespace, config, overrides)
  {
    hide OverrideNamespace;
    var groups: map<string, map<string, File>> := map[];
    for i := 0 to |overrides|
      invariant config + Group(groups, namespace) == Overlay(config, overrides[..i], namespace)
    {
      ghost var before := Group(groups, namespace);
      var elem := overrides[i];
      groups := AddOverride(groups, elem);
      OverlayStep(config, overrides, i, namespace, before);
    }
    assert overrides[..|overrides|] == overrides;
    var data := CopyInto(map[], config);
    if namespace in groups {
      data := CopyInto(data, groups[namespace]);
    }
    assert data == config + Group(groups, namespace);
    r := Want(Key(ConfigMapKind, namespace, name), ConfigMapContent(data), map[]);
    hide ConfigMapAsAsked;
    ConfigMapIs(name, namespace, config, overrides);
  }

  function Group(groups: map<string, map<string, File>>, namespace: string): map<string, File> {
    if namespace in groups then groups[namespace] else map[]
  }

  method CopyInto(dst: map<string, File>, src: map<string, File>) returns (r: map<string, File>)
    ensures r == dst + src
  {
    r := dst;
    var todo := src.Keys;
    CopyEnd(src);
    assert dst + map[] == dst;
    while todo != {}
      invariant todo <= src.Keys && r == dst + (src - todo)
      decreases |todo|
    {
      var k :| k in todo;
      CopyStep(dst, src, todo, k);
      r := r[k := src[k]];
      todo := todo - {k};
    }
    CopyEnd(src);
  }

  /** Looks at the files, in any order, until one is malformed. */
  method ValidateFiles(files: map<string, File>) returns (ok: bool)
    ensures ok <==> ValidFiles(files)
  {
    hide XmlFile;
    var todo := files.Keys;
    while todo != {}
      invariant todo <= files.Keys
      invariant forall name :: name in files && name !in todo && XmlFile(name) ==> files[name].xml
      decreases |todo|
    {
      var key :| key in todo;
      if XmlFile(key) && !files[key].xml {
        return false;
      }
      todo := todo - {key};
    }
    ok := true;
  }

  method ValidateConfiguration(c: Configuration) returns (ok: bool)
    ensures ok <==> ValidConfiguration(c)
  {
    hide ValidFiles;
    var all := CopyInto(map[], c.hbase);
    all := CopyInto(all, c.hadoop);
    assert all == c.hbase + c.hadoop;
    ok := ValidateFiles(all);
  }
}
