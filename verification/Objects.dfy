/** The objects that a custom resource asks for, field by field, in the terms of the custom resource. */
module Objects {
  import opened Kube
  import opened Resources
  import opened Selectors

  // ---------- config maps ----------

  /** An override element gives a file to a namespace: it is for the namespace that its "namespace"
      entry names, or for the empty one if it has none, and that entry itself is no file. */
  predicate GivesFile(elem: map<string, File>, namespace: string, k: string) {
    && (if "namespace" in elem then elem["namespace"].text == namespace else namespace == "")
    && k != "namespace" && k in elem
  }

  /** The element at `i` is the last that gives the file. */
  ghost predicate GivesLast(overrides: seq<map<string, File>>, namespace: string, k: string, i: nat)
    requires i < |overrides|
  {
    GivesFile(overrides[i], namespace, k) && forall j :: i < j < |overrides| ==> !GivesFile(overrides[j], namespace, k)
  }

  /** The file is that of the last override element that gives it, and the base's if none does. */
  ghost predicate FileIs(data: map<string, File>, base: map<string, File>, overrides: seq<map<string, File>>,
                         namespace: string, k: string)
  {
    && (forall i :: 0 <= i < |overrides| && GivesLast(overrides, namespace, k, i) ==>
          k in data && data[k] == overrides[i][k])
    && ((forall i :: 0 <= i < |overrides| ==> !GivesFile(overrides[i], namespace, k)) ==>
          (k in data <==> k in base) && (k in base ==> data[k] == base[k]))
  }

  /** A ConfigMap of this name and namespace that holds these files with these overrides. */
  ghost predicate ConfigMapAsAsked(x: Want, name: string, namespace: string, base: map<string, File>,
                                   overrides: seq<map<string, File>>)
  {
    && x.key == Key(ConfigMapKind, namespace, name) && x.labels == map[] && x.content.ConfigMapContent?
    && forall k :: FileIs(x.content.data, base, overrides, namespace, k)
  }

  lemma SameGiver(elem: map<string, File>, namespace: string, k: string)
    ensures GivesFile(elem, namespace, k) <==> Gives(elem, namespace, k)
  {
  }

  lemma FileIsOverlaid(base: map<string, File>, overrides: seq<map<string, File>>, namespace: string, k: string)
    ensures FileIs(Overlay(base, overrides, namespace), base, overrides, namespace, k)
  {
    OverlayTakesTheLast(base, overrides, namespace, k);
    forall i | 0 <= i < |overrides|
      ensures GivesFile(overrides[i], namespace, k) <==> Gives(overrides[i], namespace, k)
    {
      SameGiver(overrides[i], namespace, k);
    }
    hide Overlay, Gives, GivesFile;
  }

  lemma ConfigMapIs(name: string, namespace: string, base: map<string, File>, overrides: seq<map<string, File>>)
    ensures ConfigMapAsAsked(ConfigMapFor(name, namespace, base, overrides), name, namespace, base, overrides)
  {
    hide FileIs, Overlay;
    forall k ensures FileIs(Overlay(base, overrides, namespace), base, overrides, namespace, k) {
      FileIsOverlaid(base, overrides, namespace, k);
    }
  }

  /** A namespace's HBase ConfigMap has the HBase name, files and overrides, its Hadoop ConfigMap the
      Hadoop ones: every file is that of the last override element for the namespace that has it, and
      the base's if there is none; the namespace entry of an override is never copied. */
  lemma ConfigMapsAre(c: Configuration, namespace: string)
    ensures ConfigMapAsAsked(HbaseConfigMap(c, namespace), c.hbaseName, namespace, c.hbase, c.hbaseOverrides)
    ensures ConfigMapAsAsked(HadoopConfigMap(c, namespace), c.hadoopName, namespace, c.hadoop, c.hadoopOverrides)
  {
    hide ConfigMapFor, ConfigMapAsAsked;
    ConfigMapIs(c.hbaseName, namespace, c.hbase, c.hbaseOverrides);
    ConfigMapIs(c.hadoopName, namespace, c.hadoop, c.hadoopOverrides);
  }

  /** The files that the two configurations hold together; a Hadoop file hides an HBase one. */
  predicate HasFile(c: Configuration, name: string, xml: bool) {
    if name in c.hadoop then c.hadoop[name].xml == xml else name in c.hbase && c.hbase[name].xml == xml
  }

  /** The configuration is rejected if and only if one of these nine files is no XML. */
  lemma InvalidIff(c: Configuration)
    ensures !ValidConfiguration(c) <==>
      || HasFile(c, "hbase-policy.xml", false) || HasFile(c, "hbase-site.xml", false)
      || HasFile(c, "configuration.xsl", false) || HasFile(c, "core-site.xml", false)
      || HasFile(c, "hadoop-policy.xml", false) || HasFile(c, "hdfs-site.xml", false)
      || HasFile(c, "httpfs-site.xml", false) || HasFile(c, "kms-acls.xml", false) || HasFile(c, "kms-site.xml", false)
  {
    var all := c.hbase + c.hadoop;
    assert forall name :: HasFile(c, name, false) <==> name in all && !all[name].xml;
    hide HasFile;
  }

  // ---------- volumes ----------

  /** The limit is of an empty directory and cannot be read. */
  predicate BadLimit(v: VolumeSpec) {
    v.source == "EmptyDir" && v.sizeLimit.Malformed?
  }

  /** A volume with the source, and the fields of it, that the specification names. */
  predicate VolumeAsAsked(v: Volume, s: VolumeSpec) {
    && (s.source == "ConfigMap" ==> v.ConfigMapVolume? && v.name == s.name && v.configMap == s.configName)
    && (s.source == "EmptyDir" ==>
          && v.EmptyDirVolume? && v.name == s.name && v.medium == s.medium
          && (v.sizeLimit.Some? <==> s.sizeLimit.Quantity?)
          && (v.sizeLimit.Some? ==> v.sizeLimit.value == s.sizeLimit.bytes))
    && (s.source == "Secret" ==> v.SecretVolume? && v.name == s.name && v.secret == s.secretName)
    && (s.source == "HostPath" ==> v.HostPathVolume? && v.name == s.name && v.path == s.path)
    && (s.source !in {"ConfigMap", "EmptyDir", "Secret", "HostPath"} ==> v.EmptyVolume?)
  }

  /** First the HBase and the Hadoop ConfigMap, each under its own name, then the component's volumes. */
  ghost predicate VolumesAsAsked(vs: seq<Volume>, c: Configuration, specs: seq<VolumeSpec>) {
    && |vs| == 2 + |specs|
    && vs[0].ConfigMapVolume? && vs[0].name == c.hbaseName && vs[0].configMap == c.hbaseName
    && vs[1].ConfigMapVolume? && vs[1].name == c.hadoopName && vs[1].configMap == c.hadoopName
    && forall i :: 0 <= i < |specs| ==> VolumeAsAsked(vs[2 + i], specs[i])
  }

  lemma VolumesAre(c: Configuration, d: Deployment)
    ensures VolumesAsAsked(Volumes(c, d), c, d.volumes)
    ensures ValidVolumes(d) <==> forall i :: 0 <= i < |d.volumes| ==> !BadLimit(d.volumes[i])
  {
  }

  /** In a component's pods the directory for HBase shows the ConfigMap that the HBase files are written
      to, the one for Hadoop that of the Hadoop files, both read-only. */
  lemma MountsAre(cr: CR, d: Deployment, version: string)
    ensures var s := StatefulSetFor(cr, d, version).content.workload;
            var pod := s.pod;
            && VolumesAsAsked(pod.volumes, cr.config, d.volumes)
            && |pod.configMounts| == 2
            && pod.configMounts[0].path == cr.config.hbaseMountPath && pod.configMounts[0].readOnly
            && pod.configMounts[1].path == cr.config.hadoopMountPath && pod.configMounts[1].readOnly
            && pod.configMounts[0].name == pod.volumes[0].name && pod.configMounts[1].name == pod.volumes[1].name
            && HbaseConfigMap(cr.config, cr.namespace).key ==
                 Key(ConfigMapKind, s.namespace, pod.volumes[0].configMap)
            && HadoopConfigMap(cr.config, cr.namespace).key ==
                 Key(ConfigMapKind, s.namespace, pod.volumes[1].configMap)
  {
    VolumesAre(cr.config, d);
  }

  // ---------- stateful sets ----------

  /** A StatefulSet has the component's name, size and policy, the custom resource's name as service
      name, its kind and name as owner, and what it says of images. */
  lemma StatefulSetIs(cr: CR, d: Deployment, version: string)
    ensures var x := StatefulSetFor(cr, d, version);
            var s := x.content.workload;
            && x.key == Key(StatefulSetKind, cr.namespace, d.name) && x.labels == map[]
            && s.name == d.name && s.namespace == cr.namespace && s.replicas == d.size
            && s.serviceName == cr.name && s.podManagementPolicy == d.podManagementPolicy
            && s.owner.name == cr.name
            && s.owner.kind == (if cr.flavour.Cluster? then "HbaseCluster"
                                else if cr.flavour.Tenant? then "HbaseTenant" else "HbaseStandalone")
            && s.pod.baseImage == cr.baseImage && s.pod.fsGroup == cr.fsGroup && s.pod.containers == d.rest
            && (s.pod.bootstrap <==> cr.flavour.Cluster? && cr.flavour.isBootstrap)
  {
  }

  /** Its pods carry the user's labels and annotations except where the operator's own take their place:
      the three labels, and the config version if there is one. */
  lemma TemplateIs(cr: CR, d: Deployment, version: string, k: string)
    ensures var s := StatefulSetFor(cr, d, version).content.workload;
            && (if k == "app" then k in s.templateLabels && s.templateLabels[k] == "hbasecluster"
                else if k == "hbasecluster_cr" then k in s.templateLabels && s.templateLabels[k] == cr.name
                else if k == "statefulset.kubernetes.io/statefulset-name" && !cr.flavour.Tenant? then
                  k in s.templateLabels && s.templateLabels[k] == d.name
                else if d.labels.Some? && k in d.labels.value then
                  k in s.templateLabels && s.templateLabels[k] == d.labels.value[k]
                else k !in s.templateLabels)
            && (if k == "hbase-operator/hbase-config-version" && version != "" then
                  k in s.templateAnnotations && s.templateAnnotations[k] == version
                else if d.annotations.Some? && k in d.annotations.value then
                  k in s.templateAnnotations && s.templateAnnotations[k] == d.annotations.value[k]
                else k !in s.templateAnnotations)
  {
  }

  /** And it selects them by the operator's own labels. */
  lemma SelectorIs(cr: CR, d: Deployment, version: string)
    ensures StatefulSetFor(cr, d, version).content.workload.selector ==
      if cr.flavour.Tenant? then map["app" := "hbasecluster", "hbasecluster_cr" := cr.name]
      else map["app" := "hbasecluster", "hbasecluster_cr" := cr.name,
               "statefulset.kubernetes.io/statefulset-name" := d.name]
  {
  }

  // ---------- disruption budgets ----------

  /** A disruption budget asks for a minimum if one is given and otherwise for a maximum if that is, and
      never for both. It selects by the labels of the component's pods, or everything if the component
      has no label map. */
  lemma BudgetIs(cr: CR, d: Deployment, version: string)
    requires d.pdb.Some?
    ensures var x := PdbFor(cr, d);
            var b := x.content.pdb;
            && x.key == Key(PdbKind, cr.namespace, d.name + "-pdb") && x.labels == map[]
            && b.name == d.name + "-pdb" && b.namespace == cr.namespace
            && b.owner == StatefulSetFor(cr, d, version).content.workload.owner
            && b.labels.Keys == {"app.kubernetes.io/name", "app.kubernetes.io/instance"}
            && b.labels["app.kubernetes.io/name"] == cr.name
            && b.labels["app.kubernetes.io/instance"] == "pdb-" + d.name
            && b.minAvailable == d.pdb.value.minAvailable
            && b.maxUnavailable == (if d.pdb.value.minAvailable.Some? then None else d.pdb.value.maxUnavailable)
            && b.selector == (if d.labels.None? then map[]
                              else StatefulSetFor(cr, d, version).content.workload.templateLabels)
  {
  }

  // ---------- services ----------

  lemma {:induction false} PortsJoin(a: seq<Container>, b: seq<Container>)
    ensures ContainerPorts(a + b) == ContainerPorts(a) + ContainerPorts(b)
    decreases |b|
  {
    if b == [] {
      assert a + b == a;
    } else {
      assert (a + b)[..|a + b| - 1] == a + b[..|b| - 1];
      PortsJoin(a, b[..|b| - 1]);
    }
  }

  /** A container's ports come as they are listed ... */
  lemma PortsOfOne(c: Container)
    ensures ContainerPorts([c]) == c.ports && ContainerPorts([]) == []
  {
    assert [c][..0] == [];
  }

  lemma {:induction false} DeploymentPortsJoin(a: seq<Deployment>, b: seq<Deployment>)
    ensures DeploymentPorts(a + b) == DeploymentPorts(a) + DeploymentPorts(b)
    decreases |b|
  {
    if b == [] {
      assert a + b == a;
    } else {
      assert (a + b)[..|a + b| - 1] == a + b[..|b| - 1];
      DeploymentPortsJoin(a, b[..|b| - 1]);
    }
  }

  /** ... and a component's containers in their order. */
  lemma PortsOfDeployment(d: Deployment)
    ensures DeploymentPorts([d]) == ContainerPorts(d.containers) && DeploymentPorts([]) == []
  {
    assert [d][..0] == [];
  }

  /** A service's ports are those of a cluster's components in bring-up order, and otherwise those of the
      only one. */
  lemma ServicePortsAre(cr: CR)
    ensures var ports := ClusterService(cr).content.spec.ports;
            match cr.flavour
            case Cluster(_, _, zookeeper, journalnode, namenode, hmaster) =>
              ports == (if zookeeper.size != 0 then ContainerPorts(zookeeper.containers) else [])
                       + ContainerPorts(journalnode.containers) + ContainerPorts(namenode.containers)
                       + ContainerPorts(cr.main.containers) + ContainerPorts(hmaster.containers)
            case _ => ports == ContainerPorts(cr.main.containers)
  {
    ServiceHasPortsOf(cr);
    if cr.flavour.Cluster? {
      ClusterPorts(cr);
    } else {
      PortsOfDeployment(cr.main);
    }
    hide ClusterService, DeploymentPorts, ContainerPorts;
  }

  lemma ServiceHasPortsOf(cr: CR)
    ensures ClusterService(cr).content.spec.ports == DeploymentPorts(Components(cr))
    ensures !cr.flavour.Cluster? ==> Components(cr) == [cr.main]
  {
  }

  lemma ClusterPorts(cr: CR)
    requires cr.flavour.Cluster?
    ensures DeploymentPorts(Components(cr)) ==
      (if cr.flavour.zookeeper.size != 0 then ContainerPorts(cr.flavour.zookeeper.containers) else [])
      + ContainerPorts(cr.flavour.journalnode.containers) + ContainerPorts(cr.flavour.namenode.containers)
      + ContainerPorts(cr.main.containers) + ContainerPorts(cr.flavour.hmaster.containers)
  {
    var z := if cr.flavour.zookeeper.size != 0 then [cr.flavour.zookeeper] else [];
    var j, n, m, h := cr.flavour.journalnode, cr.flavour.namenode, cr.main, cr.flavour.hmaster;
    assert Components(cr) == z + [j] + [n] + [m] + [h];
    hide DeploymentPorts, ContainerPorts, Components;
    DeploymentPortsJoin(z + [j] + [n] + [m], [h]);
    DeploymentPortsJoin(z + [j] + [n], [m]);
    DeploymentPortsJoin(z + [j], [n]);
    DeploymentPortsJoin(z, [j]);
    PortsOfDeployment(cr.flavour.zookeeper);
    PortsOfDeployment(j);
    PortsOfDeployment(n);
    PortsOfDeployment(m);
    PortsOfDeployment(h);
  }

  /** The cluster service has the custom resource's name and labels, no address, and selects all its pods
      and what the user's selector says besides. */
  lemma ClusterServiceIs(cr: CR, k: string)
    ensures var x := ClusterService(cr);
            && x.key == Key(ServiceKind, cr.namespace, cr.name)
            && x.labels == (if cr.serviceLabels.Some? then cr.serviceLabels.value else map[])
            && x.content.ServiceContent? && x.content.spec.clusterIP == "None"
            && (if k == "app" then k in x.content.spec.selector && x.content.spec.selector[k] == "hbasecluster"
                else if k == "hbasecluster_cr" then
                  k in x.content.spec.selector && x.content.spec.selector[k] == cr.name
                else if cr.serviceSelector.Some? && k in cr.serviceSelector.value then
                  k in x.content.spec.selector && x.content.spec.selector[k] == cr.serviceSelector.value[k]
                else k !in x.content.spec.selector)
  {
  }

  /** A pod service has the pod's name, the component's ports and an address of its own, and selects the
      pod by its name. */
  lemma PodServiceIs(cr: CR, d: Deployment, index: nat)
    ensures var x := PodService(cr, d, index);
            && x.key == Key(ServiceKind, cr.namespace, d.name + "-" + Decimal(index)) && x.labels == map[]
            && x.content.ServiceContent? && x.content.spec.clusterIP == ""
            && x.content.spec.selector == map["app" := "hbasecluster", "hbasecluster_cr" := cr.name,
                                              "statefulset.kubernetes.io/pod-name" := d.name + "-" + Decimal(index)]
            && x.content.spec.ports == ContainerPorts(d.containers)
  {
    PortsOfDeployment(d);
  }

  // ---------- pod names ----------

  /** The number that digits stand for. */
  function Number(s: string): int {
    if s == "" then 0 else 10 * Number(s[..|s| - 1]) + (s[|s| - 1] as int - '0' as int)
  }

  /** A pod's name ends in its ordinal, written in decimal without leading zeros. */
  lemma {:induction false} DecimalIs(n: nat)
    ensures Decimal(n) != "" && Number(Decimal(n)) == n
    ensures n > 0 ==> Decimal(n)[0] != '0'
    decreases n
  {
    var last := Decimal(n)[|Decimal(n)| - 1];
    assert last as int - '0' as int == n % 10;
    if n >= 10 {
      DecimalIs(n / 10);
      assert Decimal(n)[..|Decimal(n)| - 1] == Decimal(n / 10) && Decimal(n)[0] == Decimal(n / 10)[0];
    } else {
      assert Decimal(n)[..0] == "";
    }
  }
}
