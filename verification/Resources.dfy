/** Custom resources, and the objects they ask for. */
module Resources {
  import opened Kube

  datatype SizeLimit = NoLimit | Quantity(bytes: int) | Malformed(text: string)

  datatype VolumeSpec = VolumeSpec(name: string, source: string, secretName: string, configName: string,
                                   path: string, sizeLimit: SizeLimit, medium: string)

  datatype PdbSpec = PdbSpec(minAvailable: Option<string>, maxUnavailable: Option<string>)

  datatype Container = Container(name: string, ports: seq<Port>)

  /** One component. `rest` stands for the fields the builders only copy. */
  datatype Deployment = Deployment(
    name: string, size: int, labels: Option<Labels>, annotations: Option<Labels>, containers: seq<Container>,
    volumes: seq<VolumeSpec>, podManagementPolicy: string, podServiceRequired: bool, pdb: Option<PdbSpec>,
    rest: string)

  datatype Configuration = Configuration(
    hbaseName: string, hbaseMountPath: string, hbase: map<string, File>,
    hadoopName: string, hadoopMountPath: string, hadoop: map<string, File>,
    hbaseOverrides: seq<map<string, File>>, hadoopOverrides: seq<map<string, File>>)

  datatype Flavour =
    | Cluster(isBootstrap: bool, tenantNamespaces: seq<string>, zookeeper: Deployment, journalnode: Deployment,
              namenode: Deployment, hmaster: Deployment)
    | Tenant
    | Standalone

  /** An HbaseCluster, HbaseTenant or HbaseStandalone. `main` is the datanode of a cluster or
      tenant and the only component of a standalone. */
  datatype CR = CR(name: string, namespace: string, baseImage: string, fsGroup: int, config: Configuration,
                   serviceLabels: Option<Labels>, serviceSelector: Option<Labels>, main: Deployment,
                   flavour: Flavour)

  // ---------- labels ----------

  const POD_NAME := "statefulset.kubernetes.io/pod-name"
  const STATEFULSET_NAME := "statefulset.kubernetes.io/statefulset-name"

  function SharedLabels(crName: string): Labels {
    map["app" := "hbasecluster", "hbasecluster_cr" := crName]
  }

  /** The labels a StatefulSet selects its pods by. */
  function SelectorLabels(crName: string, d: Deployment, multi: bool): Labels {
    SharedLabels(crName) + if multi then map[STATEFULSET_NAME := d.name] else map[]
  }

  function OrEmpty(o: Option<Labels>): Labels {
    if o.Some? then o.value else map[]
  }

  function TemplateLabels(crName: string, d: Deployment, multi: bool): Labels {
    OrEmpty(d.labels) + SelectorLabels(crName, d, multi)
  }

  // ---------- names ----------

  function Decimal(n: nat): string {
    if n < 10 then ['0' + n as char] else Decimal(n / 10) + ['0' + (n % 10) as char]
  }

  function PodName(component: string, index: nat): string {
    component + "-" + Decimal(index)
  }

  // ---------- services ----------

  function ContainerPorts(cs: seq<Container>): seq<Port> {
    if cs == [] then [] else ContainerPorts(cs[..|cs| - 1]) + cs[|cs| - 1].ports
  }

  function DeploymentPorts(ds: seq<Deployment>): seq<Port> {
    if ds == [] then [] else DeploymentPorts(ds[..|ds| - 1]) + ContainerPorts(ds[|ds| - 1].containers)
  }

  function ClusterService(cr: CR): Want {
    Want(Key(ServiceKind, cr.namespace, cr.name),
         ServiceContent(ServiceSpec("None", OrEmpty(cr.serviceSelector) + SharedLabels(cr.name),
                                    DeploymentPorts(Components(cr)))),
         OrEmpty(cr.serviceLabels))
  }

  function PodService(cr: CR, d: Deployment, index: nat): Want {
    var name := PodName(d.name, index);
    Want(Key(ServiceKind, cr.namespace, name),
         ServiceContent(ServiceSpec("", SharedLabels(cr.name)[POD_NAME := name], DeploymentPorts([d]))),
         map[])
  }

  // ---------- config maps ----------

  const NAMESPACE := "namespace"

  /** The namespace an override element is for; a missing entry reads as the empty name. */
  function OverrideNamespace(elem: map<string, File>): string {
    if NAMESPACE in elem then elem[NAMESPACE].text else ""
  }

  /** The base files overlaid, in list order, by the override elements for `namespace`. */
  function Overlay(base: map<string, File>, overrides: seq<map<string, File>>, namespace: string): map<string, File> {
    if overrides == [] then base
    else
      var elem := overrides[|overrides| - 1];
      var before := Overlay(base, overrides[..|overrides| - 1], namespace);
      if OverrideNamespace(elem) == namespace then before + (elem - {NAMESPACE}) else before
  }

  function ConfigMapFor(name: string, namespace: string, base: map<string, File>, overrides: seq<map<string,
      File>>): Want {
    Want(Key(ConfigMapKind, namespace, name), ConfigMapContent(Overlay(base, overrides, namespace)), map[])
  }

  function HbaseConfigMap(c: Configuration, namespace: string): Want {
    ConfigMapFor(c.hbaseName, namespace, c.hbase, c.hbaseOverrides)
  }

  function HadoopConfigMap(c: Configuration, namespace: string): Want {
    ConfigMapFor(c.hadoopName, namespace, c.hadoop, c.hadoopOverrides)
  }

  /** The file names whose content must be XML. */
  const XML_FILES: set<string> := {
    "hbase-policy.xml", "hbase-site.xml", "configuration.xsl", "core-site.xml", "hadoop-policy.xml",
    "hdfs-site.xml", "httpfs-site.xml", "kms-acls.xml", "kms-site.xml" }

  predicate XmlFile(name: string) {
    name in XML_FILES
  }

  /** No XML file among these is malformed. */
  predicate ValidFiles(files: map<string, File>) {
    forall name <- files.Keys :: XmlFile(name) ==> files[name].xml
  }

  /** A Hadoop file hides an HBase file of the same name. */
  predicate ValidConfiguration(c: Configuration) {
    ValidFiles(c.hbase + c.hadoop)
  }

  // ---------- stateful sets and disruption budgets ----------

  predicate ValidVolume(v: VolumeSpec) {
    v.source == "EmptyDir" ==> !v.sizeLimit.Malformed?
  }

  predicate ValidVolumes(d: Deployment) {
    forall i :: 0 <= i < |d.volumes| ==> ValidVolume(d.volumes[i])
  }

  function VolumeOf(v: VolumeSpec): Volume {
    if v.source == "ConfigMap" then ConfigMapVolume(v.name, v.configName)
    else if v.source == "EmptyDir" then
      EmptyDirVolume(v.name, v.medium, if v.sizeLimit.Quantity? then Some(v.sizeLimit.bytes) else None)
    else if v.source == "Secret" then SecretVolume(v.name, v.secretName)
    else if v.source == "HostPath" then HostPathVolume(v.name, v.path)
    else EmptyVolume
  }

  function Volumes(c: Configuration, d: Deployment): (r: seq<Volume>)
    ensures |r| == 2 + |d.volumes|
  {
    [ConfigMapVolume(c.hbaseName, c.hbaseName), ConfigMapVolume(c.hadoopName, c.hadoopName)]
      + seq(|d.volumes|, i requires 0 <= i < |d.volumes| => VolumeOf(d.volumes[i]))
  }

  function Pod(cr: CR, d: Deployment): PodSpec {
    PodSpec(cr.baseImage, cr.flavour.Cluster? && cr.flavour.isBootstrap, cr.fsGroup, Volumes(cr.config, d),
            [Mount(cr.config.hbaseName, cr.config.hbaseMountPath, true),
             Mount(cr.config.hadoopName, cr.config.hadoopMountPath, true)],
            d.rest)
  }

  /** Clusters and standalones tell their components apart by an extra label; tenants do not. */
  predicate Multi(cr: CR) {
    !cr.flavour.Tenant?
  }

  function OwnerOf(cr: CR): Owner {
    Owner(match cr.flavour
          case Cluster(_, _, _, _, _, _) => "HbaseCluster"
          case Tenant => "HbaseTenant"
          case Standalone => "HbaseStandalone",
          cr.name)
  }

  function StatefulSetKey(cr: CR, d: Deployment): Key {
    Key(StatefulSetKind, cr.namespace, d.name)
  }

  function StatefulSetFor(cr: CR, d: Deployment, version: string): Want {
    Want(StatefulSetKey(cr, d),
         StatefulSetContent(StatefulSet(
           d.name, cr.namespace, OwnerOf(cr), d.size, cr.name, d.podManagementPolicy,
           SelectorLabels(cr.name, d, Multi(cr)),
           TemplateLabels(cr.name, d, Multi(cr)),
           OrEmpty(d.annotations) + if version != "" then map[STATEFULSET_V2_ANNOTATION := version] else map[],
           Pod(cr, d))),
         map[])
  }

  function PdbFor(cr: CR, d: Deployment): Want
    requires d.pdb.Some?
  {
    Want(Key(PdbKind, cr.namespace, d.name + "-pdb"),
         PdbContent(Pdb(
           d.name + "-pdb", cr.namespace, OwnerOf(cr),
           map["app.kubernetes.io/name" := cr.name, "app.kubernetes.io/instance" := "pdb-" + d.name],
           if d.labels.Some? then TemplateLabels(cr.name, d, Multi(cr)) else map[],
           d.pdb.value.minAvailable,
           if d.pdb.value.minAvailable.None? then d.pdb.value.maxUnavailable else None)),
         map[])
  }

  // ---------- a custom resource as a whole ----------

  /** The components in the order in which they are brought up. */
  function Components(cr: CR): seq<Deployment> {
    match cr.flavour
    case Cluster(_, _, zookeeper, journalnode, namenode, hmaster) =>
      (if zookeeper.size != 0 then [zookeeper] else []) + [journalnode, namenode, cr.main, hmaster]
    case _ => [cr.main]
  }

  const RECONCILE_CONFIG_LABEL := "hbase-operator.cfg-statefulset-update/enable"

  /** Whether the service labels set the rollout label to one of `values`. */
  predicate LabelIn(cr: CR, values: set<string>) {
    && cr.serviceLabels.Some?
    && RECONCILE_CONFIG_LABEL in cr.serviceLabels.value
    && cr.serviceLabels.value[RECONCILE_CONFIG_LABEL] in values
  }

  /** Pods are to be restarted when the configuration changes. */
  predicate Rolling(cr: CR) {
    LabelIn(cr, {"true", "yes"})
  }

  /** The namespaces that get a copy of the configuration, the custom resource's own one last.
      A tenant writes its configuration only if its label says so. */
  function Namespaces(cr: CR): seq<string> {
    match cr.flavour
    case Cluster(_, tenantNamespaces, _, _, _, _) => tenantNamespaces + [cr.namespace]
    case Tenant => if LabelIn(cr, {"config-only", "true", "yes"}) then [cr.namespace] else []
    case Standalone => [cr.namespace]
  }
}
