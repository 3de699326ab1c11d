/** The Kubernetes side of the model: the objects the operator owns, the API server's
    answers, and the state the reconcilers share. */
module Kube {

  datatype Option<+T> = None | Some(value: T)

  type Labels = map<string, string>

  /** A resource version handed out by the API server; never the empty string. */
  type Version = s: string | s != "" witness "1"

  /** The text of a configuration file; `xml` says whether an XML decoder accepts it. */
  datatype File = File(text: string, xml: bool)

  datatype Kind = ServiceKind | ConfigMapKind | StatefulSetKind | PdbKind

  datatype Key = Key(kind: Kind, namespace: string, name: string)

  datatype Port = Port(name: string, number: int)

  datatype ServiceSpec = ServiceSpec(clusterIP: string, selector: Labels, ports: seq<Port>)

  datatype Volume =
    | ConfigMapVolume(name: string, configMap: string)
    | EmptyDirVolume(name: string, medium: string, sizeLimit: Option<int>)
    | SecretVolume(name: string, secret: string)
    | HostPathVolume(name: string, path: string)
    | EmptyVolume

  datatype Mount = Mount(name: string, path: string, readOnly: bool)

  /** A pod template's spec. `containers` stands for everything the field-copying builders put
      into containers and init containers besides the configuration mounts. */
  datatype PodSpec = PodSpec(baseImage: string, bootstrap: bool, fsGroup: int, volumes: seq<Volume>,
                             configMounts: seq<Mount>, containers: string)

  /** The custom resource that owns an object: its kind and name. */
  datatype Owner = Owner(kind: string, name: string)

  datatype StatefulSet = StatefulSet(
    name: string, namespace: string, owner: Owner, replicas: int, serviceName: string,
    podManagementPolicy: string, selector: Labels, templateLabels: Labels,
    templateAnnotations: Labels, pod: PodSpec)

  datatype Pdb = Pdb(name: string, namespace: string, owner: Owner, labels: Labels, selector: Labels,
                     minAvailable: Option<string>, maxUnavailable: Option<string>)

  /** The part of an object that the operator hashes: a Service's spec before its cluster IP is
      filled in, a ConfigMap's data, the whole of a StatefulSet or PodDisruptionBudget. */
  datatype Content =
    | ServiceContent(spec: ServiceSpec)
    | ConfigMapContent(data: map<string, File>)
    | StatefulSetContent(workload: StatefulSet)
    | PdbContent(pdb: Pdb)

  /** An object in the API server: its hashed part, the labels outside it, whether a ConfigMap
      carries the update-time annotation, its resource version and a Service's address. */
  datatype Stored = Stored(content: Content, labels: Labels, annotated: bool, version: Version, clusterIP: string)

  /** A SHA-256 digest, taken to be collision free. */
  datatype Digest = Digest(of: Content)

  /** What the reconcilers share: the API server's objects and the operator's hash store. */
  datatype World = World(objects: map<Key, Stored>, hashes: map<string, Digest>)

  /** The rollout status of a StatefulSet, read together with it. */
  datatype Status = Status(readyReplicas: int, currentRevision: string, updateRevision: string)

  /** What the API server does about one object during a pass: whether the read and the write
      fail, and the status, resource version and service address it hands out if they do not. */
  datatype Answer = Answer(getFails: bool, writeFails: bool, status: Status, version: Version, clusterIP: string)

  /** The answers of a whole pass, by position in the pass. */
  type Env = nat -> Answer

  /** An object a custom resource asks for. */
  datatype Want = Want(key: Key, content: Content, labels: Labels)

  /** The key under which an object's digest is remembered. */
  function HashKey(k: Key): string {
    match k.kind
    case ConfigMapKind => "cfg-" + k.name + k.namespace
    case ServiceKind => "svc-" + k.name
    case StatefulSetKind => "ss-" + k.name
    case PdbKind => "pdb-" + k.name
  }

  const STATEFULSET_V2_ANNOTATION := "hbase-operator/hbase-config-version"

  /** The config version on a StatefulSet's pod template, or "" if it has none. */
  function Stamp(c: Content): string {
    if c.StatefulSetContent? && STATEFULSET_V2_ANNOTATION in c.workload.templateAnnotations
    then c.workload.templateAnnotations[STATEFULSET_V2_ANNOTATION]
    else ""
  }

  predicate Ready(s: Status, replicas: int) {
    s.readyReplicas == replicas && s.currentRevision == s.updateRevision
  }
}
