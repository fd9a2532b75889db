/** The custom resource of api/v1alpha1 and the parts of the built-in kinds the operator fills in. */
module Api {
  import opened Base

  datatype ImageConfig = ImageConfig(repository: string, tag: string, pullPolicy: string, pullSecrets: string)

  datatype SparkCluster = SparkCluster(master: string, image: ImageConfig, ns: string, defaults: Option<Conf>)

  datatype MetastoreCluster = MetastoreCluster(hiveSite: Option<Conf>)

  datatype HdfsCluster = HdfsCluster(coreSite: Option<Conf>, hdfsSite: Option<Conf>)

  /** A string in the source; the names the operator does not switch on are kept apart. */
  datatype ClusterType = Spark | Metastore | Hdfs | Flink | Unknown(name: string)

  datatype ClusterRef = ClusterRef(
    name: string,
    kind: ClusterType,
    spark: SparkCluster,
    metastore: MetastoreCluster,
    hdfs: HdfsCluster)

  datatype Spec = Spec(
    version: string,
    image: ImageConfig,
    replicas: int,
    conf: Option<Conf>,
    refs: Option<seq<ClusterRef>>)

  function RefsOf(spec: Spec): seq<ClusterRef> {
    if spec.refs.Some? then spec.refs.value else []
  }

  datatype ServicePort = ServicePort(
    name: string, protocol: string, appProtocol: Option<string>, port: int, targetPort: int, nodePort: int)

  datatype ExposedInfo = ExposedInfo(name: string, exposedType: string, serviceName: string, servicePort: ServicePort)

  /** Times are readings of the clock; a nil list is the status of a cluster nobody has reported on. */
  datatype Status = Status(infos: Option<seq<ExposedInfo>>, created: nat, updated: nat)

  /** A config-map volume; every volume the operator builds projects one key to one path. */
  datatype Volume = Volume(name: string, configMap: string, key: string, path: string)

  datatype Mount = Mount(name: string, path: string, subPath: string)

  /** The StatefulSet spec. `filled` holds the fields the operator leaves out and the server completes. */
  datatype Workload = Workload(
    serviceName: string,
    replicas: int,
    labels: Conf,
    container: string,
    image: string,
    pullPolicy: string,
    account: string,
    mounts: seq<Mount>,
    volumes: seq<Volume>,
    filled: Conf)

  /**
   What surrounds the operator: the API address from the environment variables, the foreign XML
   formatter, and the server's completion of workload specs and service ports.
   */
  datatype Env = Env(
    host: string,
    port: string,
    formatXml: string -> string,
    fill: Workload -> Conf,
    fillPorts: seq<ServicePort> -> seq<ServicePort>)
}
