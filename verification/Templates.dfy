/** What the operator asks for: voters, start command and the fields it sets on each object. */
module Templates {
  import opened Basics
  import opened AutoMQApi
  import opened Naming
  import opened Store

  function ReplicasIn(spec: AutoMQSpec, role: Role): int {
    (if role == Controller then spec.controller else spec.broker).replicas
  }

  /** The inputs of one pass, besides the cluster: the resource and the operator's own settings. */
  datatype Target = Target(
    ns: string,
    name: string,
    generation: nat,
    spec: AutoMQSpec,
    mountTZ: bool,
    apisIP: string,
    script: string)
  {
    function Of(role: Role): RoleSpec {
      if role == Controller then spec.controller else spec.broker
    }

    function Replicas(role: Role): int {
      ReplicasIn(spec, role)
    }

    function ConfigMapKey(): Key {
      Key(ConfigMapKind, ns, name)
    }
  }

  const CONTROLLER_PORT := 9093
  const BROKER_PORT := 9092

  function PortOf(role: Role): int {
    if role == Controller then CONTROLLER_PORT else BROKER_PORT
  }

  /******* Quorum voters *******/

  function VoterHost(ns: string, i: int): string {
    IndexedName(Controller, i) + "." + ns + ".svc"
  }

  function Voter(ns: string, i: int): string {
    PrintInt(i) + "@" + VoterHost(ns, i) + ":" + PrintInt(CONTROLLER_PORT)
  }

  function Voters(ns: string, n: int): (v: seq<string>)
    ensures |v| == (if n < 0 then 0 else n)
    ensures forall i :: 0 <= i < |v| ==> v[i] == Voter(ns, i)
  {
    if n <= 0 then [] else Voters(ns, n - 1) + [Voter(ns, n - 1)]
  }

  /******* The start command *******/

  const START_SCRIPT := "/opt/kafka/scripts/mq-start.sh"

  function CommandTokens(t: Target, role: Role, i: int): seq<string> {
    [START_SCRIPT, "up"] + OptionTokens(t, role, i)
  }

  function OptionTokens(t: Target, role: Role, i: int): seq<string> {
    [ "--process.roles", role.Name(),
      "--node.id", PrintInt(NodeId(role, i, t.spec.controller.replicas)),
      "--cluster.id", t.spec.clusterID,
      "--controller.quorum.voters", Join(Voters(t.ns, t.spec.controller.replicas), ","),
      "--s3.bucket", t.spec.s3.bucket,
      "--s3.endpoint", t.spec.s3.endpoint,
      "--s3.region", t.spec.s3.region,
      "--s3.path.style", PrintBool(t.spec.s3.enablePathStyle) ]
  }

  const LINE_JOIN := " \\\n"

  /******* Pod templates *******/

  function JvmOptions(r: RoleSpec): string {
    Join(match r.jvmOptions case Some(options) => options case None => [], " ")
  }

  const PORT_NAME := "NODEPORT_DEFAULT_PORT"
  const APIS_NAME := "OPERATOR_APIS_ADDR"
  const REPORTER_CFG := "KAFKA_CFG_AUTOBALANCER_REPORTER"
  const TELEMETRY_CFG := "KAFKA_CFG_S3_TELEMETRY"

  /** The operator's own variables of a container. */
  function FixedEnv(t: Target, role: Role, nodePort: int): seq<EnvVar> {
    [FieldRef("NAMESPACE_NAME", "metadata.namespace"), FieldRef("POD_NAME", "metadata.name")]
    + (if role == Broker then [FieldRef("NODE_NAME", "spec.nodeName")] else [])
    + [ FieldRef("POD_IP", "status.podIP"),
        Literal("KAFKA_S3_ACCESS_KEY", t.spec.s3.accessKeyID),
        Literal("KAFKA_S3_SECRET_KEY", t.spec.s3.secretAccessKey),
        Literal("KAFKA_HEAP_OPTS", JvmOptions(t.Of(role))) ]
    + (if role == Broker then
         [ Literal(REPORTER_CFG + "_NETWORK_IN_CAPACITY", "5120"),
           Literal(REPORTER_CFG + "_NETWORK_OUT_CAPACITY", "5120"),
           Literal(REPORTER_CFG + "_METRICS_REPORTING_INTERVAL_MS", "5000"),
           Literal(PORT_NAME, PrintInt(nodePort)),
           Literal(APIS_NAME, "http://" + t.apisIP + ":" + PrintInt(9090)) ]
       else [])
    + (if t.spec.metricsEnable then
         [Literal(TELEMETRY_CFG + "_METRICS_EXPORTER_URI", "prometheus://?host=0.0.0.0&port=9090")]
       else [])
  }

  /** A container's variables: the user's come last, and a later one of the same name wins. */
  function TemplateEnv(t: Target, role: Role, nodePort: int): seq<EnvVar> {
    FixedEnv(t, role, nodePort) + t.Of(role).envs
  }

  /** The script hash is looked up in a context that never holds it, so it is always empty. */
  function TemplateAnnotations(t: Target): map<string, string> {
    map["configmap/script-hash" := ""]
    + (if t.spec.metricsEnable then
         map["prometheus.io/scrape" := "true", "prometheus.io/port" := "9090", "prometheus.io/path" := "/metrics"]
       else map[])
  }

  function PodTemplate(t: Target, role: Role, i: int, nodePort: int): Template {
    Template(
      NodeLabels(t.name, role, i),
      TemplateAnnotations(t),
      role.Name(),
      role.Name(),
      PortOf(role),
      Join(CommandTokens(t, role, i), LINE_JOIN),
      TemplateEnv(t, role, nodePort),
      IndexedName(role, i),
      t.name,
      t.Of(role).resources,
      t.mountTZ)
  }

  /******* The objects a call to CreateOrUpdate writes, given the stored one *******/

  function ClaimFor(t: Target, role: Role, i: int, stored: Option<Obj>): Obj {
    var className := t.Of(role).storageClass;
    Claim(NodeLabels(t.name, role, i),
          if className != "" then Some(className)
          else if stored.Some? && stored.value.Claim? then stored.value.storageClass
          else None,
          ["ReadWriteOnce"], "100Gi")
  }

  /** The selector is set before the stored object is read, so it only lasts on a new object. */
  function SelectorFor(wanted: Labels, stored: Option<Obj>): Labels {
    if stored.Some? && (stored.value.Service? || stored.value.Deployment?) then stored.value.selector else wanted
  }

  function NodePortNamed(ports: seq<ServicePort>, name: string): int {
    if ports == [] then 0
    else if ports[0].name == name then ports[0].nodePort
    else NodePortNamed(ports[1..], name)
  }

  /** The API server keeps a requested port, else the stored one of that name, else allocates one. */
  function NodePortFor(requested: int, name: string, stored: Option<Obj>, freshPort: int): int {
    if requested != 0 then requested
    else if stored.Some? && stored.value.Service? && stored.value.svcType == NodePort
            && NodePortNamed(stored.value.ports, name) != 0
    then NodePortNamed(stored.value.ports, name)
    else freshPort
  }

  function ServiceFor(t: Target, role: Role, i: int, stored: Option<Obj>, freshPort: int): Obj {
    var labels := NodeLabels(t.name, role, i);
    var nodePort := if role == Controller then 0 else NodePortFor(0, role.Name(), stored, freshPort);
    Service(labels, SelectorFor(labels, stored),
            [ServicePort(role.Name(), PortOf(role), role.Name(), nodePort)],
            if role == Controller then ClusterIP else NodePort)
  }

  function DeploymentFor(t: Target, role: Role, i: int, stored: Option<Obj>, nodePort: int): Obj {
    Deployment(RoleLabels(t.name, role), SelectorFor(NodeLabels(t.name, role, i), stored),
               PodTemplate(t, role, i, nodePort))
  }

  function BootstrapFor(t: Target, stored: Option<Obj>, freshPort: int): Obj {
    var labels := RoleLabels(t.name, Broker);
    Service(labels, SelectorFor(labels, stored),
            [ServicePort(Broker.Name(), BROKER_PORT, Broker.Name(),
                         NodePortFor(t.spec.nodePort, Broker.Name(), stored, freshPort))],
            NodePort)
  }

  function ScriptFor(t: Target): Obj {
    ConfigMap(map["up.sh" := t.script])
  }
}
