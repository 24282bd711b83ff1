/** The objects a clean pass leaves, spelled out from the resource field by field, and how they fit together. */
module Blueprint {
  import opened Basics
  import opened AutoMQApi
  import opened Naming
  import opened Store
  import opened Templates
  import opened Pipeline
  import opened Effects
  import opened Passes
  import opened Convergence
  import opened Isolation
  import opened Lifecycle

  function Text(role: Role): string {
    match role
    case Controller => "controller"
    case Broker => "broker"
  }

  function NodePortOf(o: Option<Obj>): int {
    if o.Some? && o.value.Service? && |o.value.ports| == 1 then o.value.ports[0].nodePort else 0
  }

  /******* Claims, Services, the bootstrap Service *******/

  /** A node's claim: 100Gi for one node at a time, of the storage class asked for, else of the class it already
      has. */
  lemma ClaimIs(s: Objects, st: AutoMQStatus, t: Target, e: Env, role: Role, i: nat)
    requires e.Clean() && i < ReplicasIn(t.spec, role)
    ensures var key, class' := NodeKey(ClaimKind, t.ns, role, i),
                (if role == Controller then t.spec.controller else t.spec.broker).storageClass;
            var before := Lookup(s, key);
            Lookup(Pass(s, st, t, e).0, key) ==
            Some(Claim(NodeLabels(t.name, role, i),
                       if class' != "" then Some(class')
                       else if before.Some? && before.value.Claim? then before.value.storageClass else None,
                       ["ReadWriteOnce"], "100Gi"))
  {
    hide Pass, NodeLabels, IndexedName, ParseName, WritingStage;
    NodeIsDesired(t, role, i, ClaimKind);
    CleanPassAt(s, st, t, e, NodeKey(ClaimKind, t.ns, role, i));
  }

  /** Port `k` is the first of that name. */
  predicate IsFirstNamed(ports: seq<ServicePort>, name: string, k: int) {
    0 <= k < |ports| && ports[k].name == name && forall j :: 0 <= j < k ==> ports[j].name != name
  }

  /** The node port an API server gives: the one asked for, else the one the stored Service has under that name,
      else a fresh one. */
  ghost predicate IsGivenPort(port: int, requested: int, name: string, before: Option<Obj>, freshPort: int) {
    if requested != 0 then port == requested
    else
      || (before.Some? && before.value.Service? && before.value.svcType == NodePort && port != 0
          && exists k :: IsFirstNamed(before.value.ports, name, k) && before.value.ports[k].nodePort == port)
      || (port == freshPort
          && (before.Some? && before.value.Service? && before.value.svcType == NodePort ==>
                forall k :: IsFirstNamed(before.value.ports, name, k) ==> before.value.ports[k].nodePort == 0))
  }

  lemma {:induction false} NamedPortIs(ports: seq<ServicePort>, name: string)
    ensures forall k :: IsFirstNamed(ports, name, k) ==> NodePortNamed(ports, name) == ports[k].nodePort
    ensures NodePortNamed(ports, name) != 0 ==> exists k :: IsFirstNamed(ports, name, k)
  {
    if ports != [] && ports[0].name != name {
      NamedPortIs(ports[1..], name);
      forall k | IsFirstNamed(ports, name, k) ensures NodePortNamed(ports, name) == ports[k].nodePort {
        assert IsFirstNamed(ports[1..], name, k - 1);
      }
      if NodePortNamed(ports, name) != 0 {
        var k :| IsFirstNamed(ports[1..], name, k);
        assert IsFirstNamed(ports, name, k + 1);
      }
    } else if ports != [] {
      assert IsFirstNamed(ports, name, 0);
    }
  }

  lemma GivenPortIs(requested: int, name: string, before: Option<Obj>, freshPort: int)
    ensures IsGivenPort(NodePortFor(requested, name, before, freshPort), requested, name, before, freshPort)
  {
    if before.Some? && before.value.Service? {
      NamedPortIs(before.value.ports, name);
    }
  }

  /** The selector a Service or Deployment is created with stays. */
  function KeptSelector(before: Option<Obj>, labels: Labels): Labels {
    match before
    case Some(Service(_, selector, _, _)) => selector
    case Some(Deployment(_, selector, _)) => selector
    case _ => labels
  }

  /** A node's Service: a controller's inside the cluster on 9093, a broker's on 9092 with a node port that is kept
      once it has one. */
  lemma ServiceIs(s: Objects, st: AutoMQStatus, t: Target, e: Env, role: Role, i: nat) returns (port: int)
    requires e.Clean() && i < ReplicasIn(t.spec, role)
    ensures var key, labels := NodeKey(ServiceKind, t.ns, role, i), NodeLabels(t.name, role, i);
            && (role == Broker ==> IsGivenPort(port, 0, "broker", Lookup(s, key), e.allocate(key)))
            && Lookup(Pass(s, st, t, e).0, key) ==
               Some(Service(labels, KeptSelector(Lookup(s, key), labels),
                            [if role == Controller then ServicePort("controller", 9093, "controller", 0)
                             else ServicePort("broker", 9092, "broker", port)],
                            if role == Controller then ClusterIP else NodePort))
  {
    hide Pass, NodeLabels, IndexedName, ParseName, WritingStage, NodePortFor, IsGivenPort;
    var key := NodeKey(ServiceKind, t.ns, role, i);
    NodeIsDesired(t, role, i, ServiceKind);
    CleanPassAt(s, st, t, e, key);
    GivenPortIs(0, "broker", Lookup(s, key), e.allocate(key));
    port := NodePortFor(0, "broker", Lookup(s, key), e.allocate(key));
  }

  /** The bootstrap Service, with the node port asked for. */
  lemma BootstrapIs(s: Objects, st: AutoMQStatus, t: Target, e: Env) returns (port: int)
    requires e.Clean()
    ensures var key, labels := BootstrapKey(t.ns), RoleLabels(t.name, Broker);
            && IsGivenPort(port, t.spec.nodePort, "broker", Lookup(s, key), e.allocate(key))
            && Lookup(Pass(s, st, t, e).0, key) ==
               Some(Service(labels, KeptSelector(Lookup(s, key), labels), [ServicePort("broker", 9092, "broker", port)],
                            NodePort))
  {
    hide Pass, RoleLabels, BootstrapName, NodePortFor, IsGivenPort;
    var key := BootstrapKey(t.ns);
    CleanPassAt(s, st, t, e, key);
    GivenPortIs(t.spec.nodePort, "broker", Lookup(s, key), e.allocate(key));
    port := NodePortFor(t.spec.nodePort, "broker", Lookup(s, key), e.allocate(key));
  }

  /******* Deployments *******/

  /** What the pod of a node is made of, apart from its command and environment. */
  predicate PodIs(tpl: Template, t: Target, role: Role, i: int) {
    && tpl.labels == NodeLabels(t.name, role, i)
    && tpl.containerName == Text(role) && tpl.portName == Text(role)
    && tpl.containerPort == (if role == Controller then 9093 else 9092)
    && tpl.claimName == IndexedName(role, i)
    && tpl.scriptConfigMap == t.name
    && tpl.mountTZ == t.mountTZ
    && tpl.resources == (if role == Controller then t.spec.controller.resources else t.spec.broker.resources)
    && tpl.annotations == (if t.spec.metricsEnable then
                             map["configmap/script-hash" := "", "prometheus.io/scrape" := "true",
                                 "prometheus.io/port" := "9090", "prometheus.io/path" := "/metrics"]
                           else map["configmap/script-hash" := ""])
  }

  /** The words of a node's command. */
  function CommandOf(t: Target, role: Role, i: int): seq<string> {
    [ "/opt/kafka/scripts/mq-start.sh", "up",
      "--process.roles", Text(role),
      "--node.id", PrintInt(NodeId(role, i, t.spec.controller.replicas)),
      "--cluster.id", t.spec.clusterID,
      "--controller.quorum.voters", Join(Voters(t.ns, t.spec.controller.replicas), ","),
      "--s3.bucket", t.spec.s3.bucket,
      "--s3.endpoint", t.spec.s3.endpoint,
      "--s3.region", t.spec.s3.region,
      "--s3.path.style", if t.spec.s3.enablePathStyle then "true" else "false" ]
  }

  /** The variables of a node's container. */
  function EnvironmentOf(t: Target, role: Role, nodePort: int): seq<EnvVar> {
    var r := if role == Controller then t.spec.controller else t.spec.broker;
    var credentials := [
      FieldRef("POD_IP", "status.podIP"),
      Literal("KAFKA_S3_ACCESS_KEY", t.spec.s3.accessKeyID),
      Literal("KAFKA_S3_SECRET_KEY", t.spec.s3.secretAccessKey),
      Literal("KAFKA_HEAP_OPTS", if r.jvmOptions.Some? then Join(r.jvmOptions.value, " ") else "") ];
    var metrics := if t.spec.metricsEnable then
        [Literal("KAFKA_CFG_S3_TELEMETRY_METRICS_EXPORTER_URI", "prometheus://?host=0.0.0.0&port=9090")] else [];
    var pod := [FieldRef("NAMESPACE_NAME", "metadata.namespace"), FieldRef("POD_NAME", "metadata.name")];
    if role == Controller then
      pod + credentials + metrics + r.envs
    else
      pod + [FieldRef("NODE_NAME", "spec.nodeName")] + credentials
      + [ Literal("KAFKA_CFG_AUTOBALANCER_REPORTER_NETWORK_IN_CAPACITY", "5120"),
          Literal("KAFKA_CFG_AUTOBALANCER_REPORTER_NETWORK_OUT_CAPACITY", "5120"),
          Literal("KAFKA_CFG_AUTOBALANCER_REPORTER_METRICS_REPORTING_INTERVAL_MS", "5000"),
          Literal("NODEPORT_DEFAULT_PORT", PrintInt(nodePort)),
          Literal("OPERATOR_APIS_ADDR", "http://" + t.apisIP + ":9090") ]
      + metrics + r.envs
  }

  lemma PodTemplateIs(t: Target, role: Role, i: int, nodePort: int)
    ensures var tpl := PodTemplate(t, role, i, nodePort);
            PodIs(tpl, t, role, i) && tpl.command == Join(CommandOf(t, role, i), " \\\n")
  {
    CommandIs(t, role, i);
    AnnotationsAre(t);
    hide NodeLabels, IndexedName, Join, TemplateEnv, CommandTokens, CommandOf, TemplateAnnotations;
  }

  lemma CommandIs(t: Target, role: Role, i: int)
    ensures CommandTokens(t, role, i) == CommandOf(t, role, i)
  {
    hide Voters, PrintInt, Join, NodeId;
  }

  lemma AnnotationsAre(t: Target)
    ensures TemplateAnnotations(t) ==
            if t.spec.metricsEnable then
              map["configmap/script-hash" := "", "prometheus.io/scrape" := "true", "prometheus.io/port" := "9090",
                  "prometheus.io/path" := "/metrics"]
            else map["configmap/script-hash" := ""]
  {
  }

  lemma EnvironmentIs(t: Target, role: Role, nodePort: int)
    ensures TemplateEnv(t, role, nodePort) == EnvironmentOf(t, role, nodePort)
  {
    hide PrintInt, Join;
    SettingNames();
    AddressIs(t.apisIP);
    var r := if role == Controller then t.spec.controller else t.spec.broker;
    assert JvmOptions(r) == (if r.jvmOptions.Some? then Join(r.jvmOptions.value, " ") else "") by {
      NothingJoined(" ");
    }
    hide JvmOptions;
    if role == Controller {
      assert TemplateEnv(t, role, nodePort) == EnvironmentOf(t, role, nodePort);
    } else {
      assert TemplateEnv(t, role, nodePort) == EnvironmentOf(t, role, nodePort);
    }
  }

  lemma SettingNames()
    ensures REPORTER_CFG + "_NETWORK_IN_CAPACITY" == "KAFKA_CFG_AUTOBALANCER_REPORTER_NETWORK_IN_CAPACITY"
    ensures REPORTER_CFG + "_NETWORK_OUT_CAPACITY" == "KAFKA_CFG_AUTOBALANCER_REPORTER_NETWORK_OUT_CAPACITY"
    ensures REPORTER_CFG + "_METRICS_REPORTING_INTERVAL_MS" ==
            "KAFKA_CFG_AUTOBALANCER_REPORTER_METRICS_REPORTING_INTERVAL_MS"
    ensures TELEMETRY_CFG + "_METRICS_EXPORTER_URI" == "KAFKA_CFG_S3_TELEMETRY_METRICS_EXPORTER_URI"
  {
    InboundName();
    OutboundName();
    IntervalName();
    ExporterName();
  }

  lemma InboundName()
    ensures REPORTER_CFG + "_NETWORK_IN_CAPACITY" == "KAFKA_CFG_AUTOBALANCER_REPORTER_NETWORK_IN_CAPACITY"
  {
  }

  lemma OutboundName()
    ensures REPORTER_CFG + "_NETWORK_OUT_CAPACITY" == "KAFKA_CFG_AUTOBALANCER_REPORTER_NETWORK_OUT_CAPACITY"
  {
  }

  lemma IntervalName()
    ensures REPORTER_CFG + "_METRICS_REPORTING_INTERVAL_MS" ==
            "KAFKA_CFG_AUTOBALANCER_REPORTER_METRICS_REPORTING_INTERVAL_MS"
  {
  }

  lemma ExporterName()
    ensures TELEMETRY_CFG + "_METRICS_EXPORTER_URI" == "KAFKA_CFG_S3_TELEMETRY_METRICS_EXPORTER_URI"
  {
  }

  lemma NothingJoined(sep: string)
    ensures Join([], sep) == ""
  {
  }

  lemma AddressIs(ip: string)
    ensures "http://" + ip + ":" + PrintInt(9090) == "http://" + ip + ":9090"
  {
    PortTexts();
    assert "http://" + ip + ":" + "9090" == "http://" + ip + ":9090";
  }

  /** A node's Deployment: its pod, command and environment, the last with the node port the node's Service has. */
  lemma DeploymentIs(s: Objects, st: AutoMQStatus, t: Target, e: Env, role: Role, i: nat)
    requires e.Clean() && e.AllocatesPorts() && PortsValid(s) && i < ReplicasIn(t.spec, role)
    ensures var s' := Pass(s, st, t, e).0;
            var svc := Lookup(s', NodeKey(ServiceKind, t.ns, role, i));
            var dep := Lookup(s', NodeKey(DeploymentKind, t.ns, role, i));
            && dep.Some? && dep.value.Deployment? && svc.Some? && svc.value.Service?
            && dep.value.labels == RoleLabels(t.name, role)
            && PodIs(dep.value.template, t, role, i)
            && dep.value.template.command == Join(CommandOf(t, role, i), " \\\n")
            && dep.value.template.env == EnvironmentOf(t, role, NodePortOf(svc))
  {
    hide Pass, PodIs, CommandOf, EnvironmentOf, PodTemplate, NodeLabels, RoleLabels, IndexedName, ParseName;
    CleanNodeMeets(s, st, t, e, role, i);
    var port := NodePortOf(Lookup(Pass(s, st, t, e).0, NodeKey(ServiceKind, t.ns, role, i)));
    PodTemplateIs(t, role, i, port);
    TemplateEnvOf(t, role, i, port);
    EnvironmentIs(t, role, port);
  }

  lemma TemplateEnvOf(t: Target, role: Role, i: int, port: int)
    ensures PodTemplate(t, role, i, port).env == TemplateEnv(t, role, port)
  {
    hide TemplateEnv, TemplateAnnotations, CommandTokens, NodeLabels, IndexedName;
  }

  /******* How they fit together *******/

  /** The claim a node's Deployment mounts is there, is the node's own, and no two nodes mount the same one; the
      ConfigMap it mounts holds the script. */
  lemma NodesMountTheirOwn(s: Objects, st: AutoMQStatus, t: Target, e: Env, role: Role, i: nat, role': Role, j: nat)
    requires e.Clean() && e.AllocatesPorts() && PortsValid(s)
    requires i < ReplicasIn(t.spec, role) && j < ReplicasIn(t.spec, role')
    ensures var s' := Pass(s, st, t, e).0;
            var dep := Lookup(s', NodeKey(DeploymentKind, t.ns, role, i));
            var dep' := Lookup(s', NodeKey(DeploymentKind, t.ns, role', j));
            && dep.Some? && dep.value.Deployment? && dep'.Some? && dep'.value.Deployment?
            && (dep.value.template.claimName == dep'.value.template.claimName <==> (role, i) == (role', j))
            && var claim := Lookup(s', Key(ClaimKind, t.ns, dep.value.template.claimName));
               var script := Lookup(s', Key(ConfigMapKind, t.ns, dep.value.template.scriptConfigMap));
               && claim.Some? && claim.value.Claim? && claim.value.labels == NodeLabels(t.name, role, i)
               && claim.value.labels == dep.value.template.labels
               && script == Some(ConfigMap(map["up.sh" := t.script]))
  {
    hide Pass, PodTemplate, CommandOf, EnvironmentOf, NodeLabels, RoleLabels, ParseName, Join;
    DeploymentIs(s, st, t, e, role, i);
    DeploymentIs(s, st, t, e, role', j);
    ClaimIs(s, st, t, e, role, i);
    CleanPassAt(s, st, t, e, Key(ConfigMapKind, t.ns, t.name));
  }

  /** A call of `Reconcile` on a live resource, whatever fails: the finalizer comes first, then a pass for exactly the
      stored resource under the operator's own settings, then the status the pass reports. */
  lemma ReconcileIsAPass(s: Objects, r: Resource, ns: string, name: string, cfg: Settings, e: Env)
    requires !r.deleting
    ensures var t := Target(ns, name, r.generation, r.spec, cfg.mountTZ, cfg.apisIP, cfg.script);
            var (s', st) := Pass(s, r.status, t, e);
            var update, write := e.Outcome(UpdateResource), e.Outcome(WriteStatus);
            ReconcileOnce(s, Some(r), ns, name, cfg, e) ==
            if e.Outcome(GetResource) != None || update == Some(Refused) then (s, Some(r))
            else if update == Some(LostReply) then (s, Some(Resource(r.spec, r.status, r.generation, true, false)))
            else (s', Some(Resource(r.spec, if write == Some(Refused) then r.status else st, r.generation, true,
                                    false)))
  {
    hide Pass;
  }

  /** A call of `Reconcile` on a deleted resource: only the ConfigMap's delete and the update decide whether the
      resource goes; of its objects, those of the recorded nodes, the bootstrap Service and the ConfigMap go unless
      their own delete is refused, and nothing else goes or changes. */
  lemma ReconcileIsACleanup(s: Objects, r: Resource, ns: string, name: string, cfg: Settings, e: Env, key: Key)
    requires r.deleting
    ensures e.Outcome(GetResource) != None ==> ReconcileOnce(s, Some(r), ns, name, cfg, e) == (s, Some(r))
    ensures ReconcileOnce(s, None, ns, name, cfg, e) == (s, None)
    ensures var (s', r') := ReconcileOnce(s, Some(r), ns, name, cfg, e);
            e.Outcome(GetResource) == None ==>
              && r' == (if e.Outcome(Remove(Key(ConfigMapKind, ns, name))) == None
                           && e.Outcome(UpdateResource) != Some(Refused) then None else Some(r))
              && Lookup(s', key) ==
                 if IsTheResources(key, ns, name, r.status) && e.Outcome(Remove(key)) != Some(Refused) then None
                 else Lookup(s, key)
  {
    hide Cleanup, ParseName, IndexedName, BootstrapName, EraseRange;
    CleanupAt(s, r.status, ns, name, e, key);
    if e.Outcome(GetResource) == None {
      FinalizeIs(s, r, ns, name, e);
    }
  }

  /** The key is of an object a resource with this status has. */
  predicate IsTheResources(key: Key, ns: string, name: string, st: AutoMQStatus) {
    || key == BootstrapKey(ns)
    || key == Key(ConfigMapKind, ns, name)
    || match ParseName(key.name)
       case Some((role, i)) =>
         key == NodeKey(key.kind, ns, role, i) && key.kind in {ServiceKind, DeploymentKind, ClaimKind}
         && 0 <= i < (if role == Controller then st.controllerReplicas else st.brokerReplicas)
       case None => false
  }

  lemma FinalizeIs(s: Objects, r: Resource, ns: string, name: string, e: Env)
    requires r.deleting && e.Outcome(GetResource) == None
    ensures var (s', r') := Finalize(s, Some(r), ns, name, e);
            && s' == Cleanup(s, r.status, ns, name, e).0
            && r' == (if e.Outcome(Remove(Key(ConfigMapKind, ns, name))) == None
                         && e.Outcome(UpdateResource) != Some(Refused) then None else Some(r))
  {
    hide EraseRange;
  }

  /** What a scale-down deletes, by role: for a controller its Deployment, Service and claim, for a broker a
      StatefulSet, Service and claim, its Deployment staying. */
  lemma ScaleDownDeletes(s: Objects, st: AutoMQStatus, t: Target, e: Env, role: Role, i: nat, kind: Kind)
    requires e.ReachesScaling(t.ConfigMapKey()) && kind != ConfigMapKind
    requires ReplicasIn(t.spec, role) <= i < (if role == Controller then st.controllerReplicas else st.brokerReplicas)
    ensures var key := NodeKey(kind, t.ns, role, i);
            var after := Lookup(Pass(s, st, t, e).0, key);
            if e.Outcome(Remove(key)) != Some(Refused)
               && (kind in {ServiceKind, ClaimKind}
                   || kind == (if role == Controller then DeploymentKind else StatefulSetKind))
            then after == None
            else after == Lookup(s, key)
  {
    hide Pass, IndexedName, ParseName, BootstrapName, Contains, Refreshed, Lookup, Env.ReachesScaling;
    var key := NodeKey(kind, t.ns, role, i);
    assert !Desired(t, key);
    var _ := PassAt(s, st, t, e, key);
    if ErasingStage(t, st, key) < NEVER && Erasable(key, e) {
      PassErases(s, st, t, e, key);
    }
  }
}
