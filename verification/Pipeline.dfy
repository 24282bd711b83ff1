/** What one reconcile pass does to the cluster and to the status, as a function. */
module Pipeline {
  import opened Basics
  import opened AutoMQApi
  import opened Naming
  import opened Store
  import opened Templates

  /******* Conditions *******/

  /** meta.SetStatusCondition: overwrite the first condition of that type, or append. */
  function SetCondition(conditions: seq<Condition>, c: Condition): seq<Condition> {
    if conditions == [] then [c]
    else if conditions[0].ctype == c.ctype then [c] + conditions[1..]
    else [conditions[0]] + SetCondition(conditions[1..], c)
  }

  function WithCondition(st: AutoMQStatus, t: Target, ctype: string, ok: bool, reason: string): AutoMQStatus {
    var c := Condition(ctype, if ok then ConditionTrue else ConditionFalse, t.generation, reason);
    st.(conditions := SetCondition(st.conditions, c))
  }

  /** The condition types, in stage order. */
  const STAGES := [ "SyncS3ServiceReady", "SyncConfigmapReady", "SyncControllerScale", "SyncControllerReady",
                    "SyncBrokerScale", "SyncBrokerReady", "SyncBootstrapServiceReady" ]

  /******* Deleting a range of nodes *******/

  function EraseNode(s: Objects, ns: string, role: Role, i: int, kinds: seq<Kind>, e: Env): Objects
    decreases |kinds|
  {
    if kinds == [] then s
    else EraseNode(Erase(s, NodeKey(kinds[0], ns, role, i), e), ns, role, i, kinds[1..], e)
  }

  function EraseRange(s: Objects, ns: string, role: Role, lo: int, hi: int, kinds: seq<Kind>, e: Env): Objects
    decreases hi - lo
  {
    if hi <= lo then s
    else EraseNode(EraseRange(s, ns, role, lo, hi - 1, kinds, e), ns, role, hi - 1, kinds, e)
  }

  /** The kinds a cleanup deletes for a node, in order. */
  const CLEANED := [ServiceKind, DeploymentKind, ClaimKind]

  /** The kinds a scale-down deletes for a node, in order. For a broker that is a StatefulSet, although
      brokers run as Deployments. */
  function ScaledKinds(role: Role): seq<Kind> {
    [if role == Controller then DeploymentKind else StatefulSetKind, ServiceKind, ClaimKind]
  }

  /******* Creating or updating a range of nodes *******/

  function ApplyClaim(s: Objects, t: Target, role: Role, i: int, e: Env): (Objects, bool) {
    var key := NodeKey(ClaimKind, t.ns, role, i);
    Put(s, key, ClaimFor(t, role, i, Lookup(s, key)), e)
  }

  function ApplyService(s: Objects, t: Target, role: Role, i: int, e: Env): (Objects, bool) {
    var key := NodeKey(ServiceKind, t.ns, role, i);
    Put(s, key, ServiceFor(t, role, i, Lookup(s, key), e.allocate(key)), e)
  }

  /** A stored Service always has a port, as the API server demands. */
  predicate HasPort(stored: Option<Obj>) {
    stored.Some? && stored.value.Service? ==> stored.value.ports != []
  }

  /** A broker's Deployment carries the node port of its Service, which must exist. */
  function ApplyDeployment(s: Objects, t: Target, role: Role, i: int, e: Env): (Objects, bool)
    requires role == Broker ==> HasPort(Lookup(s, NodeKey(ServiceKind, t.ns, role, i)))
  {
    var key := NodeKey(DeploymentKind, t.ns, role, i);
    if role == Controller then
      Put(s, key, DeploymentFor(t, role, i, Lookup(s, key), 0), e)
    else
      var svcKey := NodeKey(ServiceKind, t.ns, role, i);
      var svc := Lookup(s, svcKey);
      if e.Outcome(Fetch(svcKey)) != None || svc == None || !svc.value.Service? then (s, false)
      else Put(s, key, DeploymentFor(t, role, i, Lookup(s, key), svc.value.ports[0].nodePort), e)
  }

  /** The result of a sync loop: `failure` is the reason put on the condition when it stopped early. */
  datatype Synced = Synced(objects: Objects, failure: Option<string>)

  /** One round of syncControllers (claim, deployment, service) or syncBrokers (claim, service, deployment). */
  function SyncNode(s: Objects, t: Target, role: Role, i: int, e: Env): Synced {
    var (s1, ok1) := ApplyClaim(s, t, role, i, e);
    if !ok1 then
      Synced(s1, Some(if role == Controller then "ControllerPVCReconciling" else "BrokerPVCReconciling"))
    else if role == Controller then
      var (s2, ok2) := ApplyDeployment(s1, t, role, i, e);
      if !ok2 then Synced(s2, Some("ControllerSTSReconciling"))
      else
        var (s3, ok3) := ApplyService(s2, t, role, i, e);
        Synced(s3, if ok3 then None else Some("ControllerServiceReconciling"))
    else
      var (s2, ok2) := ApplyService(s1, t, role, i, e);
      if !ok2 then Synced(s2, Some("BrokerServiceReconciling"))
      else
        var (s3, ok3) := ApplyDeployment(s2, t, role, i, e);
        Synced(s3, if ok3 then None else Some("BrokerSTSReconciling"))
  }

  function SyncRange(s: Objects, t: Target, role: Role, n: int, e: Env): Synced {
    if n <= 0 then Synced(s, None)
    else
      var before := SyncRange(s, t, role, n - 1, e);
      if before.failure.Some? then before else SyncNode(before.objects, t, role, n - 1, e)
  }

  /******* The seven stages *******/

  datatype Pipe = Pipe(objects: Objects, status: AutoMQStatus, running: bool)

  function S3Stage(p: Pipe, t: Target, e: Env): Pipe {
    var reason := if e.newBucketFails then "AwsS3ReconcilingInit"
                  else if !e.BucketMade() then "AwsS3ReconcilingBucket"
                  else "AwsS3Reconciling";
    Pipe(p.objects, WithCondition(p.status, t, STAGES[0], e.BucketMade(), reason), e.BucketMade())
  }

  function ConfigMapStage(p: Pipe, t: Target, e: Env): Pipe {
    if e.assetFails then
      Pipe(p.objects, WithCondition(p.status, t, STAGES[1], false, "ConfigmapReconcilingInit"), false)
    else
      var (s, ok) := Put(p.objects, t.ConfigMapKey(), ScriptFor(t), e);
      var reason := if ok then "ConfigmapReconciling" else "ConfigmapReconcilingCreate";
      Pipe(s, WithCondition(p.status, t, STAGES[1], ok, reason), ok)
  }

  function RecordedReplicas(st: AutoMQStatus, role: Role): int {
    if role == Controller then st.controllerReplicas else st.brokerReplicas
  }

  function ScaleStage(p: Pipe, t: Target, role: Role, e: Env): Pipe {
    var s := EraseRange(p.objects, t.ns, role, t.Replicas(role), RecordedReplicas(p.status, role), ScaledKinds(role),
        e);
    Pipe(s,
         if role == Controller then WithCondition(p.status, t, STAGES[2], true, "ControllerScaleReconciling")
         else WithCondition(p.status, t, STAGES[4], true, "BrokerScaleReconciling"),
         true)
  }

  /** A sync loop that stops early still lets the pipeline go on. */
  function SyncStage(p: Pipe, t: Target, role: Role, e: Env): Pipe {
    var r := SyncRange(p.objects, t, role, t.Replicas(role), e);
    var reason := if r.failure.Some? then r.failure.value
                  else if role == Controller then "ControllerReconciling" else "BrokerReconciling";
    Pipe(r.objects,
         WithCondition(p.status, t, if role == Controller then STAGES[3] else STAGES[5], r.failure.None?, reason),
         true)
  }

  function BootstrapAddress(ns: string): string {
    BootstrapName() + "." + ns + ".svc:" + PrintInt(BROKER_PORT)
  }

  function BootstrapStage(p: Pipe, t: Target, e: Env): Pipe {
    var key := BootstrapKey(t.ns);
    var (s, ok) := Put(p.objects, key, BootstrapFor(t, Lookup(p.objects, key), e.allocate(key)), e);
    var st := WithCondition(p.status, t, STAGES[6], ok, "BootstrapServiceReconciling");
    Pipe(s, if ok then st.(bootstrapInternalAddress := BootstrapAddress(t.ns)) else st, true)
  }

  function Stage(k: nat, p: Pipe, t: Target, e: Env): Pipe
    requires k < |STAGES|
  {
    match k
    case 0 => S3Stage(p, t, e)
    case 1 => ConfigMapStage(p, t, e)
    case 2 => ScaleStage(p, t, Controller, e)
    case 3 => SyncStage(p, t, Controller, e)
    case 4 => ScaleStage(p, t, Broker, e)
    case 5 => SyncStage(p, t, Broker, e)
    case _ => BootstrapStage(p, t, e)
  }

  /** The first `n` stages, stopping after the first that asks to. */
  function Stages(n: nat, p: Pipe, t: Target, e: Env): Pipe
    requires n <= |STAGES|
  {
    if n == 0 then p
    else
      var before := Stages(n - 1, p, t, e);
      if before.running then Stage(n - 1, before, t, e) else before
  }

  /** `reconcile` up to its status write: the cluster afterwards and the status about to be written. The
      replica counts are overwritten even when the pipeline stopped early. */
  function Pass(s: Objects, st: AutoMQStatus, t: Target, e: Env): (r: (Objects, AutoMQStatus))
    ensures r.1.controllerReplicas == t.spec.controller.replicas && r.1.brokerReplicas == t.spec.broker.replicas
  {
    var voters := Voters(t.ns, t.spec.controller.replicas);
    var p := Stages(|STAGES|, Pipe(s, st.(controllerAddresses := voters), true), t, e);
    (p.objects, p.status.(controllerReplicas := t.spec.controller.replicas, brokerReplicas := t.spec.broker.replicas))
  }

  /** `cleanup`: what a deleted resource leaves behind, going by the counts its status records. */
  function Cleanup(s: Objects, st: AutoMQStatus, ns: string, name: string, e: Env): (Objects, bool) {
    var s1 := EraseRange(s, ns, Broker, 0, st.brokerReplicas, CLEANED, e);
    var s2 := Erase(s1, BootstrapKey(ns), e);
    var s3 := EraseRange(s2, ns, Controller, 0, st.controllerReplicas, CLEANED, e);
    var key := Key(ConfigMapKind, ns, name);
    (Erase(s3, key, e), e.Outcome(Remove(key)) == None)
  }
}
