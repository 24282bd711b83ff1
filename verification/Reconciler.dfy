/** The reconciler as it runs: loops over nodes, writes to the cluster, updates of the resource in place
    (internal/controller). Every method is proved against its function in `Pipeline` or `Lifecycle`. */
module Reconciler {
  import opened Basics
  import opened AutoMQApi
  import opened Naming
  import opened Store
  import opened Templates
  import opened Pipeline
  import opened Effects
  import opened StatusTicker
  import opened Lifecycle

  function StoredAt(resources: map<(string, string), Resource>, ns: string, name: string): Option<Resource> {
    if (ns, name) in resources then Some(resources[(ns, name)]) else None
  }

  function StoredWith(resources: map<(string, string), Resource>, ns: string, name: string, r: Option<Resource>)
    : map<(string, string), Resource>
  {
    if r.Some? then resources[(ns, name) := r.value] else resources - {(ns, name)}
  }

  class AutoMQReconciler {
    const cluster: Cluster
    const cfg: Settings

    constructor (cluster: Cluster, cfg: Settings)
      ensures this.cluster == cluster && this.cfg == cfg
    {
      this.cluster, this.cfg := cluster, cfg;
    }

    function TargetFor(mq: AutoMQ): Target
      reads mq
    {
      Target(mq.namespace, mq.name, mq.generation, mq.spec, cfg.mountTZ, cfg.apisIP, cfg.script)
    }

    method SetStatusCondition(mq: AutoMQ, ctype: string, ok: bool, reason: string)
      modifies mq`status
      ensures mq.status == WithCondition(old(mq.status), TargetFor(mq), ctype, ok, reason)
    {
      var c := Condition(ctype, if ok then ConditionTrue else ConditionFalse, mq.generation, reason);
      mq.status := mq.status.(conditions := SetCondition(mq.status.conditions, c));
    }

    method ControllerVoters(mq: AutoMQ) returns (voters: seq<string>)
      ensures voters == Voters(mq.namespace, mq.spec.controller.replicas)
    {
      hide Voter;
      voters := [];
      var i := 0;
      while i < mq.spec.controller.replicas
        invariant 0 <= i
        invariant i == 0 || i <= mq.spec.controller.replicas
        invariant voters == Voters(mq.namespace, i)
      {
        voters := voters + [Voter(mq.namespace, i)];
        i := i + 1;
      }
    }

    /******* Cleanup *******/

    method CleanNode(mq: AutoMQ, role: Role, i: int, e: Env)
      modifies cluster`objects
      ensures cluster.objects == EraseNode(old(cluster.objects), mq.namespace, role, i, CLEANED, e)
    {
      hide NodeKey;
      cluster.Delete(NodeKey(ServiceKind, mq.namespace, role, i), e);
      cluster.Delete(NodeKey(DeploymentKind, mq.namespace, role, i), e);
      cluster.Delete(NodeKey(ClaimKind, mq.namespace, role, i), e);
      ThreeErased(old(cluster.objects), mq.namespace, role, i, CLEANED, e);
    }

    method CleanBroker(mq: AutoMQ, e: Env)
      modifies cluster`objects
      ensures cluster.objects ==
              Erase(EraseRange(old(cluster.objects), mq.namespace, Broker, 0, mq.status.brokerReplicas, CLEANED, e),
                    BootstrapKey(mq.namespace), e)
    {
      hide EraseNode;
      var i := 0;
      while i < mq.status.brokerReplicas
        invariant 0 <= i
        invariant i == 0 || i <= mq.status.brokerReplicas
        invariant cluster.objects == EraseRange(old(cluster.objects), mq.namespace, Broker, 0, i, CLEANED, e)
      {
        CleanNode(mq, Broker, i, e);
        i := i + 1;
      }
      cluster.Delete(BootstrapKey(mq.namespace), e);
    }

    method CleanController(mq: AutoMQ, e: Env)
      modifies cluster`objects
      ensures cluster.objects ==
              EraseRange(old(cluster.objects), mq.namespace, Controller, 0, mq.status.controllerReplicas, CLEANED, e)
    {
      hide EraseNode;
      var i := 0;
      while i < mq.status.controllerReplicas
        invariant 0 <= i
        invariant i == 0 || i <= mq.status.controllerReplicas
        invariant cluster.objects == EraseRange(old(cluster.objects), mq.namespace, Controller, 0, i, CLEANED, e)
      {
        CleanNode(mq, Controller, i, e);
        i := i + 1;
      }
    }

    method Cleanup(mq: AutoMQ, e: Env) returns (ok: bool)
      modifies cluster`objects
      ensures (cluster.objects, ok) == Pipeline.Cleanup(old(cluster.objects), mq.status, mq.namespace, mq.name, e)
    {
      hide EraseRange, BootstrapKey;
      CleanBroker(mq, e);
      CleanController(mq, e);
      var key := Key(ConfigMapKind, mq.namespace, mq.name);
      cluster.Delete(key, e);
      ok := e.Outcome(Remove(key)) == None;
    }

    /******* Stages *******/

    method S3Service(mq: AutoMQ, e: Env) returns (running: bool)
      modifies mq`status
      ensures Pipe(cluster.objects, mq.status, running) ==
              S3Stage(Pipe(old(cluster.objects), old(mq.status), true), TargetFor(mq), e)
    {
      hide SetCondition, Contains;
      if e.newBucketFails {
        SetStatusCondition(mq, STAGES[0], false, "AwsS3ReconcilingInit");
        return false;
      }
      if e.mkBucketError.Some? && !Contains(e.mkBucketError.value, "BucketAlready") {
        SetStatusCondition(mq, STAGES[0], false, "AwsS3ReconcilingBucket");
        return false;
      }
      SetStatusCondition(mq, STAGES[0], true, "AwsS3Reconciling");
      return true;
    }

    method ScriptConfigmap(mq: AutoMQ, e: Env) returns (running: bool)
      modifies mq`status, cluster`objects
      ensures Pipe(cluster.objects, mq.status, running) ==
              ConfigMapStage(Pipe(old(cluster.objects), old(mq.status), true), TargetFor(mq), e)
    {
      hide SetCondition, Put;
      if e.assetFails {
        SetStatusCondition(mq, STAGES[1], false, "ConfigmapReconcilingInit");
        return false;
      }
      var ok := cluster.Write(TargetFor(mq).ConfigMapKey(), ConfigMap(map["up.sh" := cfg.script]), e);
      if !ok {
        SetStatusCondition(mq, STAGES[1], false, "ConfigmapReconcilingCreate");
        return false;
      }
      SetStatusCondition(mq, STAGES[1], true, "ConfigmapReconciling");
      return true;
    }

    method ScaleDown(mq: AutoMQ, role: Role, lo: int, hi: int, e: Env)
      modifies cluster`objects
      ensures cluster.objects == EraseRange(old(cluster.objects), mq.namespace, role, lo, hi, ScaledKinds(role), e)
    {
      hide EraseNode, NodeKey;
      if lo < hi {
        var i := lo;
        while i < hi
          invariant lo <= i <= hi
          invariant cluster.objects == EraseRange(old(cluster.objects), mq.namespace, role, lo, i, ScaledKinds(role), e)
        {
          ghost var before := cluster.objects;
          cluster.Delete(NodeKey(if role == Controller then DeploymentKind else StatefulSetKind, mq.namespace, role,
              i), e);
          cluster.Delete(NodeKey(ServiceKind, mq.namespace, role, i), e);
          cluster.Delete(NodeKey(ClaimKind, mq.namespace, role, i), e);
          ThreeErased(before, mq.namespace, role, i, ScaledKinds(role), e);
          i := i + 1;
        }
      }
    }

    method SyncControllersScale(mq: AutoMQ, e: Env) returns (running: bool)
      modifies mq`status, cluster`objects
      ensures Pipe(cluster.objects, mq.status, running) ==
              ScaleStage(Pipe(old(cluster.objects), old(mq.status), true), TargetFor(mq), Controller, e)
    {
      hide SetCondition, EraseRange;
      ScaleDown(mq, Controller, mq.spec.controller.replicas, mq.status.controllerReplicas, e);
      SetStatusCondition(mq, STAGES[2], true, "ControllerScaleReconciling");
      return true;
    }

    method SyncBrokerScale(mq: AutoMQ, e: Env) returns (running: bool)
      modifies mq`status, cluster`objects
      ensures Pipe(cluster.objects, mq.status, running) ==
              ScaleStage(Pipe(old(cluster.objects), old(mq.status), true), TargetFor(mq), Broker, e)
    {
      hide SetCondition, EraseRange;
      ScaleDown(mq, Broker, mq.spec.broker.replicas, mq.status.brokerReplicas, e);
      SetStatusCondition(mq, STAGES[4], true, "BrokerScaleReconciling");
      return true;
    }

    method SyncPVC(mq: AutoMQ, role: Role, i: int, e: Env) returns (ok: bool)
      modifies cluster`objects
      ensures (cluster.objects, ok) == ApplyClaim(old(cluster.objects), TargetFor(mq), role, i, e)
    {
      hide ClaimFor, NodeKey, Put;
      var key := NodeKey(ClaimKind, mq.namespace, role, i);
      ok := cluster.Write(key, ClaimFor(TargetFor(mq), role, i, Lookup(cluster.objects, key)), e);
    }

    method SyncService(mq: AutoMQ, role: Role, i: int, e: Env) returns (ok: bool)
      modifies cluster`objects
      ensures (cluster.objects, ok) == ApplyService(old(cluster.objects), TargetFor(mq), role, i, e)
      ensures ok ==> HasPort(Lookup(cluster.objects, NodeKey(ServiceKind, mq.namespace, role, i)))
    {
      hide ServiceFor, NodeKey, Put;
      var key := NodeKey(ServiceKind, mq.namespace, role, i);
      ghost var before := cluster.objects;
      ok := cluster.Write(key, ServiceFor(TargetFor(mq), role, i, Lookup(cluster.objects, key), e.allocate(key)), e);
      ApplyServiceAt(before, TargetFor(mq), role, i, e, key);
    }

    method SyncControllerDeploy(mq: AutoMQ, i: int, e: Env) returns (ok: bool)
      modifies cluster`objects
      ensures (cluster.objects, ok) == ApplyDeployment(old(cluster.objects), TargetFor(mq), Controller, i, e)
    {
      hide DeploymentFor, NodeKey, Put;
      var key := NodeKey(DeploymentKind, mq.namespace, Controller, i);
      ok := cluster.Write(key, DeploymentFor(TargetFor(mq), Controller, i, Lookup(cluster.objects, key), 0), e);
    }

    /** Reads the broker's Service first; a Service without ports would be a run-time error. */
    method SyncBrokerDeploy(mq: AutoMQ, i: int, e: Env) returns (ok: bool)
      requires HasPort(Lookup(cluster.objects, NodeKey(ServiceKind, mq.namespace, Broker, i)))
      modifies cluster`objects
      ensures (cluster.objects, ok) == ApplyDeployment(old(cluster.objects), TargetFor(mq), Broker, i, e)
    {
      hide DeploymentFor, NodeKey, Put;
      var svcKey := NodeKey(ServiceKind, mq.namespace, Broker, i);
      var svc := Lookup(cluster.objects, svcKey);
      if e.Outcome(Fetch(svcKey)) != None || svc == None || !svc.value.Service? {
        return false;
      }
      var key := NodeKey(DeploymentKind, mq.namespace, Broker, i);
      ok := cluster.Write(key, DeploymentFor(TargetFor(mq), Broker, i, Lookup(cluster.objects, key),
          svc.value.ports[0].nodePort), e);
    }

    method SyncControllers(mq: AutoMQ, e: Env) returns (running: bool)
      modifies mq`status, cluster`objects
      ensures Pipe(cluster.objects, mq.status, running) ==
              SyncStage(Pipe(old(cluster.objects), old(mq.status), true), TargetFor(mq), Controller, e)
    {
      hide SetCondition, ApplyClaim, ApplyService, ApplyDeployment;
      ghost var s, t, n := cluster.objects, TargetFor(mq), mq.spec.controller.replicas;
      var i := 0;
      while i < mq.spec.controller.replicas
        invariant 0 <= i
        invariant i == 0 || i <= n
        invariant SyncRange(s, t, Controller, i, e) == Synced(cluster.objects, None)
        invariant mq.status == old(mq.status)
      {
        ghost var here := cluster.objects;
        assert SyncRange(s, t, Controller, i + 1, e) == SyncNode(here, t, Controller, i, e);
        var ok := SyncPVC(mq, Controller, i, e);
        if !ok {
          StoppedLoop(s, t, Controller, i + 1, n, e);
          SetStatusCondition(mq, STAGES[3], false, "ControllerPVCReconciling");
          return true;
        }
        ok := SyncControllerDeploy(mq, i, e);
        if !ok {
          StoppedLoop(s, t, Controller, i + 1, n, e);
          SetStatusCondition(mq, STAGES[3], false, "ControllerSTSReconciling");
          return true;
        }
        ok := SyncService(mq, Controller, i, e);
        if !ok {
          StoppedLoop(s, t, Controller, i + 1, n, e);
          SetStatusCondition(mq, STAGES[3], false, "ControllerServiceReconciling");
          return true;
        }
        i := i + 1;
      }
      SetStatusCondition(mq, STAGES[3], true, "ControllerReconciling");
      return true;
    }

    method SyncBrokers(mq: AutoMQ, e: Env) returns (running: bool)
      modifies mq`status, cluster`objects
      ensures Pipe(cluster.objects, mq.status, running) ==
              SyncStage(Pipe(old(cluster.objects), old(mq.status), true), TargetFor(mq), Broker, e)
    {
      hide SetCondition, ApplyClaim, ApplyService, ApplyDeployment, NodeKey;
      ghost var s, t, n := cluster.objects, TargetFor(mq), mq.spec.broker.replicas;
      var i := 0;
      while i < mq.spec.broker.replicas
        invariant 0 <= i
        invariant i == 0 || i <= n
        invariant SyncRange(s, t, Broker, i, e) == Synced(cluster.objects, None)
        invariant mq.status == old(mq.status)
      {
        ghost var here := cluster.objects;
        assert SyncRange(s, t, Broker, i + 1, e) == SyncNode(here, t, Broker, i, e);
        var ok := SyncPVC(mq, Broker, i, e);
        if !ok {
          StoppedLoop(s, t, Broker, i + 1, n, e);
          SetStatusCondition(mq, STAGES[5], false, "BrokerPVCReconciling");
          return true;
        }
        ok := SyncService(mq, Broker, i, e);
        if !ok {
          StoppedLoop(s, t, Broker, i + 1, n, e);
          SetStatusCondition(mq, STAGES[5], false, "BrokerServiceReconciling");
          return true;
        }
        ok := SyncBrokerDeploy(mq, i, e);
        if !ok {
          StoppedLoop(s, t, Broker, i + 1, n, e);
          SetStatusCondition(mq, STAGES[5], false, "BrokerSTSReconciling");
          return true;
        }
        i := i + 1;
      }
      SetStatusCondition(mq, STAGES[5], true, "BrokerReconciling");
      return true;
    }

    method SyncKafkaBootstrapService(mq: AutoMQ, e: Env) returns (running: bool)
      modifies mq`status, cluster`objects
      ensures Pipe(cluster.objects, mq.status, running) ==
              BootstrapStage(Pipe(old(cluster.objects), old(mq.status), true), TargetFor(mq), e)
    {
      hide SetCondition, BootstrapFor, BootstrapKey, Put, BootstrapName;
      var key := BootstrapKey(mq.namespace);
      var ok := cluster.Write(key, BootstrapFor(TargetFor(mq), Lookup(cluster.objects, key), e.allocate(key)), e);
      if !ok {
        SetStatusCondition(mq, STAGES[6], false, "BootstrapServiceReconciling");
        return true;
      }
      SetStatusCondition(mq, STAGES[6], true, "BootstrapServiceReconciling");
      mq.status := mq.status.(bootstrapInternalAddress := BootstrapAddress(mq.namespace));
      return true;
    }

    method RunStage(k: nat, mq: AutoMQ, e: Env) returns (running: bool)
      requires k < |STAGES|
      modifies mq`status, cluster`objects
      ensures Pipe(cluster.objects, mq.status, running) ==
              Stage(k, Pipe(old(cluster.objects), old(mq.status), true), TargetFor(mq), e)
    {
      hide S3Stage, ConfigMapStage, ScaleStage, SyncStage, BootstrapStage;
      match k
      case 0 => running := S3Service(mq, e);
      case 1 => running := ScriptConfigmap(mq, e);
      case 2 => running := SyncControllersScale(mq, e);
      case 3 => running := SyncControllers(mq, e);
      case 4 => running := SyncBrokerScale(mq, e);
      case 5 => running := SyncBrokers(mq, e);
      case _ => running := SyncKafkaBootstrapService(mq, e);
    }

    /** `reconcile` up to its status write: the loop over the stages, which breaks at the first that says so. */
    method RunPipelines(mq: AutoMQ, e: Env)
      modifies mq`status, cluster`objects
      ensures (cluster.objects, mq.status) == Pass(old(cluster.objects), old(mq.status), TargetFor(mq), e)
    {
      hide Stage, Voters;
      var voters := ControllerVoters(mq);
      mq.status := mq.status.(controllerAddresses := voters);
      ghost var p, t := Pipe(cluster.objects, mq.status, true), TargetFor(mq);
      var index := 0;
      while index < |STAGES|
        invariant index <= |STAGES|
        invariant Stages(index, p, t, e) == Pipe(cluster.objects, mq.status, true)
      {
        var running := RunStage(index, mq, e);
        if !running {
          StoppedPipeline(p, t, e, index + 1, |STAGES|);
          break;
        }
        index := index + 1;
      }
      mq.status := mq.status.(controllerReplicas := mq.spec.controller.replicas,
          brokerReplicas := mq.spec.broker.replicas);
    }

    method SyncStatus(mq: AutoMQ, e: Env)
      modifies cluster`resources
      ensures cluster.resources ==
              StoredWith(old(cluster.resources), mq.namespace, mq.name,
                         WriteBack(StoredAt(old(cluster.resources), mq.namespace, mq.name), mq.status, e))
    {
      var id := (mq.namespace, mq.name);
      if id in cluster.resources && e.Outcome(WriteStatus) != Some(Refused) {
        cluster.resources := cluster.resources[id := cluster.resources[id].(status := mq.status)];
      }
    }

    /** An undisturbed `Reconcile`. */
    method Reconcile(ns: string, name: string, e: Env)
      modifies cluster
      ensures var (s, r) := ReconcileOnce(old(cluster.objects), StoredAt(old(cluster.resources), ns, name), ns, name,
          cfg, e);
              cluster.objects == s && cluster.resources == StoredWith(old(cluster.resources), ns, name, r)
    {
      hide Pass, Pipeline.Cleanup;
      var id := (ns, name);
      if id !in cluster.resources || e.Outcome(GetResource) != None {
        return;
      }
      var r := cluster.resources[id];
      var mq := new AutoMQ(name, ns, r.spec, r.status, r.generation, r.finalizer, r.deleting);
      if mq.deleting {
        var ok := Cleanup(mq, e);
        if ok {
          mq.finalizer := false;
          if e.Outcome(UpdateResource) != Some(Refused) {
            cluster.resources := cluster.resources - {id};
          }
        }
        return;
      }
      mq.finalizer := true;
      if e.Outcome(UpdateResource) != Some(Refused) {
        cluster.resources := cluster.resources[id := r.(finalizer := true)];
      }
      if e.Outcome(UpdateResource) != None {
        return;
      }
      RunPipelines(mq, e);
      SyncStatus(mq, e);
    }

    /** An undisturbed `statusReconcile`. */
    method StatusReconcile(ns: string, name: string, pods: seq<Pod>, e: Env)
      modifies cluster`resources
      ensures cluster.resources ==
              StoredWith(old(cluster.resources), ns, name, TickOnce(StoredAt(old(cluster.resources), ns, name), ns,
                  name, pods, e))
    {
      hide Counted, RoleLabels;
      var id := (ns, name);
      if id !in cluster.resources || e.Outcome(GetResource) != None {
        return;
      }
      var r := cluster.resources[id];
      var mq := new AutoMQ(name, ns, r.spec, r.status, r.generation, r.finalizer, r.deleting);
      mq.status := mq.status.(phase := Pending);
      var allTrue := true;
      var k := 0;
      while k < |mq.status.conditions|
        invariant 0 <= k <= |mq.status.conditions|
        invariant allTrue && AllTrue(mq.status.conditions[..k])
      {
        if mq.status.conditions[k].status != ConditionTrue {
          allTrue := false;
          break;
        }
        k := k + 1;
      }
      assert allTrue <==> AllTrue(r.status.conditions);
      if !allTrue {
        mq.status := mq.status.(phase := Error);
      } else {
        mq.status := mq.status.(phase := InProcess);
      }
      if mq.status.phase == InProcess {
        if e.Outcome(ListPods(Controller)) != None {
          return;
        }
        var c := GetPodRunningNum(pods, ns, RoleLabels(name, Controller));
        if e.Outcome(ListPods(Broker)) != None {
          return;
        }
        var b := GetPodRunningNum(pods, ns, RoleLabels(name, Broker));
        mq.status := mq.status.(readyPods := Wrap32(Wrap32(c) + Wrap32(b)));
        if Wrap32(c) == mq.spec.controller.replicas && Wrap32(b) == mq.spec.broker.replicas {
          mq.status := mq.status.(phase := Ready);
        }
      }
      SyncStatus(mq, e);
    }
  }

  lemma ThreeErased(s: Objects, ns: string, role: Role, i: int, kinds: seq<Kind>, e: Env)
    requires |kinds| == 3
    ensures EraseNode(s, ns, role, i, kinds, e) ==
            Erase(Erase(Erase(s, NodeKey(kinds[0], ns, role, i), e), NodeKey(kinds[1], ns, role, i), e),
                NodeKey(kinds[2], ns, role, i), e)
  {
    hide NodeKey, Erase;
    var rest := kinds[1..];
    var s1 := Erase(s, NodeKey(kinds[0], ns, role, i), e);
    var s2 := Erase(s1, NodeKey(kinds[1], ns, role, i), e);
    assert EraseNode(s, ns, role, i, kinds, e) == EraseNode(s1, ns, role, i, rest, e);
    assert rest[0] == kinds[1] && rest[1..] == [kinds[2]];
    assert EraseNode(s1, ns, role, i, rest, e) == EraseNode(s2, ns, role, i, [kinds[2]], e);
    var last := [kinds[2]];
    var s3 := Erase(s2, NodeKey(last[0], ns, role, i), e);
    assert last[1..] == [] && EraseNode(s3, ns, role, i, [], e) == s3;
    assert EraseNode(s2, ns, role, i, last, e) == EraseNode(s3, ns, role, i, last[1..], e);
  }

  /** Once a sync loop has failed, the rounds left out change nothing. */
  lemma {:induction false} StoppedLoop(s: Objects, t: Target, role: Role, i: int, n: int, e: Env)
    requires 0 < i <= n && SyncRange(s, t, role, i, e).failure.Some?
    ensures SyncRange(s, t, role, n, e) == SyncRange(s, t, role, i, e)
    decreases n - i
  {
    hide SyncNode;
    if i < n {
      StoppedLoop(s, t, role, i, n - 1, e);
    }
  }

  /** Once the pipeline has stopped, the stages left out change nothing. */
  lemma {:induction false} StoppedPipeline(p: Pipe, t: Target, e: Env, k: nat, n: nat)
    requires k <= n <= |STAGES| && !Stages(k, p, t, e).running
    ensures Stages(n, p, t, e) == Stages(k, p, t, e)
    decreases n - k
  {
    hide Stage;
    if k < n {
      StoppedPipeline(p, t, e, k, n - 1);
    }
  }
}
