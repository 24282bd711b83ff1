/** Convergence: one clean pass reaches the goal from anywhere, a second one is a no-op, and faults before a
    clean pass are absorbed. */
module Convergence {
  import opened Basics
  import opened AutoMQApi
  import opened Naming
  import opened Store
  import opened Templates
  import opened Pipeline
  import opened Effects
  import opened Passes
  import opened Conditions

  /******* The goal, stated on the cluster alone *******/

  predicate ClaimMeets(o: Option<Obj>, t: Target, role: Role, i: int) {
    o.Some? && o.value.Claim? && o.value.labels == NodeLabels(t.name, role, i)
    && o.value.accessModes == ["ReadWriteOnce"] && o.value.request == "100Gi"
    && (t.Of(role).storageClass != "" ==> o.value.storageClass == Some(t.Of(role).storageClass))
  }

  /** A controller's Service is internal; a broker's has a node port. */
  predicate ServiceMeets(o: Option<Obj>, t: Target, role: Role, i: int) {
    o.Some? && o.value.Service? && o.value.labels == NodeLabels(t.name, role, i)
    && o.value.svcType == (if role == Controller then ClusterIP else NodePort)
    && |o.value.ports| == 1
    && var port := o.value.ports[0];
       port.name == port.targetPort == role.Name() && port.port == PortOf(role)
       && (if role == Controller then port.nodePort == 0 else port.nodePort > 0)
  }

  /** The Deployment runs the node's template, told the node port its Service has. */
  predicate DeploymentMeets(o: Option<Obj>, svc: Option<Obj>, t: Target, role: Role, i: int) {
    o.Some? && o.value.Deployment? && o.value.labels == RoleLabels(t.name, role)
    && svc.Some? && svc.value.Service? && svc.value.ports != []
    && o.value.template == PodTemplate(t, role, i, svc.value.ports[0].nodePort)
  }

  predicate BootstrapMeets(o: Option<Obj>, t: Target) {
    o.Some? && o.value.Service? && o.value.labels == RoleLabels(t.name, Broker) && o.value.svcType == NodePort
    && |o.value.ports| == 1
    && var port := o.value.ports[0];
       port.name == port.targetPort == Broker.Name() && port.port == BROKER_PORT
       && (if t.spec.nodePort != 0 then port.nodePort == t.spec.nodePort else port.nodePort > 0)
  }

  predicate NodeMeets(s: Objects, t: Target, role: Role, i: int) {
    var svc := Lookup(s, NodeKey(ServiceKind, t.ns, role, i));
    && ClaimMeets(Lookup(s, NodeKey(ClaimKind, t.ns, role, i)), t, role, i)
    && ServiceMeets(svc, t, role, i)
    && DeploymentMeets(Lookup(s, NodeKey(DeploymentKind, t.ns, role, i)), svc, t, role, i)
  }

  ghost predicate GoalReached(s: Objects, t: Target) {
    && (forall role, i :: 0 <= i < t.Replicas(role) ==> NodeMeets(s, t, role, i))
    && BootstrapMeets(Lookup(s, BootstrapKey(t.ns)), t)
    && Lookup(s, t.ConfigMapKey()) == Some(ConfigMap(map["up.sh" := t.script]))
  }

  ghost predicate OwnPortsValid(stored: Option<Obj>) {
    stored.Some? && stored.value.Service? ==>
      forall k :: 0 <= k < |stored.value.ports| ==> stored.value.ports[k].nodePort >= 0
  }

  /** Stored node ports are valid port numbers. */
  ghost predicate PortsValid(s: Objects) {
    forall key :: OwnPortsValid(Lookup(s, key))
  }

  lemma {:induction false} NamedPortValid(ports: seq<ServicePort>, name: string)
    requires forall k :: 0 <= k < |ports| ==> ports[k].nodePort >= 0
    ensures NodePortNamed(ports, name) >= 0
  {
    if ports != [] && ports[0].name != name {
      NamedPortValid(ports[1..], name);
    }
  }

  lemma ServiceForMeets(t: Target, role: Role, i: int, stored: Option<Obj>, freshPort: int)
    requires freshPort > 0
    requires OwnPortsValid(stored)
    ensures ServiceMeets(Some(ServiceFor(t, role, i, stored, freshPort)), t, role, i)
    ensures t.spec.nodePort >= 0 ==> BootstrapMeets(Some(BootstrapFor(t, stored, freshPort)), t)
  {
    hide NodeLabels, GetAutoMQLabelMap;
    if stored.Some? && stored.value.Service? {
      NamedPortValid(stored.value.ports, role.Name());
      NamedPortValid(stored.value.ports, Broker.Name());
    }
  }

  lemma NodeIsDesired(t: Target, role: Role, i: int, kind: Kind)
    requires 0 <= i < t.Replicas(role) && kind in NODE_KINDS
    ensures var key := NodeKey(kind, t.ns, role, i);
            Desired(t, key) && WritingStage(t, key) == (if role == Controller then 3 else 5)
            && ParseName(key.name) == Some((role, i))
  {
    hide IndexedName, ParseName, BootstrapName;
  }

  lemma CleanNodeMeets(s: Objects, st: AutoMQStatus, t: Target, e: Env, role: Role, i: int)
    requires e.Clean() && e.AllocatesPorts() && PortsValid(s) && 0 <= i < t.Replicas(role)
    ensures NodeMeets(Pass(s, st, t, e).0, t, role, i)
  {
    hide Pass, ClaimFor, DeploymentFor, ServiceFor, PodTemplate, NodeLabels, RoleLabels, IndexedName, ParseName,
         ServiceMeets;
    var claim, svc, dep := NodeKey(ClaimKind, t.ns, role, i), NodeKey(ServiceKind, t.ns, role, i),
        NodeKey(DeploymentKind, t.ns, role, i);
    assert ClaimMeets(Lookup(Pass(s, st, t, e).0, claim), t, role, i) by {
      NodeIsDesired(t, role, i, ClaimKind);
      CleanPassAt(s, st, t, e, claim);
      ClaimForMeets(t, role, i, Lookup(s, claim));
    }
    NodeIsDesired(t, role, i, ServiceKind);
    CleanPassAt(s, st, t, e, svc);
    ServiceForMeets(t, role, i, Lookup(s, svc), e.allocate(svc));
    NodeIsDesired(t, role, i, DeploymentKind);
    CleanPassAt(s, st, t, e, dep);
    DeploymentForMeets(t, role, i, Lookup(s, dep), Lookup(Pass(s, st, t, e).0, svc));
  }

  lemma ClaimForMeets(t: Target, role: Role, i: int, stored: Option<Obj>)
    ensures ClaimMeets(Some(ClaimFor(t, role, i, stored)), t, role, i)
  {
    hide NodeLabels;
  }

  lemma DeploymentForMeets(t: Target, role: Role, i: int, stored: Option<Obj>, svc: Option<Obj>)
    requires ServiceMeets(svc, t, role, i)
    ensures DeploymentMeets(Some(DeploymentFor(t, role, i, stored, svc.value.ports[0].nodePort)), svc, t, role, i)
    ensures role == Controller ==> svc.value.ports[0].nodePort == 0
  {
    hide NodeLabels, RoleLabels, PodTemplate;
  }

  /** One clean pass reaches the goal from any cluster, whatever the status records. */
  lemma CleanPassReachesGoal(s: Objects, st: AutoMQStatus, t: Target, e: Env)
    requires e.Clean() && e.AllocatesPorts() && PortsValid(s) && t.spec.nodePort >= 0
    ensures GoalReached(Pass(s, st, t, e).0, t)
  {
    hide Pass, NodeMeets, BootstrapMeets, BootstrapFor, IndexedName, ParseName, IsNode;
    forall role, i | 0 <= i < t.Replicas(role) ensures NodeMeets(Pass(s, st, t, e).0, t, role, i) {
      CleanNodeMeets(s, st, t, e, role, i);
    }
    var key := BootstrapKey(t.ns);
    CleanPassAt(s, st, t, e, key);
    ServiceForMeets(t, Broker, 0, Lookup(s, key), e.allocate(key));
    CleanPassAt(s, st, t, e, t.ConfigMapKey());
  }

  /******* Refreshing twice *******/

  lemma NodePortForTwice(requested: int, name: string, target: string, port: int, labels: Labels, selector: Labels,
                         stored: Option<Obj>, p: int, q: int) returns (r: int)
    ensures var once := NodePortFor(requested, name, stored, p);
            var svc := Service(labels, selector, [ServicePort(name, port, target, once)], NodePort);
            && NodePortFor(requested, name, Some(svc), q) == NodePortFor(requested, name, stored, r)
            && (once != 0 ==> NodePortFor(requested, name, Some(svc), q) == once)
  {
    var once := NodePortFor(requested, name, stored, p);
    var svc := Service(labels, selector, [ServicePort(name, port, target, once)], NodePort);
    assert NodePortNamed(svc.ports, name) == once;
    r := if once != 0 then p else q;
  }

  /** Refreshing a refreshed object is refreshing the original one, for some port; a Service keeps its port. */
  lemma RefreshedTwice(t: Target, key: Key, stored: Option<Obj>, p: int, q: int) returns (r: int)
    requires Desired(t, key)
    ensures Refreshed(t, key, Some(Refreshed(t, key, stored, p)), q) == Refreshed(t, key, stored, r)
    ensures key.kind == DeploymentKind ==> r == q
    ensures p > 0 && t.spec.nodePort >= 0 && key.kind != DeploymentKind
              && OwnPortsValid(stored)
            ==> Refreshed(t, key, Some(Refreshed(t, key, stored, p)), q) == Refreshed(t, key, stored, p)
  {
    hide WritingStage, NodeLabels, RoleLabels, PodTemplate, ParseName, NodePortFor;
    var stage := WritingStage(t, key);
    WritingStageKinds(t, key);
    r := q;
    if stage == 6 {
      var wanted := RoleLabels(t.name, Broker);
      r := NodePortForTwice(t.spec.nodePort, Broker.Name(), Broker.Name(), BROKER_PORT, wanted, SelectorFor(wanted,
          stored), stored, p, q);
      PositiveOnce(t.spec.nodePort, Broker.Name(), stored, p);
    } else if stage != 1 && key.kind == ServiceKind {
      var (role, i) := ParseName(key.name).value;
      var wanted := NodeLabels(t.name, role, i);
      r := NodePortForTwice(0, role.Name(), role.Name(), PortOf(role), wanted, SelectorFor(wanted, stored), stored,
          p, q);
      PositiveOnce(0, role.Name(), stored, p);
    }
  }

  lemma PositiveOnce(requested: int, name: string, stored: Option<Obj>, p: int)
    ensures requested >= 0 && p > 0 && OwnPortsValid(stored) ==> NodePortFor(requested, name, stored, p) > 0
  {
    if OwnPortsValid(stored) && stored.Some? && stored.value.Service? {
      NamedPortValid(stored.value.ports, name);
    }
  }

  lemma WritingStageKinds(t: Target, key: Key)
    requires Desired(t, key)
    ensures WritingStage(t, key) == 1 <==> key == t.ConfigMapKey()
    ensures WritingStage(t, key) == 1 ==> key.kind == ConfigMapKind
    ensures WritingStage(t, key) == 6 ==> key.kind == ServiceKind
    ensures WritingStage(t, key) in {1, 3, 5, 6}
    ensures WritingStage(t, key) in {3, 5} ==> key.kind in NODE_KINDS && ParseName(key.name).Some?
  {
    hide ParseName, IndexedName, BootstrapName;
  }

  /******* Rescaling: the same target with another broker count and another script *******/

  function Rescaled(t: Target, brokers: int32, generation: nat, script: string): Target {
    t.(generation := generation, spec := t.spec.(broker := t.spec.broker.(replicas := brokers)), script := script)
  }

  /** The pod template of a node depends on no broker count and on no script text. */
  lemma TemplateIgnoresCountAndScript(t: Target, brokers: int32, generation: nat, script: string, role: Role, i: int,
      port: int)
    ensures PodTemplate(Rescaled(t, brokers, generation, script), role, i, port) == PodTemplate(t, role, i, port)
  {
    hide NodeLabels, RoleLabels, PrintInt, Join, Voters, IndexedName;
  }

  lemma SurvivorsDesired(t: Target, brokers: int32, generation: nat, script: string, key: Key)
    requires Desired(t, key) && Desired(Rescaled(t, brokers, generation, script), key)
    ensures WritingStage(Rescaled(t, brokers, generation, script), key) == WritingStage(t, key)
  {
    hide ParseName, IndexedName, BootstrapName;
  }

  lemma RefreshedIgnoresCountAndScript(t: Target, brokers: int32, generation: nat, script: string, key: Key,
      stored: Option<Obj>, port: int)
    requires Desired(t, key) && Desired(Rescaled(t, brokers, generation, script), key) && key != t.ConfigMapKey()
    ensures Refreshed(Rescaled(t, brokers, generation, script), key, stored, port) == Refreshed(t, key, stored, port)
  {
    hide WritingStage, NodeLabels, RoleLabels, PodTemplate, ParseName, NodePortFor, SelectorFor;
    var t' := Rescaled(t, brokers, generation, script);
    SurvivorsDesired(t, brokers, generation, script, key);
    WritingStageKinds(t, key);
    if WritingStage(t, key) in {3, 5} {
      var (role, i) := ParseName(key.name).value;
      TemplateIgnoresCountAndScript(t, brokers, generation, script, role, i, port);
    }
  }

  /******* The second pass *******/

  /** An object desired before and after a change of the broker count and of the script, once established, is left
      exactly as it is by the next clean pass, whatever status that pass starts from; only the ConfigMap follows the
      script. So a new `up.sh` restarts no node. */
  lemma SurvivorIgnoresCountAndScript(s: Objects, st: AutoMQStatus, st': AutoMQStatus, t: Target, brokers: int32,
      generation: nat, script: string, e: Env, e': Env, key: Key)
    requires e.Clean() && e'.Clean() && e.AllocatesPorts() && PortsValid(s) && t.spec.nodePort >= 0
    requires Desired(t, key) && Desired(Rescaled(t, brokers, generation, script), key)
    ensures var s1 := Pass(s, st, t, e).0;
            Lookup(Pass(s1, st', Rescaled(t, brokers, generation, script), e').0, key) ==
            if key == t.ConfigMapKey() then Some(ConfigMap(map["up.sh" := script])) else Lookup(s1, key)
    decreases key.kind == DeploymentKind
  {
    hide Pass, Refreshed, WritingStage, ParseName, IndexedName, PortUsed, Rescaled;
    var t' := Rescaled(t, brokers, generation, script);
    if key == t.ConfigMapKey() {
      ScriptFollows(Pass(s, st, t, e).0, st', t, brokers, generation, script, e');
      return;
    }
    var s1 := Pass(s, st, t, e).0;
    var s2 := Pass(s1, st', t', e').0;
    CleanPassAt(s, st, t, e, key);
    CleanPassAt(s1, st', t', e', key);
    var p, p' := PortUsed(s1, t, key, e), PortUsed(s2, t', key, e');
    RefreshedIgnoresCountAndScript(t, brokers, generation, script, key, Lookup(s1, key), p');
    var _ := RefreshedTwice(t, key, Lookup(s, key), p, p');
    if key.kind != DeploymentKind {
      PortUsedPositive(s1, t, key, e);
    } else {
      var svc := PortKey(t, key);
      PortKeyIsDesired(t, key);
      PortKeyIsDesired(t', key);
      PortKeyKind(t, key);
      SamePortKey(t, brokers, generation, script, key);
      SurvivorIgnoresCountAndScript(s, st, st', t, brokers, generation, script, e, e', svc);
      PortUsedDependsOn(s1, s2, t, key, e);
      SamePortAnyEnv(s2, t, brokers, generation, script, key, e, e');
    }
  }

  lemma ScriptFollows(s: Objects, st: AutoMQStatus, t: Target, brokers: int32, generation: nat, script: string, e: Env)
    requires e.Clean()
    ensures Lookup(Pass(s, st, Rescaled(t, brokers, generation, script), e).0, t.ConfigMapKey()) ==
            Some(ConfigMap(map["up.sh" := script]))
  {
    hide Pass, ParseName, IndexedName, PortUsed;
    CleanPassAt(s, st, Rescaled(t, brokers, generation, script), e, t.ConfigMapKey());
  }

  lemma SamePortKey(t: Target, brokers: int32, generation: nat, script: string, key: Key)
    requires Desired(t, key) && Desired(Rescaled(t, brokers, generation, script), key)
    ensures PortKey(Rescaled(t, brokers, generation, script), key) == PortKey(t, key)
  {
    hide WritingStage, ParseName, IndexedName;
  }

  lemma SecondPassObject(s: Objects, st: AutoMQStatus, t: Target, e: Env, e': Env, key: Key)
    requires e.Clean() && e'.Clean() && e.AllocatesPorts() && PortsValid(s) && t.spec.nodePort >= 0
    ensures var (s1, st1) := Pass(s, st, t, e);
            Lookup(Pass(s1, st1, t, e').0, key) == Lookup(s1, key)
  {
    hide Pass, WritingStage;
    var (s1, st1) := Pass(s, st, t, e);
    if Desired(t, key) {
      assert Rescaled(t, t.spec.broker.replicas, t.generation, t.script) == t;
      SurvivorIgnoresCountAndScript(s, st, st1, t, t.spec.broker.replicas, t.generation, t.script, e, e', key);
      if key == t.ConfigMapKey() {
        ScriptFollows(s, st, t, t.spec.broker.replicas, t.generation, t.script, e);
      }
    } else {
      CleanPassAt(s1, st1, t, e', key);
      NothingLeftToErase(t, st1, key);
    }
  }

  lemma SamePortAnyEnv(s: Objects, t: Target, brokers: int32, generation: nat, script: string, key: Key, e: Env,
      e': Env)
    requires Desired(t, key) && Desired(Rescaled(t, brokers, generation, script), key) && key.kind == DeploymentKind
    ensures PortUsed(s, t, key, e) == PortUsed(s, Rescaled(t, brokers, generation, script), key, e')
  {
    hide WritingStage, ParseName, IndexedName;
  }

  lemma PortKeyKind(t: Target, key: Key)
    requires Desired(t, key)
    ensures PortKey(t, key).kind != DeploymentKind
  {
    hide WritingStage, ParseName, IndexedName;
  }

  lemma PortUsedPositive(s: Objects, t: Target, key: Key, e: Env)
    requires Desired(t, key) && key.kind != DeploymentKind && e.AllocatesPorts()
    ensures PortUsed(s, t, key, e) > 0
  {
    hide WritingStage, ParseName, IndexedName;
  }

  lemma NothingLeftToErase(t: Target, st: AutoMQStatus, key: Key)
    requires st.controllerReplicas == t.spec.controller.replicas && st.brokerReplicas == t.spec.broker.replicas
    ensures ErasingStage(t, st, key) == NEVER
  {
    hide ParseName, IndexedName;
  }

  lemma SecondPassStatus(s: Objects, st: AutoMQStatus, t: Target, e: Env)
    requires e.Clean()
    requires forall k :: 0 <= k < |STAGES| ==> Reports(st.conditions, k, true, t.generation)
    requires st.controllerReplicas == t.spec.controller.replicas && st.brokerReplicas == t.spec.broker.replicas
    requires st.controllerAddresses == Voters(t.ns, t.spec.controller.replicas)
    requires st.bootstrapInternalAddress == BootstrapAddress(t.ns)
    ensures Pass(s, st, t, e).1 == st
  {
    hide Reports, BootstrapAddress, Voters, Stages;
    var p := Pipe(s, st.(controllerAddresses := Voters(t.ns, t.spec.controller.replicas)), true);
    CleanStagesSettled(|STAGES|, p, t, e);
    StagesKeepCounts(|STAGES|, p, t, e);
    CleanAddress(p, t, e);
  }

  /** A clean pass publishes the bootstrap address. */
  lemma CleanAddress(p: Pipe, t: Target, e: Env)
    requires e.Clean() && p.running
    ensures Stages(|STAGES|, p, t, e).status.bootstrapInternalAddress == BootstrapAddress(t.ns)
  {
    hide Stage, Stages, BootstrapAddress, Contains;
    StagesKeepRunning(|STAGES| - 1, p, t, e);
    LastStage(p, t, e);
    BootstrapStageAddress(Stages(|STAGES| - 1, p, t, e), t, e);
  }

  lemma LastStage(p: Pipe, t: Target, e: Env)
    ensures var q := Stages(|STAGES| - 1, p, t, e);
            Stages(|STAGES|, p, t, e) == if q.running then Stage(|STAGES| - 1, q, t, e) else q
  {
    hide Stage;
  }

  lemma BootstrapStageAddress(p: Pipe, t: Target, e: Env)
    requires e.Clean()
    ensures Stage(|STAGES| - 1, p, t, e).status.bootstrapInternalAddress == BootstrapAddress(t.ns)
  {
    hide BootstrapAddress, BootstrapFor, SetCondition, Contains;
  }

  /** After one clean pass a second changes neither the cluster nor the status, whatever ports the allocator
      would hand out now. */
  lemma SecondPassIsNoop(s: Objects, st: AutoMQStatus, t: Target, e: Env, e': Env)
    requires e.Clean() && e'.Clean() && e.AllocatesPorts() && PortsValid(s) && t.spec.nodePort >= 0
    ensures var (s1, st1) := Pass(s, st, t, e);
            Pass(s1, st1, t, e') == (s1, st1)
  {
    hide Pass, Stages, Reports, BootstrapAddress, Contains;
    var (s1, st1) := Pass(s, st, t, e);
    var s2 := Pass(s1, st1, t, e').0;
    forall key ensures Lookup(s2, key) == Lookup(s1, key) {
      SecondPassObject(s, st, t, e, e', key);
    }
    SameLookups(s1, s2);
    PassStatus(s, st, t, e);
    forall k | 0 <= k < |STAGES| ensures Reports(st1.conditions, k, true, t.generation) {
      CleanConditions(s, st, t, e, k);
    }
    SecondPassStatus(s1, st1, t, e');
  }

  lemma PassStatus(s: Objects, st: AutoMQStatus, t: Target, e: Env)
    ensures var st1 := Pass(s, st, t, e).1;
            st1.controllerAddresses == Voters(t.ns, t.spec.controller.replicas)
            && st1.phase == st.phase && st1.readyPods == st.readyPods
            && (e.Clean() ==> st1.bootstrapInternalAddress == BootstrapAddress(t.ns))
  {
    hide Stages, BootstrapAddress, Voters, Contains;
    var p := Pipe(s, st.(controllerAddresses := Voters(t.ns, t.spec.controller.replicas)), true);
    StagesKeepCounts(|STAGES|, p, t, e);
    if e.Clean() {
      CleanAddress(p, t, e);
    }
  }

  lemma SameLookups(s: Objects, s': Objects)
    requires forall key :: Lookup(s', key) == Lookup(s, key)
    ensures s' == s
  {
    forall key ensures key in s' <==> key in s {
      assert Lookup(s', key) == Lookup(s, key);
    }
    assert s'.Keys == s.Keys;
    forall key | key in s ensures s'[key] == s[key] {
      assert Lookup(s', key) == Lookup(s, key);
    }
  }

  /******* Fault absorption *******/

  predicate SameEnvUpToPort(env: seq<EnvVar>, env': seq<EnvVar>) {
    |env| == |env'|
    && forall k :: 0 <= k < |env| ==> env[k] == env'[k] || env[k].name == env'[k].name == PORT_NAME
  }

  /** Equality of stored objects, allocated node ports aside. */
  predicate EqualUpToPorts(o: Obj, o': Obj) {
    match (o, o')
    case (Service(labels, selector, ports, svcType), Service(labels', selector', ports', svcType')) =>
      labels == labels' && selector == selector' && svcType == svcType' && |ports| == |ports'|
      && forall k :: 0 <= k < |ports| ==> ports[k].(nodePort := 0) == ports'[k].(nodePort := 0)
    case (Deployment(labels, selector, tpl), Deployment(labels', selector', tpl')) =>
      labels == labels' && selector == selector' && tpl.(env := []) == tpl'.(env := [])
          && SameEnvUpToPort(tpl.env, tpl'.env)
    case _ => o == o'
  }

  lemma EnvUpToPort(t: Target, role: Role, p: int, q: int)
    ensures SameEnvUpToPort(TemplateEnv(t, role, p), TemplateEnv(t, role, q))
  {
    hide PrintInt, JvmOptions;
    var env, env' := TemplateEnv(t, role, p), TemplateEnv(t, role, q);
    forall k | 0 <= k < |env| && env[k] != env'[k] ensures env[k].name == env'[k].name == PORT_NAME {
    }
  }

  lemma RefreshedUpToPorts(t: Target, key: Key, stored: Option<Obj>, p: int, q: int)
    requires Desired(t, key)
    ensures EqualUpToPorts(Refreshed(t, key, stored, p), Refreshed(t, key, stored, q))
  {
    hide WritingStage, NodeLabels, RoleLabels, ParseName, NodePortFor, TemplateEnv, TemplateAnnotations,
         CommandTokens, Join, IndexedName, SelectorFor, SameEnvUpToPort;
    WritingStageKinds(t, key);
    if WritingStage(t, key) in {3, 5} {
      EnvUpToPort(t, ParseName(key.name).value.0, p, q);
    }
  }

  /** A series of passes over one cluster, each started from whatever status it read. */
  function PassSeries(s: Objects, t: Target, runs: seq<(AutoMQStatus, Env)>): Objects {
    if runs == [] then s
    else
      var last := runs[|runs| - 1];
      Pass(PassSeries(s, t, runs[..|runs| - 1]), last.0, t, last.1).0
  }

  /** However its passes fail, a series leaves each desired object as it was or refreshed once. */
  lemma {:induction false} SeriesAt(s: Objects, t: Target, runs: seq<(AutoMQStatus, Env)>, key: Key) returns (port: int)
    requires Desired(t, key)
    ensures var after := Lookup(PassSeries(s, t, runs), key);
            after == Lookup(s, key) || after == Some(Refreshed(t, key, Lookup(s, key), port))
  {
    hide Pass, Refreshed, WritingStage;
    port := 0;
    if runs != [] {
      var last := runs[|runs| - 1];
      var before := PassSeries(s, t, runs[..|runs| - 1]);
      port := SeriesAt(s, t, runs[..|runs| - 1], key);
      var port' := PassAt(before, last.0, t, last.1, key);
      WriteAndEraseDisjoint(t, last.0, key);
      if Lookup(before, key) == Lookup(s, key) {
        port := port';
      } else if Lookup(Pass(before, last.0, t, last.1).0, key) != Lookup(before, key) {
        port := RefreshedTwice(t, key, Lookup(s, key), port, port');
      }
    }
  }

  /** Fault absorption: any series of failing passes and then a clean one leaves every desired object equal, node
      ports aside, to what the clean pass alone would have left. */
  lemma FaultsAreAbsorbed(s: Objects, t: Target, runs: seq<(AutoMQStatus, Env)>, st: AutoMQStatus, st': AutoMQStatus,
                          e: Env, e': Env, key: Key)
    requires e.Clean() && e'.Clean() && Desired(t, key)
    ensures var after := Lookup(Pass(PassSeries(s, t, runs), st, t, e).0, key);
            var alone := Lookup(Pass(s, st', t, e').0, key);
            after.Some? && alone.Some? && EqualUpToPorts(after.value, alone.value)
  {
    hide Pass, PassSeries, Refreshed, WritingStage, EqualUpToPorts, PortUsed;
    var s1 := PassSeries(s, t, runs);
    var port := SeriesAt(s, t, runs, key);
    CleanPassAt(s1, st, t, e, key);
    CleanPassAt(s, st', t, e', key);
    var p, q := PortUsed(Pass(s1, st, t, e).0, t, key, e), PortUsed(Pass(s, st', t, e').0, t, key, e');
    var r := p;
    if Lookup(s1, key) != Lookup(s, key) {
      r := RefreshedTwice(t, key, Lookup(s, key), port, p);
    }
    RefreshedUpToPorts(t, key, Lookup(s, key), r, q);
  }
}
