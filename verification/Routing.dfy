/** Which pods the created Services reach, and node ids over the life of a resource. */
module Routing {
  import opened Basics
  import opened AutoMQApi
  import opened Naming
  import opened Store
  import opened Templates
  import opened Pipeline
  import opened Effects
  import opened Passes
  import opened Convergence
  import opened Isolation
  import opened Runs

  lemma FreshSelectors(t: Target, role: Role, i: int, port: int)
    ensures var svc := ServiceFor(t, role, i, None, port);
            svc.Service? && svc.selector == NodeLabels(t.name, role, i)
    ensures var dep := DeploymentFor(t, role, i, None, port);
            dep.Deployment? && dep.selector == dep.template.labels == NodeLabels(t.name, role, i)
    ensures var bootstrap := BootstrapFor(t, None, port);
            bootstrap.Service? && bootstrap.selector == RoleLabels(t.name, Broker)
  {
    hide NodeLabels, RoleLabels, TemplateEnv, TemplateAnnotations, CommandTokens;
  }

  lemma FreshService(s: Objects, st: AutoMQStatus, t: Target, e: Env, role: Role, i: int)
    requires e.Clean() && 0 <= i < t.Replicas(role) && NodeKey(ServiceKind, t.ns, role, i) !in s
    ensures var svc := Lookup(Pass(s, st, t, e).0, NodeKey(ServiceKind, t.ns, role, i));
            svc.Some? && svc.value.Service? && svc.value.selector == NodeLabels(t.name, role, i)
  {
    hide Pass, ServiceFor, DeploymentFor, NodeLabels, IndexedName, ParseName, WritingStage;
    var key := NodeKey(ServiceKind, t.ns, role, i);
    NodeIsDesired(t, role, i, ServiceKind);
    CleanPassAt(s, st, t, e, key);
    FreshSelectors(t, role, i, e.allocate(key));
  }

  lemma FreshDeployment(s: Objects, st: AutoMQStatus, t: Target, e: Env, role: Role, i: int)
    requires e.Clean() && 0 <= i < t.Replicas(role) && NodeKey(DeploymentKind, t.ns, role, i) !in s
    ensures var dep := Lookup(Pass(s, st, t, e).0, NodeKey(DeploymentKind, t.ns, role, i));
            dep.Some? && dep.value.Deployment? && dep.value.selector == dep.value.template.labels ==
                NodeLabels(t.name, role, i)
  {
    hide Pass, ServiceFor, DeploymentFor, NodeLabels, IndexedName, ParseName, WritingStage, ServicePortIn;
    var key := NodeKey(DeploymentKind, t.ns, role, i);
    NodeIsDesired(t, role, i, DeploymentKind);
    CleanPassAt(s, st, t, e, key);
    FreshSelectors(t, role, i, PortUsed(Pass(s, st, t, e).0, t, key, e));
  }

  lemma FreshBootstrap(s: Objects, st: AutoMQStatus, t: Target, e: Env)
    requires e.Clean() && BootstrapKey(t.ns) !in s
    ensures var svc := Lookup(Pass(s, st, t, e).0, BootstrapKey(t.ns));
            svc.Some? && svc.value.Service? && svc.value.selector == RoleLabels(t.name, Broker)
  {
    hide Pass, BootstrapFor, RoleLabels, BootstrapName;
    CleanPassAt(s, st, t, e, BootstrapKey(t.ns));
    FreshSelectors(t, Broker, 0, e.allocate(BootstrapKey(t.ns)));
  }

  /** Exact routing of what a clean pass creates: a node's Service reaches the pods of that node's Deployment and of
      no other; the bootstrap Service reaches every broker and no controller; a Deployment selects its own pods. */
  lemma FreshObjectsRouteExactly(s: Objects, st: AutoMQStatus, t: Target, e: Env, role: Role, i: int, role': Role,
      j: int)
    requires e.Clean() && 0 <= i < t.Replicas(role) && 0 <= j < t.Replicas(role')
    requires NodeKey(ServiceKind, t.ns, role, i) !in s && NodeKey(DeploymentKind, t.ns, role', j) !in s
    requires BootstrapKey(t.ns) !in s
    ensures var s' := Pass(s, st, t, e).0;
            var svc, dep := Lookup(s', NodeKey(ServiceKind, t.ns, role, i)), Lookup(s', NodeKey(DeploymentKind, t.ns,
                role', j));
            var bootstrap := Lookup(s', BootstrapKey(t.ns));
            && svc.Some? && svc.value.Service? && dep.Some? && dep.value.Deployment? && bootstrap.Some?
                && bootstrap.value.Service?
            && (Selects(svc.value.selector, dep.value.template.labels) <==> (role, i) == (role', j))
            && (Selects(bootstrap.value.selector, dep.value.template.labels) <==> role' == Broker)
            && Selects(dep.value.selector, dep.value.template.labels)
  {
    hide Pass, NodeLabels, RoleLabels, NodeKey, BootstrapKey, Selects;
    FreshService(s, st, t, e, role, i);
    FreshDeployment(s, st, t, e, role', j);
    FreshBootstrap(s, st, t, e);
    RoutingIsExact(t.name, role, i, role', j);
    RoutingIsExact(t.name, Broker, i, role', j);
    RoutingIsExact(t.name, role', j, role', j);
  }

  /******* Routing over whole runs *******/

  /** The object stored for a node reaches that node: a Service's selector and a Deployment's are the node's labels,
      and so are the labels of the Deployment's pods. */
  predicate ReachesNode(kind: Kind, o: Obj, name: string, role: Role, i: int) {
    match kind
    case ServiceKind => o.Service? && o.selector == NodeLabels(name, role, i)
    case DeploymentKind => o.Deployment? && o.selector == o.template.labels == NodeLabels(name, role, i)
    case _ => true
  }

  predicate ReachesBrokers(o: Option<Obj>, name: string) {
    o.Some? ==> o.value.Service? && o.value.selector == RoleLabels(name, Broker)
  }

  ghost predicate AllReach(s: Objects, c: Scope) {
    && ReachesBrokers(Lookup(s, BootstrapKey(c.ns)), c.name)
    && forall key :: key in s && IsTracked(key, c.ns, true) ==>
        ReachesNode(key.kind, s[key], c.name, ParseName(key.name).value.0, ParseName(key.name).value.1)
  }

  /** Refreshing keeps the selector an object was created with, and creates it with the right one. */
  lemma RefreshedReaches(t: Target, key: Key, stored: Option<Obj>, port: int)
    requires Desired(t, key) && IsTracked(key, t.ns, true)
    requires var (role, i) := ParseName(key.name).value;
             stored.Some? ==> ReachesNode(key.kind, stored.value, t.name, role, i)
    ensures var (role, i) := ParseName(key.name).value;
            ReachesNode(key.kind, Refreshed(t, key, stored, port), t.name, role, i)
  {
    hide WritingStage, NodeLabels, RoleLabels, ParseName, IndexedName, TemplateEnv, TemplateAnnotations, CommandTokens,
         NodePortFor;
    WritingStageKinds(t, key);
    TrackedStage(t, key);
  }

  lemma TrackedStage(t: Target, key: Key)
    requires Desired(t, key) && IsTracked(key, t.ns, true)
    ensures WritingStage(t, key) in {3, 5}
  {
    hide ParseName, IndexedName, BootstrapName;
  }

  lemma RefreshedReachesBrokers(t: Target, stored: Option<Obj>, port: int)
    requires ReachesBrokers(stored, t.name)
    ensures Desired(t, BootstrapKey(t.ns))
    ensures ReachesBrokers(Some(Refreshed(t, BootstrapKey(t.ns), stored, port)), t.name)
  {
    hide RoleLabels, BootstrapName, NodePortFor;
  }

  lemma PassReaches(s: Objects, st: AutoMQStatus, t: Target, e: Env, c: Scope)
    requires AllReach(s, c) && t.ns == c.ns && t.name == c.name
    ensures AllReach(Pass(s, st, t, e).0, c)
  {
    hide Pass, Refreshed, ReachesNode, ReachesBrokers, BootstrapKey, Desired, ErasingStage, IndexedName, ParseName;
    var s' := Pass(s, st, t, e).0;
    forall key | key in s' && IsTracked(key, c.ns, true)
      ensures ReachesNode(key.kind, s'[key], c.name, ParseName(key.name).value.0, ParseName(key.name).value.1)
    {
      var port := PassAt(s, st, t, e, key);
      if Lookup(s', key) != Lookup(s, key) {
        RefreshedReaches(t, key, Lookup(s, key), port);
      }
    }
    var key := BootstrapKey(c.ns);
    var port := PassAt(s, st, t, e, key);
    RefreshedReachesBrokers(t, Lookup(s, key), port);
    NoneReaches(c.name);
  }

  lemma NoneReaches(name: string)
    ensures ReachesBrokers(None, name)
  {
  }

  lemma CleanupReaches(s: Objects, st: AutoMQStatus, e: Env, c: Scope)
    requires AllReach(s, c)
    ensures AllReach(Cleanup(s, st, c.ns, c.name, e).0, c)
  {
    hide Cleanup, ReachesNode, ReachesBrokers, BootstrapKey, IsTracked, ParseName, IsNode;
    var s' := Cleanup(s, st, c.ns, c.name, e).0;
    forall key ensures Lookup(s', key) == None || Lookup(s', key) == Lookup(s, key) {
      CleanupAt(s, st, c.ns, c.name, e, key);
    }
    assert forall key :: key in s' ==> Lookup(s', key) == Lookup(s, key);
    NoneReaches(c.name);
  }

  /** What a reconcile under way works on is the resource of the run. */
  predicate FlightIsOwn(w: World, c: Scope) {
    w.flight.Some? ==> w.flight.value.t.ns == c.ns && w.flight.value.t.name == c.name
  }

  lemma StepReaches(w: World, ev: Event, c: Scope)
    requires FlightIsOwn(w, c) && AllReach(w.objects, c)
    ensures FlightIsOwn(Step(w, ev, c), c) && AllReach(Step(w, ev, c).objects, c)
  {
    hide Pass, Cleanup, AllReach, AdmitCreate, AdmitUpdate;
    if ev.ReconcileStart? && w.resource.Some? {
      CleanupReaches(w.objects, w.resource.value.status, ev.e, c);
    }
    if ev.ReconcileWork? && w.flight.Some? && !w.worked {
      PassReaches(w.objects, w.flight.value.status, w.flight.value.t, ev.e, c);
    }
  }

  lemma {:induction false} RunReaches(w: World, events: seq<Event>, c: Scope)
    requires Initial(w, c, true)
    ensures var w' := Run(w, events, c);
            FlightIsOwn(w', c) && AllReach(w'.objects, c)
  {
    hide Step, AllReach, FlightIsOwn;
    if events == [] {
      NothingReaches(w, c);
    } else {
      RunReaches(w, events[..|events| - 1], c);
      StepReaches(Run(w, events[..|events| - 1], c), events[|events| - 1], c);
    }
  }

  lemma NothingReaches(w: World, c: Scope)
    requires Initial(w, c, true)
    ensures FlightIsOwn(w, c) && AllReach(w.objects, c)
  {
    hide IsTracked, BootstrapKey, ReachesNode;
    assert BootstrapKey(c.ns) !in w.objects;
  }

  /** Exact routing at every point of every run, faults, stale tickers, restarts and leftovers included: whatever
      Services and Deployments are stored, a node's Service reaches the pods of that node's Deployment and of no
      other, the bootstrap Service reaches the brokers' and no controller's, and a Deployment selects its own. */
  lemma RunsRouteExactly(w: World, events: seq<Event>, c: Scope, role: Role, i: nat, role': Role, j: nat)
    requires Initial(w, c, true)
    ensures var s := Run(w, events, c).objects;
            var svc, bootstrap := Lookup(s, NodeKey(ServiceKind, c.ns, role, i)), Lookup(s, BootstrapKey(c.ns));
            var dep := Lookup(s, NodeKey(DeploymentKind, c.ns, role', j));
            && (dep.Some? ==> dep.value.Deployment? && Selects(dep.value.selector, dep.value.template.labels))
            && (svc.Some? && dep.Some? ==>
                  svc.value.Service? && dep.value.Deployment?
                  && (Selects(svc.value.selector, dep.value.template.labels) <==> (role, i) == (role', j)))
            && (bootstrap.Some? && dep.Some? ==>
                  bootstrap.value.Service? && dep.value.Deployment?
                  && (Selects(bootstrap.value.selector, dep.value.template.labels) <==> role' == Broker))
  {
    RunReaches(w, events, c);
    hide Run, Initial, Selects, NodeLabels, RoleLabels, IndexedName, ParseName, BootstrapName;
    RoutingIsExact(c.name, role, i, role', j);
    RoutingIsExact(c.name, Broker, i, role', j);
    RoutingIsExact(c.name, role', j, role', j);
    TrackedKey(ServiceKind, c, role, i);
    TrackedKey(DeploymentKind, c, role', j);
  }

  lemma TrackedKey(kind: Kind, c: Scope, role: Role, i: nat)
    requires kind in NODE_KINDS
    ensures IsTracked(NodeKey(kind, c.ns, role, i), c.ns, true)
  {
    hide IndexedName, ParseName;
  }

  /******* Node ids *******/

  /** A node keeps its id through every admitted series of updates, and no two nodes ever share one: an id used at any
      time of a resource's life belongs at any later time to that node only, whether the node was there from the start
      or came with a scale-up. */
  lemma NodeIdsAreStable(raw: AutoMQSpec, raws: seq<AutoMQSpec>, later: seq<AutoMQSpec>, r: Role, i: nat, r': Role,
      j: nat)
    requires AdmitCreate(raw).Some?
    requires var before := AfterUpdates(AdmitCreate(raw).value, raws);
             i < ReplicasIn(before, r) && j < ReplicasIn(AfterUpdates(before, later), r')
    ensures var before := AfterUpdates(AdmitCreate(raw).value, raws);
            var after := AfterUpdates(before, later);
            NodeId(r, i, before.controller.replicas) == NodeId(r', j, after.controller.replicas) <==> (r, i) == (r', j)
  {
    hide AdmitCreate, AfterUpdates, Validate;
    AdmissionKeepsIdentity(raw, raws);
    var before := AfterUpdates(AdmitCreate(raw).value, raws);
    UpdatesKeepIdentity(before, later);
    var after := AfterUpdates(before, later);
    var b, b' := before.broker.replicas, after.broker.replicas;
    var most := if b > b' then b else b';
    NodeIdsAreDistinct(before.controller.replicas, most, r, i, r', j);
  }
}
