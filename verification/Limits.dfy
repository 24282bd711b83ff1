/** Where the operator falls short of leaving no orphans, and exactly when it does: for each assumption of the run
    theorems a family of runs in which an object outlives its resource iff the assumption fails. */
module Limits {
  import opened Basics
  import opened AutoMQApi
  import opened Naming
  import opened Store
  import opened Templates
  import opened Pipeline
  import opened Effects
  import opened Passes
  import opened Isolation
  import opened StatusTicker
  import opened Lifecycle
  import opened Convergence
  import opened Runs
  import Reconciler

  /******* Reconciles and removals, node by node *******/

  /** A world with neither resource nor objects. */
  const NOTHING := World(None, map[], None, false, map[], 0, {}, {})

  /** An undisturbed reconcile of a live resource, whose status write may fail. */
  function Reconciled(w: World, c: Scope, e: Env, last: Env): World {
    Step(Step(Step(w, ReconcileStart(e), c), ReconcileWork(e), c), ReconcileEnd(last), c)
  }

  /** A resource is created and reconciled once. */
  function Born(raw: AutoMQSpec, c: Scope, e: Env, last: Env): World {
    Reconciled(Step(NOTHING, CreateRequest(raw), c), c, e, last)
  }

  /** The resource is deleted and reconciled once more. */
  function Buried(w: World, c: Scope, e: Env): World {
    Step(Step(w, DeleteRequest, c), ReconcileStart(e), c)
  }

  predicate Idle(w: World) {
    w.flight == None && !w.worked && w.resource.Some? && !w.resource.value.deleting
  }

  /** The calls whose failure keeps a deleted resource for another try. */
  predicate Finalizes(e: Env, c: Scope) {
    e.Outcome(GetResource) == None && e.Outcome(Remove(Key(ConfigMapKind, c.ns, c.name))) == None
    && e.Outcome(UpdateResource) != Some(Refused)
  }

  predicate Refuses(e: Env, key: Key) {
    e.Outcome(Remove(key)) == Some(Refused)
  }

  lemma CleanCalls(e: Env, c: Scope, key: Key)
    requires e.Clean()
    ensures e.Outcome(GetResource) == None && e.Outcome(UpdateResource) == None && e.Outcome(WriteStatus) == None
    ensures Finalizes(e, c) && !Refuses(e, key)
  {
    hide Contains;
  }

  lemma ReconciledIs(w: World, c: Scope, e: Env, last: Env)
    requires Idle(w) && e.Outcome(GetResource) == None && e.Outcome(UpdateResource) == None
    ensures var r := w.resource.value.(finalizer := true);
            var t := TargetOf(r, c.ns, c.name, c.cfg);
            var (s, st) := Pass(w.objects, r.status, t, e);
            var w' := Reconciled(w, c, e, last);
            Idle(w') && w'.objects == s && w'.tickers == w.tickers
            && w'.resource == Some(if last.Outcome(WriteStatus) == Some(Refused) then r else r.(status := st))
  {
    hide Pass, Cleanup;
  }

  lemma BuriedIs(w: World, c: Scope, e: Env)
    requires Idle(w) && w.resource.value.finalizer
    ensures Buried(w, c, e).resource == None <==> Finalizes(e, c)
    ensures Finalizes(e, c) ==>
              Buried(w, c, e).objects == Cleanup(w.objects, w.resource.value.status, c.ns, c.name, e).0
  {
    hide Pass, EraseRange;
  }

  lemma CreatedIs(c: Scope, raw: AutoMQSpec)
    requires AdmitCreate(raw).Some?
    ensures var w := Step(NOTHING, CreateRequest(raw), c);
            && Idle(w) && w.objects == map[] && w.tickers == map[]
            && w.resource == Some(Resource(AdmitCreate(raw).value, EMPTY_STATUS, 1, false, false))
  {
    hide AdmitCreate;
  }

  function Updated(stored: AutoMQSpec, raw: AutoMQSpec): AutoMQSpec {
    match AdmitUpdate(raw, stored)
    case Some(spec) => spec
    case None => stored
  }

  lemma UpdatedIs(w: World, c: Scope, raw: AutoMQSpec)
    requires Idle(w)
    ensures var w' := Step(w, UpdateRequest(raw), c);
            && Idle(w') && w'.objects == w.objects && w'.tickers == w.tickers
            && w'.resource.value.spec == Updated(w.resource.value.spec, raw)
            && w'.resource.value.status == w.resource.value.status
            && w'.resource.value.finalizer == w.resource.value.finalizer
  {
    hide AdmitUpdate;
  }

  /** What a clean pass leaves of a node: the nodes asked for, and those it did not scale away. */
  lemma CleanPassNode(s: Objects, st: AutoMQStatus, t: Target, e: Env, kind: Kind, role: Role, i: nat)
    requires e.Clean() && kind in NODE_KINDS
    ensures var key := NodeKey(kind, t.ns, role, i);
            key in Pass(s, st, t, e).0 <==>
            i < t.Replicas(role) || (key in s && (i >= RecordedReplicas(st, role) || kind !in ScaledKinds(role)))
  {
    hide Pass, Refreshed, IndexedName, ParseName, BootstrapName, Contains;
    CleanPassAt(s, st, t, e, NodeKey(kind, t.ns, role, i));
    if i < t.Replicas(role) {
      NodeIsDesired(t, role, i, kind);
    }
  }

  /** What a cleanup leaves of a node. */
  lemma CleanupNode(s: Objects, st: AutoMQStatus, c: Scope, e: Env, kind: Kind, role: Role, i: nat)
    requires kind in NODE_KINDS
    ensures var key := NodeKey(kind, c.ns, role, i);
            key in Cleanup(s, st, c.ns, c.name, e).0 <==>
            key in s && (i >= RecordedReplicas(st, role) || Refuses(e, key))
  {
    hide Cleanup, IndexedName, ParseName, BootstrapName;
    CleanupAt(s, st, c.ns, c.name, e, NodeKey(kind, c.ns, role, i));
  }

  /** After its first reconcile a resource has the objects of its nodes, recorded if the status write took effect. */
  lemma BornIs(raw: AutoMQSpec, c: Scope, e: Env, last: Env, kind: Kind, role: Role, i: nat)
    requires AdmitCreate(raw).Some? && e.Clean() && kind in NODE_KINDS
    ensures var w, spec := Born(raw, c, e, last), AdmitCreate(raw).value;
            && Idle(w) && w.tickers == map[] && w.resource.value.finalizer && w.resource.value.spec == spec
            && (NodeKey(kind, c.ns, role, i) in w.objects <==> i < ReplicasIn(spec, role))
            && RecordedReplicas(w.resource.value.status, role) ==
               if last.Outcome(WriteStatus) == Some(Refused) then 0 else ReplicasIn(spec, role)
  {
    hide Step, Pass, Cleanup, NodeKey, Reconciled, AdmitCreate, Contains;
    CleanCalls(e, c, NodeKey(kind, c.ns, role, i));
    CreatedIs(c, raw);
    var w := Step(NOTHING, CreateRequest(raw), c);
    ReconciledIs(w, c, e, last);
    CleanPassNode(w.objects, EMPTY_STATUS, TargetOf(w.resource.value.(finalizer := true), c.ns, c.name, c.cfg), e, kind,
                  role, i);
  }

  /******* Broker Deployments *******/

  /** Scaling brokers down deletes StatefulSets where Deployments exist. In any world, a broker's Deployment goes away
      in exactly one way: the cleanup of a deleted resource whose status records a count above the broker's index. */
  lemma BrokerDeploymentsGoByCleanup(w: World, ev: Event, c: Scope, i: nat)
    requires w.flight.Some? ==> w.flight.value.t.ns == c.ns
    ensures var key := NodeKey(DeploymentKind, c.ns, Broker, i);
            key in w.objects ==>
              (key !in Step(w, ev, c).objects <==>
               ev.ReconcileStart? && w.flight == None && w.resource.Some? && w.resource.value.deleting
               && ev.e.Outcome(GetResource) == None && i < w.resource.value.status.brokerReplicas
               && !Refuses(ev.e, key))
  {
    hide Pass, Cleanup, NodeKey, AdmitCreate, AdmitUpdate, Tick, WriteBack;
    if ev.ReconcileStart? && w.resource.Some? {
      CleanupNode(w.objects, w.resource.value.status, c, ev.e, DeploymentKind, Broker, i);
    }
    if ev.ReconcileWork? && w.flight.Some? {
      PassKeepsDeployment(w.objects, w.flight.value.status, w.flight.value.t, ev.e, i);
    }
  }

  /** A pass, whatever fails, takes no broker Deployment away, and leaves those above the count as they are. */
  lemma PassKeepsDeployment(s: Objects, st: AutoMQStatus, t: Target, e: Env, i: nat)
    ensures var key := NodeKey(DeploymentKind, t.ns, Broker, i);
            && (key in s ==> key in Pass(s, st, t, e).0)
            && (i >= t.Replicas(Broker) ==> Lookup(Pass(s, st, t, e).0, key) == Lookup(s, key))
  {
    hide Pass, IndexedName, ParseName, BootstrapName, Refreshed;
    var _ := PassAt(s, st, t, e, NodeKey(DeploymentKind, t.ns, Broker, i));
  }

  /** A series of update requests, each followed by a reconcile. */
  function Rescalings(w: World, raws: seq<AutoMQSpec>, envs: seq<Env>, c: Scope): World
    requires |envs| == |raws|
    decreases |raws|
  {
    if raws == [] then w
    else Rescalings(Reconciled(Step(w, UpdateRequest(raws[0]), c), c, envs[0], envs[0]), raws[1..], envs[1..], c)
  }

  /** The highest broker count a series of update requests passes through. */
  function Peak(stored: AutoMQSpec, raws: seq<AutoMQSpec>): int
    decreases |raws|
  {
    if raws == [] then stored.broker.replicas
    else Max(stored.broker.replicas, Peak(Updated(stored, raws[0]), raws[1..]))
  }

  function Max(a: int, b: int): int {
    if a > b then a else b
  }

  /** Reconciled, with the Deployments of exactly the brokers below `n`. */
  ghost predicate Settled(w: World, c: Scope, n: int) {
    Idle(w) && w.resource.value.finalizer
    && w.resource.value.status.brokerReplicas == w.resource.value.spec.broker.replicas
    && forall i: nat :: NodeKey(DeploymentKind, c.ns, Broker, i) in w.objects <==> i < n
  }

  lemma RescaledIs(w: World, c: Scope, raw: AutoMQSpec, e: Env, n: int)
    requires Settled(w, c, n) && e.Clean()
    ensures var w', spec := Reconciled(Step(w, UpdateRequest(raw), c), c, e, e), Updated(w.resource.value.spec, raw);
            Settled(w', c, Max(n, spec.broker.replicas)) && w'.resource.value.spec == spec
  {
    hide Step, Pass, Cleanup, NodeKey, Reconciled, Updated, Contains;
    CleanCalls(e, c, Key(ConfigMapKind, c.ns, c.name));
    UpdatedIs(w, c, raw);
    var w1 := Step(w, UpdateRequest(raw), c);
    ReconciledIs(w1, c, e, e);
    var t := TargetOf(w1.resource.value.(finalizer := true), c.ns, c.name, c.cfg);
    forall i: nat
      ensures NodeKey(DeploymentKind, c.ns, Broker, i) in Reconciled(w1, c, e, e).objects <==>
              i < Max(n, t.Replicas(Broker))
    {
      CleanPassNode(w1.objects, w1.resource.value.status, t, e, DeploymentKind, Broker, i);
    }
  }

  lemma {:induction false} RescalingsAre(w: World, c: Scope, raws: seq<AutoMQSpec>, envs: seq<Env>, n: int)
    requires Settled(w, c, n) && n >= w.resource.value.spec.broker.replicas
    requires |envs| == |raws| && forall k :: 0 <= k < |envs| ==> envs[k].Clean()
    ensures var w', stored := Rescalings(w, raws, envs, c), w.resource.value.spec;
            Settled(w', c, Max(n, Peak(stored, raws))) && w'.resource.value.spec == AfterUpdates(stored, raws)
    decreases |raws|
  {
    hide Settled, Reconciled, AdmitUpdate;
    SettledIdle(w, c, n);
    if raws != [] {
      var w' := Reconciled(Step(w, UpdateRequest(raws[0]), c), c, envs[0], envs[0]);
      var n' := Max(n, Updated(w.resource.value.spec, raws[0]).broker.replicas);
      RescaledIs(w, c, raws[0], envs[0], n);
      SettledIdle(w', c, n');
      RescalingsAre(w', c, raws[1..], envs[1..], n');
    }
  }

  lemma SettledIdle(w: World, c: Scope, n: int)
    requires Settled(w, c, n)
    ensures Idle(w)
  {
  }

  /** Orphaned broker Deployments, exactly: create a resource, reconcile it through any series of update requests,
      delete it, with no fault anywhere. The resource goes, and the Deployments left are those of the brokers
      between the last broker count and the highest one. */
  lemma RescalingOrphansDeployments(raw: AutoMQSpec, raws: seq<AutoMQSpec>, c: Scope, e: Env, envs: seq<Env>, e': Env,
      i: nat)
    requires AdmitCreate(raw).Some? && e.Clean() && e'.Clean()
    requires |envs| == |raws| && forall k :: 0 <= k < |envs| ==> envs[k].Clean()
    ensures var first := AdmitCreate(raw).value;
            var w := Buried(Rescalings(Born(raw, c, e, e), raws, envs, c), c, e');
            w.resource == None
            && (NodeKey(DeploymentKind, c.ns, Broker, i) in w.objects <==>
                AfterUpdates(first, raws).broker.replicas <= i < Peak(first, raws))
  {
    hide Pass, Cleanup, NodeKey, Reconciled, AdmitCreate, AfterUpdates, Peak, Contains, Born, Buried, Rescalings, Step;
    var first, w := AdmitCreate(raw).value, Born(raw, c, e, e);
    CleanCalls(e, c, NodeKey(DeploymentKind, c.ns, Broker, i));
    CleanCalls(e', c, NodeKey(DeploymentKind, c.ns, Broker, i));
    forall j: nat ensures NodeKey(DeploymentKind, c.ns, Broker, j) in w.objects <==> j < first.broker.replicas {
      BornIs(raw, c, e, e, DeploymentKind, Broker, j);
    }
    BornIs(raw, c, e, e, DeploymentKind, Broker, i);
    RescalingsAre(w, c, raws, envs, first.broker.replicas);
    PeakIsHighest(first, raws);
    var w' := Rescalings(w, raws, envs, c);
    BuriedIs(w', c, e');
    CleanupNode(w'.objects, w'.resource.value.status, c, e', DeploymentKind, Broker, i);
  }

  lemma {:induction false} PeakIsHighest(stored: AutoMQSpec, raws: seq<AutoMQSpec>)
    ensures Peak(stored, raws) >= stored.broker.replicas
    ensures Peak(stored, raws) >= AfterUpdates(stored, raws).broker.replicas
    decreases |raws|
  {
    hide AdmitUpdate;
    if raws != [] {
      PeakIsHighest(Updated(stored, raws[0]), raws[1..]);
    }
  }

  /** So removal leaves no broker Deployment exactly when the last broker count is the highest there has been. */
  lemma NoDeploymentLeftIffNeverLowered(raw: AutoMQSpec, raws: seq<AutoMQSpec>, c: Scope, e: Env, envs: seq<Env>,
      e': Env)
    requires AdmitCreate(raw).Some? && e.Clean() && e'.Clean()
    requires |envs| == |raws| && forall k :: 0 <= k < |envs| ==> envs[k].Clean()
    ensures var first := AdmitCreate(raw).value;
            var w := Buried(Rescalings(Born(raw, c, e, e), raws, envs, c), c, e');
            (forall i: nat :: NodeKey(DeploymentKind, c.ns, Broker, i) !in w.objects) <==>
            AfterUpdates(first, raws).broker.replicas == Peak(first, raws)
  {
    hide NodeKey, AdmitCreate, AfterUpdates, Peak, Contains, Born, Buried, Rescalings;
    var first := AdmitCreate(raw).value;
    var w := Buried(Rescalings(Born(raw, c, e, e), raws, envs, c), c, e');
    forall i: nat
      ensures NodeKey(DeploymentKind, c.ns, Broker, i) in w.objects <==>
              AfterUpdates(first, raws).broker.replicas <= i < Peak(first, raws)
    {
      RescalingOrphansDeployments(raw, raws, c, e, envs, e', i);
    }
    PeakIsHighest(first, raws);
    CountsStayPositive(first, raws);
    var last := AfterUpdates(first, raws).broker.replicas;
    assert last < Peak(first, raws) ==> NodeKey(DeploymentKind, c.ns, Broker, last) in w.objects;
  }

  lemma CountsStayPositive(stored: AutoMQSpec, raws: seq<AutoMQSpec>)
    requires Validate(stored) == Admitted && SchemaOk(stored)
    ensures AfterUpdates(stored, raws).broker.replicas >= 1
  {
    hide Validate, AfterUpdates;
    UpdatesKeepIdentity(stored, raws);
  }

  /******* Each run assumption is needed *******/

  /** A lost status write: create, reconcile, delete. The resource goes, and the objects of its nodes stay exactly
      when the status write of the reconcile was refused. */
  lemma LostStatusWriteOrphans(raw: AutoMQSpec, c: Scope, e: Env, last: Env, e': Env, kind: Kind, role: Role, i: nat)
    requires AdmitCreate(raw).Some? && e.Clean() && e'.Clean() && kind in NODE_KINDS
    requires i < ReplicasIn(AdmitCreate(raw).value, role)
    ensures var w := Buried(Born(raw, c, e, last), c, e');
            w.resource == None
            && (NodeKey(kind, c.ns, role, i) in w.objects <==> last.Outcome(WriteStatus) == Some(Refused))
  {
    hide Pass, Cleanup, NodeKey, AdmitCreate, Contains, Born, Buried, Step;
    CleanCalls(e', c, NodeKey(kind, c.ns, role, i));
    var w := Born(raw, c, e, last);
    BornIs(raw, c, e, last, kind, role, i);
    BuriedIs(w, c, e');
    CleanupNode(w.objects, w.resource.value.status, c, e', kind, role, i);
  }

  /** A refused delete: create, reconcile, delete, whatever fails in the cleanup. Its errors are dropped, all but the
      ConfigMap's, so when the resource goes, an object stays exactly when its own delete was refused. */
  lemma RefusedDeleteOrphans(raw: AutoMQSpec, c: Scope, e: Env, e': Env, kind: Kind, role: Role, i: nat)
    requires AdmitCreate(raw).Some? && e.Clean() && kind in NODE_KINDS
    requires i < ReplicasIn(AdmitCreate(raw).value, role)
    ensures var w := Buried(Born(raw, c, e, e), c, e');
            && (w.resource == None <==> Finalizes(e', c))
            && (w.resource == None ==>
                  (NodeKey(kind, c.ns, role, i) in w.objects <==> Refuses(e', NodeKey(kind, c.ns, role, i))))
  {
    hide Pass, Cleanup, NodeKey, AdmitCreate, Contains, Born, Buried, Step;
    CleanCalls(e, c, NodeKey(kind, c.ns, role, i));
    var w := Born(raw, c, e, e);
    BornIs(raw, c, e, e, kind, role, i);
    BuriedIs(w, c, e');
    CleanupNode(w.objects, w.resource.value.status, c, e', kind, role, i);
  }

  /** A scale-down cut short: create, reconcile, lower the broker count, reconcile again, whatever fails on the way.
      The lower count is recorded, and the Services and claims of the surplus brokers stay, above the recorded
      count, exactly when the bucket or the ConfigMap stage failed. */
  lemma CutShortScaleDownOrphans(raw: AutoMQSpec, raw': AutoMQSpec, c: Scope, e: Env, cut: Env, last: Env, kind: Kind,
      i: nat)
    requires AdmitCreate(raw).Some? && e.Clean() && kind in {ServiceKind, ClaimKind}
    requires var first := AdmitCreate(raw).value;
             Updated(first, raw').broker.replicas <= i < first.broker.replicas
    requires cut.Outcome(GetResource) == None && cut.Outcome(UpdateResource) == None
    requires last.Outcome(WriteStatus) != Some(Refused) && !Refuses(cut, NodeKey(kind, c.ns, Broker, i))
    ensures var w := Reconciled(Step(Born(raw, c, e, e), UpdateRequest(raw'), c), c, cut, last);
            && w.flight == None && w.resource.Some?
            && w.resource.value.status.brokerReplicas == Updated(AdmitCreate(raw).value, raw').broker.replicas
            && (NodeKey(kind, c.ns, Broker, i) in w.objects <==>
                !cut.ReachesScaling(Key(ConfigMapKind, c.ns, c.name)))
  {
    hide Pass, NodeKey, Reconciled, AdmitCreate, Updated, Contains, Born, Step;
    CleanCalls(e, c, NodeKey(kind, c.ns, Broker, i));
    BornIs(raw, c, e, e, kind, Broker, i);
    var w := Born(raw, c, e, e);
    UpdatedIs(w, c, raw');
    var w1 := Step(w, UpdateRequest(raw'), c);
    ReconciledIs(w1, c, cut, last);
    CutShortPass(w1.objects, w1.resource.value.status, TargetOf(w1.resource.value.(finalizer := true), c.ns, c.name,
        c.cfg), cut, kind, i);
  }

  lemma CutShortPass(s: Objects, st: AutoMQStatus, t: Target, e: Env, kind: Kind, i: nat)
    requires kind in {ServiceKind, ClaimKind} && t.Replicas(Broker) <= i < st.brokerReplicas
    requires var key := NodeKey(kind, t.ns, Broker, i);
             key in s && !Refuses(e, key)
    ensures NodeKey(kind, t.ns, Broker, i) in Pass(s, st, t, e).0 <==> !e.ReachesScaling(t.ConfigMapKey())
  {
    hide Pass, IndexedName, ParseName, Contains, BootstrapName;
    var key := NodeKey(kind, t.ns, Broker, i);
    if e.ReachesScaling(t.ConfigMapKey()) {
      PassErases(s, st, t, e, key);
    } else {
      CutShortKeeps(s, st, t, e, key);
    }
  }

  /** A pass that does not reach the scale stages leaves every object but the ConfigMap alone, yet reports the new
      counts. */
  lemma CutShortKeeps(s: Objects, st: AutoMQStatus, t: Target, e: Env, key: Key)
    requires !e.ReachesScaling(t.ConfigMapKey()) && key != t.ConfigMapKey()
    ensures Lookup(Pass(s, st, t, e).0, key) == Lookup(s, key)
  {
    hide Stages, Contains, Voters, Lookup;
    var p := Pipe(s, st.(controllerAddresses := Voters(t.ns, t.spec.controller.replicas)), true);
    FirstStagesStop(p, t, e, key);
    Reconciler.StoppedPipeline(p, t, e, 2, |STAGES|);
  }

  lemma FirstStagesStop(p: Pipe, t: Target, e: Env, key: Key)
    requires !e.ReachesScaling(t.ConfigMapKey()) && p.running && key != t.ConfigMapKey()
    ensures !Stages(2, p, t, e).running && Lookup(Stages(2, p, t, e).objects, key) == Lookup(p.objects, key)
  {
    hide Contains, SetCondition, ScriptFor;
    assert Stages(0, p, t, e) == p;
    assert Stages(1, p, t, e) == Stage(0, p, t, e);
  }

  /** A ticker split by a scale-up: it reads the status, a reconcile raises the broker count, and it writes its copy
      back, or fails to. After the deletion the objects of the new brokers stay exactly when the stale copy was
      written. */
  lemma SplitTickOrphans(raw: AutoMQSpec, raw': AutoMQSpec, c: Scope, e: Env, id: nat, pods: seq<Pod>, e': Env,
      kind: Kind, i: nat)
    requires AdmitCreate(raw).Some? && e.Clean() && kind in NODE_KINDS
    requires var first := AdmitCreate(raw).value;
             first.broker.replicas <= i < Updated(first, raw').broker.replicas
    ensures var w := Step(Born(raw, c, e, e), TickRead(id, pods, e), c);
            var w' := Step(Reconciled(Step(w, UpdateRequest(raw'), c), c, e, e), TickWrite(id, e'), c);
            var w'' := Buried(w', c, e);
            w''.resource == None
            && (NodeKey(kind, c.ns, Broker, i) in w''.objects <==> e'.Outcome(WriteStatus) != Some(Refused))
  {
    hide Step, Pass, Cleanup, NodeKey, Reconciled, Born, Buried, AdmitCreate, Updated, Contains;
    CleanCalls(e, c, NodeKey(kind, c.ns, Broker, i));
    BornIs(raw, c, e, e, kind, Broker, i);
    var w2 := Born(raw, c, e, e);
    TickReadIs(w2, c, id, pods, e);
    var w := Step(w2, TickRead(id, pods, e), c);
    UpdatedIs(w, c, raw');
    var w3 := Step(w, UpdateRequest(raw'), c);
    ReconciledIs(w3, c, e, e);
    CleanPassNode(w3.objects, w3.resource.value.status, TargetOf(w3.resource.value.(finalizer := true), c.ns, c.name,
        c.cfg), e, kind, Broker, i);
    TickWriteIs(Reconciled(w3, c, e, e), c, id, e');
    var w' := Step(Reconciled(w3, c, e, e), TickWrite(id, e'), c);
    BuriedIs(w', c, e);
    CleanupNode(w'.objects, w'.resource.value.status, c, e, kind, Broker, i);
  }

  lemma TickReadIs(w: World, c: Scope, id: nat, pods: seq<Pod>, e: Env)
    requires Idle(w) && e.Clean()
    ensures var w' := Step(w, TickRead(id, pods, e), c);
            && id in w'.tickers && w'.tickers[id].status.brokerReplicas == w.resource.value.status.brokerReplicas
            && w' == w.(tickers := w'.tickers)
  {
    hide Observed, Counted, Contains, RoleLabels, AllTrue;
    ObservedKeepsCounts(w.resource.value, |Counted(pods, c.ns, RoleLabels(c.name, Controller))|,
                        |Counted(pods, c.ns, RoleLabels(c.name, Broker))|);
  }

  lemma ObservedKeepsCounts(r: Resource, c: int, b: int)
    ensures Observed(r, c, b).brokerReplicas == r.status.brokerReplicas
  {
    hide Wrap32;
  }

  lemma TickWriteIs(w: World, c: Scope, id: nat, e: Env)
    requires Idle(w) && id in w.tickers
    ensures var w' := Step(w, TickWrite(id, e), c);
            && Idle(w') && w'.objects == w.objects
            && w'.resource == Some(if e.Outcome(WriteStatus) == Some(Refused) then w.resource.value
                                   else w.resource.value.(status := w.tickers[id].status))
  {
  }

  /** The first reconcile of a resource, given up by a restart of the operator after `n` of its three steps. */
  function Halted(w: World, c: Scope, e: Env, n: nat): World {
    var w1 := if n >= 1 then Step(w, ReconcileStart(e), c) else w;
    var w2 := if n >= 2 then Step(w1, ReconcileWork(e), c) else w1;
    Step(if n >= 3 then Step(w2, ReconcileEnd(e), c) else w2, Restart, c)
  }

  /** A restart in the middle of a reconcile: create, start to reconcile, restart, delete. The resource goes, and the
      objects of its nodes stay exactly when the restart came between the reconcile's work and its status write. */
  lemma RestartOrphans(raw: AutoMQSpec, c: Scope, e: Env, n: nat, e': Env, kind: Kind, role: Role, i: nat)
    requires AdmitCreate(raw).Some? && e.Clean() && e'.Clean() && kind in NODE_KINDS
    requires i < ReplicasIn(AdmitCreate(raw).value, role)
    ensures var w := Buried(Halted(Step(NOTHING, CreateRequest(raw), c), c, e, n), c, e');
            w.resource == None && (NodeKey(kind, c.ns, role, i) in w.objects <==> n == 2)
  {
    hide Step, Pass, Cleanup, NodeKey, AdmitCreate, Contains, Buried, Halted;
    CleanCalls(e', c, NodeKey(kind, c.ns, role, i));
    CreatedIs(c, raw);
    var w := Step(NOTHING, CreateRequest(raw), c);
    HaltedIs(w, c, e, n);
    var w' := Halted(w, c, e, n);
    var t := TargetOf(w.resource.value.(finalizer := true), c.ns, c.name, c.cfg);
    CleanPassNode(map[], EMPTY_STATUS, t, e, kind, role, i);
    if n == 0 {
      BuriedAtOnce(w', c, e');
    } else {
      BuriedIs(w', c, e');
      CleanupNode(w'.objects, w'.resource.value.status, c, e', kind, role, i);
    }
  }

  lemma HaltedIs(w: World, c: Scope, e: Env, n: nat)
    requires Idle(w) && !w.resource.value.finalizer && e.Clean()
    ensures var r := w.resource.value.(finalizer := true);
            var (s, st) := Pass(w.objects, r.status, TargetOf(r, c.ns, c.name, c.cfg), e);
            var w' := Halted(w, c, e, n);
            Idle(w') && w'.objects == (if n < 2 then w.objects else s)
            && w'.resource == Some(if n == 0 then w.resource.value else if n < 3 then r else r.(status := st))
  {
    hide Pass, Cleanup, Contains;
  }

  lemma BuriedAtOnce(w: World, c: Scope, e: Env)
    requires Idle(w) && !w.resource.value.finalizer
    ensures Buried(w, c, e).resource == None && Buried(w, c, e).objects == w.objects
  {
    hide Pass, Cleanup;
  }
}
