/** What a whole pass does to each single object: one clean pass reaches the goal, a second one changes
    nothing, and faults before a clean pass leave no trace. */
module Passes {
  import opened Basics
  import opened AutoMQApi
  import opened Naming
  import opened Store
  import opened Templates
  import opened Pipeline
  import opened Effects

  const NEVER := 7

  /** The stage that creates or updates `key`, if any does. */
  function WritingStage(t: Target, key: Key): nat {
    if key == t.ConfigMapKey() then 1
    else if key == BootstrapKey(t.ns) then 6
    else if key.kind !in NODE_KINDS then NEVER
    else if IsNode(key, t.ns, Controller, 0, t.Replicas(Controller)) then 3
    else if IsNode(key, t.ns, Broker, 0, t.Replicas(Broker)) then 5
    else NEVER
  }

  /** The objects a pass is meant to establish. */
  predicate Desired(t: Target, key: Key) {
    WritingStage(t, key) < NEVER
  }

  /** `key` lies in the range a scale-down deletes for `role`. */
  predicate ScaledDown(t: Target, st: AutoMQStatus, role: Role, key: Key) {
    IsNode(key, t.ns, role, t.Replicas(role), RecordedReplicas(st, role)) && key.kind in ScaledKinds(role)
  }

  /** The stage that deletes `key`, if any does. */
  function ErasingStage(t: Target, st: AutoMQStatus, key: Key): nat {
    if ScaledDown(t, st, Controller, key) then 2
    else if ScaledDown(t, st, Broker, key) then 4
    else NEVER
  }

  /** What a pass writes at a desired key, given the stored object and a port. */
  function Refreshed(t: Target, key: Key, stored: Option<Obj>, port: int): Obj
    requires Desired(t, key)
  {
    match WritingStage(t, key)
    case 1 => ScriptFor(t)
    case 6 => BootstrapFor(t, stored, port)
    case _ => Wanted(t, ParseName(key.name).value.0, ParseName(key.name).value.1, key.kind, stored, port)
  }

  /** The port a pass that ended in `s` has put in the object at `key`. */
  function PortUsed(s: Objects, t: Target, key: Key, e: Env): int
    requires Desired(t, key)
  {
    if key.kind == DeploymentKind then ServicePortIn(s, t.ns, ParseName(key.name).value.0, ParseName(key.name).value.1)
    else e.allocate(key)
  }

  lemma WriteAndEraseDisjoint(t: Target, st: AutoMQStatus, key: Key)
    ensures Desired(t, key) ==> ErasingStage(t, st, key) == NEVER
  {
    hide IndexedName, ParseName;
  }

  predicate SameCounts(st: AutoMQStatus, st': AutoMQStatus) {
    st'.controllerReplicas == st.controllerReplicas && st'.brokerReplicas == st.brokerReplicas
    && st'.controllerAddresses == st.controllerAddresses && st'.phase == st.phase && st'.readyPods == st.readyPods
  }

  lemma StageKeepsCounts(k: nat, p: Pipe, t: Target, e: Env)
    requires k < |STAGES|
    ensures SameCounts(p.status, Stage(k, p, t, e).status)
  {
    hide Put, EraseRange, SyncRange, ScriptFor, BootstrapFor, BootstrapAddress, SetCondition;
    match k
    case 0 =>
    case 1 =>
    case 2 =>
    case 3 =>
    case 4 =>
    case 5 =>
    case _ =>
  }

  /** Stages leave the recorded counts, the voters, the phase and the pod count alone. */
  lemma {:induction false} StagesKeepCounts(n: nat, p: Pipe, t: Target, e: Env)
    requires n <= |STAGES|
    ensures SameCounts(p.status, Stages(n, p, t, e).status)
  {
    hide Stage;
    if n > 0 {
      StagesKeepCounts(n - 1, p, t, e);
      StageKeepsCounts(n - 1, Stages(n - 1, p, t, e), t, e);
    }
  }

  lemma {:induction false} StagesKeepRunning(n: nat, p: Pipe, t: Target, e: Env)
    requires n <= |STAGES| && p.running
    ensures e.ReachesScaling(t.ConfigMapKey()) ==> Stages(n, p, t, e).running
  {
    hide EraseRange, SyncRange, ScriptFor, BootstrapFor, BootstrapName, IndexedName, ParseName, Contains,
         SetCondition;
    if n > 0 {
      StagesKeepRunning(n - 1, p, t, e);
    }
  }

  /** A stage rewrites only its own objects: it leaves each as it was or refreshes it, for some port. */
  lemma WriteStageAt(k: nat, p: Pipe, t: Target, e: Env, key: Key) returns (port: int)
    requires k < |STAGES| && k in {0, 1, 3, 5, 6}
    ensures var after := Lookup(Stage(k, p, t, e).objects, key);
            after == Lookup(p.objects, key)
            || (WritingStage(t, key) == k && after == Some(Refreshed(t, key, Lookup(p.objects, key), port)))
  {
    hide SyncRange, ScriptFor, BootstrapFor, Wanted, IndexedName, ParseName, SetCondition;
    port := e.allocate(key);
    match k
    case 0 =>
    case 1 =>
    case 6 =>
    case _ =>
      var role := if k == 3 then Controller else Broker;
      if IsNode(key, t.ns, role, 0, t.Replicas(role)) && key.kind in NODE_KINDS {
        var i := ParseName(key.name).value.1;
        assert key == NodeKey(key.kind, t.ns, role, i);
        port := SyncRangeAt(p.objects, t, role, t.Replicas(role), e, i, key.kind);
      } else {
        SyncRangeFrame(p.objects, t, role, t.Replicas(role), e, key);
      }
  }

  lemma EraseStageAt(k: nat, p: Pipe, t: Target, e: Env, key: Key)
    requires k == 2 || k == 4
    ensures Lookup(Stage(k, p, t, e).objects, key) ==
            if ScaledDown(t, p.status, if k == 2 then Controller else Broker, key) && Erasable(key, e) then None
            else Lookup(p.objects, key)
  {
    hide IndexedName, ParseName, SetCondition, EraseRange;
    var role := if k == 2 then Controller else Broker;
    EraseRangeAt(p.objects, t.ns, role, t.Replicas(role), RecordedReplicas(p.status, role), ScaledKinds(role), e, key);
  }

  /** The effect of the first `n` stages on one object, whatever goes wrong. */
  lemma {:induction false} StagesAt(n: nat, p: Pipe, t: Target, e: Env, key: Key) returns (port: int)
    requires n <= |STAGES|
    ensures var before, after := Lookup(p.objects, key), Lookup(Stages(n, p, t, e).objects, key);
            || after == before
            || (Desired(t, key) && WritingStage(t, key) < n && after == Some(Refreshed(t, key, before, port)))
            || (ErasingStage(t, p.status, key) < n && Erasable(key, e) && after == None)
  {
    hide Stage, Refreshed, Lookup, IsNode, ParseName, ScaledKinds;
    port := 0;
    if n > 0 {
      var q := Stages(n - 1, p, t, e);
      port := StagesAt(n - 1, p, t, e, key);
      StagesKeepCounts(n - 1, p, t, e);
      WriteAndEraseDisjoint(t, p.status, key);
      if n - 1 == 2 || n - 1 == 4 {
        EraseStageAt(n - 1, q, t, e, key);
      } else {
        var port' := WriteStageAt(n - 1, q, t, e, key);
        if Lookup(q.objects, key) == Lookup(p.objects, key) {
          port := port';
        }
      }
    }
  }

  /******* Clean passes *******/

  lemma CleanWriteStageAt(k: nat, p: Pipe, t: Target, e: Env, key: Key)
    requires e.Clean() && WritingStage(t, key) == k < NEVER
    ensures var s := Stage(k, p, t, e).objects;
            Lookup(s, key) == Some(Refreshed(t, key, Lookup(p.objects, key), PortUsed(s, t, key, e)))
  {
    hide SyncRange, ScriptFor, BootstrapFor, ClaimFor, ServiceFor, DeploymentFor, IndexedName, ParseName,
         SetCondition;
    match k
    case 1 =>
    case 6 =>
    case _ =>
      var role := if k == 3 then Controller else Broker;
      var i := ParseName(key.name).value.1;
      assert key == NodeKey(key.kind, t.ns, role, i);
      SyncRangeClean(p.objects, t, role, t.Replicas(role), e);
      SyncedPrefix(p.objects, t, role, t.Replicas(role), e, i, key.kind);
  }

  /** The Service a desired key's port is read from. */
  function PortKey(t: Target, key: Key): Key
    requires Desired(t, key)
  {
    if key.kind != DeploymentKind then key
    else NodeKey(ServiceKind, t.ns, ParseName(key.name).value.0, ParseName(key.name).value.1)
  }

  lemma PortKeyIsDesired(t: Target, key: Key)
    requires Desired(t, key)
    ensures Desired(t, PortKey(t, key)) && WritingStage(t, PortKey(t, key)) == WritingStage(t, key)
  {
    hide IndexedName, ParseName;
  }

  lemma PortUsedDependsOn(s: Objects, s': Objects, t: Target, key: Key, e: Env)
    requires Desired(t, key) && Lookup(s, PortKey(t, key)) == Lookup(s', PortKey(t, key))
    ensures PortUsed(s, t, key, e) == PortUsed(s', t, key, e)
  {
    hide IndexedName, ParseName, IsNode;
  }

  /** A later or earlier stage does not touch `key`. */
  lemma OtherStageAt(k: nat, p: Pipe, t: Target, e: Env, key: Key)
    requires k < |STAGES| && Desired(t, key) && WritingStage(t, key) != k
    ensures Lookup(Stage(k, p, t, e).objects, key) == Lookup(p.objects, key)
  {
    hide Stage, IsNode, ParseName, Refreshed;
    WriteAndEraseDisjoint(t, p.status, key);
    if k == 2 || k == 4 {
      EraseStageAt(k, p, t, e, key);
    } else {
      var _ := WriteStageAt(k, p, t, e, key);
    }
  }

  /** The effect of the first `n` stages of a clean pass on one object. */
  lemma {:induction false} CleanStagesAt(n: nat, p: Pipe, t: Target, e: Env, key: Key)
    requires n <= |STAGES| && p.running && e.Clean()
    ensures var s := Stages(n, p, t, e).objects;
            Lookup(s, key) ==
            if WritingStage(t, key) < n then Some(Refreshed(t, key, Lookup(p.objects, key), PortUsed(s, t, key, e)))
            else if ErasingStage(t, p.status, key) < n then None
            else Lookup(p.objects, key)
  {
    hide Stage, IsNode, ParseName, Refreshed, PortUsed, ScaledKinds, Lookup;
    if n > 0 {
      var q := Stages(n - 1, p, t, e);
      CleanStagesAt(n - 1, p, t, e, key);
      StagesKeepRunning(n - 1, p, t, e);
      StagesKeepCounts(n - 1, p, t, e);
      WriteAndEraseDisjoint(t, p.status, key);
      if Desired(t, key) {
        if WritingStage(t, key) == n - 1 {
          CleanWriteStageAt(n - 1, q, t, e, key);
        } else {
          OtherStageAt(n - 1, q, t, e, key);
          PortKeyIsDesired(t, key);
          OtherStageAt(n - 1, q, t, e, PortKey(t, key));
          PortUsedDependsOn(q.objects, Stage(n - 1, q, t, e).objects, t, key, e);
        }
      } else if n - 1 == 2 || n - 1 == 4 {
        EraseStageAt(n - 1, q, t, e, key);
      } else {
        var _ := WriteStageAt(n - 1, q, t, e, key);
      }
    }
  }

  /** One clean pass, from any cluster and any recorded status, refreshes every desired object, deletes the
      objects of scaled-down nodes, and leaves every other object alone. */
  lemma CleanPassAt(s: Objects, st: AutoMQStatus, t: Target, e: Env, key: Key)
    requires e.Clean()
    ensures var s' := Pass(s, st, t, e).0;
            Lookup(s', key) ==
            if Desired(t, key) then Some(Refreshed(t, key, Lookup(s, key), PortUsed(s', t, key, e)))
            else if ErasingStage(t, st, key) < NEVER then None
            else Lookup(s, key)
  {
    hide Stages, Refreshed, PortUsed, Lookup;
    CleanStagesAt(|STAGES|, Pipe(s, st.(controllerAddresses := Voters(t.ns, t.spec.controller.replicas)), true), t,
        e, key);
    hide WritingStage, ErasingStage;
  }

  /** The effect of any pass on one object: kept, refreshed, or deleted by a scale-down. */
  lemma PassAt(s: Objects, st: AutoMQStatus, t: Target, e: Env, key: Key) returns (port: int)
    ensures var before, after := Lookup(s, key), Lookup(Pass(s, st, t, e).0, key);
            || after == before
            || (Desired(t, key) && after == Some(Refreshed(t, key, before, port)))
            || (ErasingStage(t, st, key) < NEVER && Erasable(key, e) && after == None)
  {
    hide Stages, Refreshed, Lookup;
    port := StagesAt(|STAGES|, Pipe(s, st.(controllerAddresses := Voters(t.ns, t.spec.controller.replicas)), true),
        t, e, key);
    hide WritingStage, ErasingStage;
  }

  /** Once the scale stages are reached and deletes work, the objects of scaled-down nodes are gone. */
  lemma {:induction false} StagesErase(n: nat, p: Pipe, t: Target, e: Env, key: Key)
    requires n <= |STAGES| && p.running && e.ReachesScaling(t.ConfigMapKey()) && Erasable(key, e)
    requires ErasingStage(t, p.status, key) < n
    ensures Lookup(Stages(n, p, t, e).objects, key) == None
  {
    hide Stage, Refreshed, Lookup, IsNode, ParseName, ScaledKinds, Contains;
    var q := Stages(n - 1, p, t, e);
    StagesKeepRunning(n - 1, p, t, e);
    StagesKeepCounts(n - 1, p, t, e);
    WriteAndEraseDisjoint(t, p.status, key);
    if ErasingStage(t, p.status, key) < n - 1 {
      StagesErase(n - 1, p, t, e, key);
    }
    if n - 1 == 2 || n - 1 == 4 {
      EraseStageAt(n - 1, q, t, e, key);
    } else {
      var _ := WriteStageAt(n - 1, q, t, e, key);
    }
  }

  lemma PassErases(s: Objects, st: AutoMQStatus, t: Target, e: Env, key: Key)
    requires e.ReachesScaling(t.ConfigMapKey()) && Erasable(key, e) && ErasingStage(t, st, key) < NEVER
    ensures Lookup(Pass(s, st, t, e).0, key) == None
  {
    hide Stages, Lookup, Contains, IsNode;
    StagesErase(|STAGES|, Pipe(s, st.(controllerAddresses := Voters(t.ns, t.spec.controller.replicas)), true), t, e,
        key);
  }
}
