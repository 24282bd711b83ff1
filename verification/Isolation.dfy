/** Reconciles and cleanups of resources in different namespaces do not interfere. */
module Isolation {
  import opened Basics
  import opened AutoMQApi
  import opened Naming
  import opened Store
  import opened Templates
  import opened Pipeline
  import opened Effects
  import opened Passes
  import opened Convergence

  /** What the operator may do to the cluster on behalf of one resource. */
  datatype Action =
    | DoPass(st: AutoMQStatus, t: Target, e: Env)
    | DoCleanup(st: AutoMQStatus, ns: string, name: string, e: Env)
  {
    function Namespace(): string {
      if DoPass? then t.ns else ns
    }

    function Act(s: Objects): Objects {
      if DoPass? then Pass(s, st, t, e).0 else Cleanup(s, st, ns, name, e).0
    }

    /** The status a pass is about to write; a cleanup writes none. */
    function Reported(s: Objects): Option<AutoMQStatus> {
      if DoPass? then Some(Pass(s, st, t, e).1) else None
    }
  }

  ghost predicate AgreeOn(s: Objects, s': Objects, ns: string) {
    forall key: Key :: key.ns == ns ==> Lookup(s', key) == Lookup(s, key)
  }

  lemma CleanupAt(s: Objects, st: AutoMQStatus, ns: string, name: string, e: Env, key: Key)
    ensures Lookup(Cleanup(s, st, ns, name, e).0, key) ==
            if Erasable(key, e)
               && ((IsNode(key, ns, Broker, 0, st.brokerReplicas) && key.kind in CLEANED)
                   || (IsNode(key, ns, Controller, 0, st.controllerReplicas) && key.kind in CLEANED)
                   || key == BootstrapKey(ns) || key == Key(ConfigMapKind, ns, name))
            then None else Lookup(s, key)
  {
    hide IsNode, EraseRange, BootstrapName;
    EraseRangeAt(s, ns, Broker, 0, st.brokerReplicas, CLEANED, e, key);
    var s2 := Erase(EraseRange(s, ns, Broker, 0, st.brokerReplicas, CLEANED, e), BootstrapKey(ns), e);
    EraseRangeAt(s2, ns, Controller, 0, st.controllerReplicas, CLEANED, e, key);
  }

  /** An action leaves the objects of every other namespace alone. */
  lemma ActionFrame(a: Action, s: Objects, key: Key)
    requires key.ns != a.Namespace()
    ensures Lookup(a.Act(s), key) == Lookup(s, key)
  {
    hide Pass, Cleanup, IndexedName, ParseName, Refreshed;
    if a.DoPass? {
      var _ := PassAt(s, a.st, a.t, a.e, key);
    } else {
      CleanupAt(s, a.st, a.ns, a.name, a.e, key);
    }
  }

  /******* An action reads only its own namespace *******/

  lemma PutLocal(s: Objects, s': Objects, key: Key, obj: Obj, e: Env, ns: string)
    requires AgreeOn(s, s', ns)
    ensures AgreeOn(Put(s, key, obj, e).0, Put(s', key, obj, e).0, ns)
        && Put(s, key, obj, e).1 == Put(s', key, obj, e).1
  {
  }

  lemma ApplyClaimLocal(s: Objects, s': Objects, t: Target, role: Role, i: int, e: Env)
    requires AgreeOn(s, s', t.ns)
    ensures AgreeOn(ApplyClaim(s, t, role, i, e).0, ApplyClaim(s', t, role, i, e).0, t.ns)
    ensures ApplyClaim(s, t, role, i, e).1 == ApplyClaim(s', t, role, i, e).1
  {
    hide ClaimFor, IndexedName, ParseName, Put;
    var key := NodeKey(ClaimKind, t.ns, role, i);
    PutLocal(s, s', key, ClaimFor(t, role, i, Lookup(s, key)), e, t.ns);
  }

  lemma ApplyServiceLocal(s: Objects, s': Objects, t: Target, role: Role, i: int, e: Env)
    requires AgreeOn(s, s', t.ns)
    ensures AgreeOn(ApplyService(s, t, role, i, e).0, ApplyService(s', t, role, i, e).0, t.ns)
    ensures ApplyService(s, t, role, i, e).1 == ApplyService(s', t, role, i, e).1
  {
    hide ServiceFor, IndexedName, ParseName, Put;
    var key := NodeKey(ServiceKind, t.ns, role, i);
    PutLocal(s, s', key, ServiceFor(t, role, i, Lookup(s, key), e.allocate(key)), e, t.ns);
  }

  lemma ApplyDeploymentLocal(s: Objects, s': Objects, t: Target, role: Role, i: int, e: Env)
    requires AgreeOn(s, s', t.ns)
    requires role == Broker ==> HasPort(Lookup(s, NodeKey(ServiceKind, t.ns, role, i)))
    ensures role == Broker ==> HasPort(Lookup(s', NodeKey(ServiceKind, t.ns, role, i)))
    ensures AgreeOn(ApplyDeployment(s, t, role, i, e).0, ApplyDeployment(s', t, role, i, e).0, t.ns)
    ensures ApplyDeployment(s, t, role, i, e).1 == ApplyDeployment(s', t, role, i, e).1
  {
    hide DeploymentFor, IndexedName, ParseName, Put;
    var key := NodeKey(DeploymentKind, t.ns, role, i);
    assert Lookup(s', NodeKey(ServiceKind, t.ns, role, i)) == Lookup(s, NodeKey(ServiceKind, t.ns, role, i));
    PutLocal(s, s', key, DeploymentFor(t, role, i, Lookup(s, key), ServicePortIn(s, t.ns, role, i)), e, t.ns);
    PutLocal(s, s', key, DeploymentFor(t, role, i, Lookup(s, key), 0), e, t.ns);
  }

  lemma SyncNodeLocal(s: Objects, s': Objects, t: Target, role: Role, i: int, e: Env)
    requires AgreeOn(s, s', t.ns)
    ensures AgreeOn(SyncNode(s, t, role, i, e).objects, SyncNode(s', t, role, i, e).objects, t.ns)
    ensures SyncNode(s, t, role, i, e).failure == SyncNode(s', t, role, i, e).failure
  {
    hide ApplyClaim, ApplyService, ApplyDeployment, AgreeOn, IndexedName, ParseName;
    var (s1, ok1) := ApplyClaim(s, t, role, i, e);
    var (s1', _) := ApplyClaim(s', t, role, i, e);
    ApplyClaimLocal(s, s', t, role, i, e);
    if ok1 {
      if role == Controller {
        ApplyDeploymentLocal(s1, s1', t, role, i, e);
        ApplyServiceLocal(ApplyDeployment(s1, t, role, i, e).0, ApplyDeployment(s1', t, role, i, e).0, t, role, i, e);
      } else {
        var (s2, ok2) := ApplyService(s1, t, role, i, e);
        var (s2', _) := ApplyService(s1', t, role, i, e);
        ApplyServiceLocal(s1, s1', t, role, i, e);
        if ok2 {
          ApplyServiceAt(s1, t, role, i, e, NodeKey(ServiceKind, t.ns, role, i));
          ApplyServiceAt(s1', t, role, i, e, NodeKey(ServiceKind, t.ns, role, i));
          ApplyDeploymentLocal(s2, s2', t, role, i, e);
        }
      }
    }
  }

  lemma {:induction false} SyncRangeLocal(s: Objects, s': Objects, t: Target, role: Role, n: int, e: Env)
    requires AgreeOn(s, s', t.ns)
    ensures AgreeOn(SyncRange(s, t, role, n, e).objects, SyncRange(s', t, role, n, e).objects, t.ns)
    ensures SyncRange(s, t, role, n, e).failure == SyncRange(s', t, role, n, e).failure
  {
    hide SyncNode, AgreeOn;
    if n > 0 {
      SyncRangeLocal(s, s', t, role, n - 1, e);
      SyncNodeLocal(SyncRange(s, t, role, n - 1, e).objects, SyncRange(s', t, role, n - 1, e).objects, t, role,
          n - 1, e);
    }
  }

  lemma EraseRangeLocal(s: Objects, s': Objects, ns: string, role: Role, lo: int, hi: int, kinds: seq<Kind>, e: Env)
    requires AgreeOn(s, s', ns)
    ensures AgreeOn(EraseRange(s, ns, role, lo, hi, kinds, e), EraseRange(s', ns, role, lo, hi, kinds, e), ns)
  {
    hide EraseRange, IsNode;
    forall key: Key | key.ns == ns
      ensures Lookup(EraseRange(s', ns, role, lo, hi, kinds, e), key) == Lookup(EraseRange(s, ns, role, lo, hi,
          kinds, e), key)
    {
      EraseRangeAt(s, ns, role, lo, hi, kinds, e, key);
      EraseRangeAt(s', ns, role, lo, hi, kinds, e, key);
    }
  }

  /** Same status, same decision to go on, same objects in the namespace. */
  ghost predicate SamePipe(p: Pipe, p': Pipe, ns: string) {
    AgreeOn(p.objects, p'.objects, ns) && p.status == p'.status && p.running == p'.running
  }

  lemma StageLocal(k: nat, p: Pipe, p': Pipe, t: Target, e: Env)
    requires k < |STAGES| && SamePipe(p, p', t.ns)
    ensures SamePipe(Stage(k, p, t, e), Stage(k, p', t, e), t.ns)
  {
    hide AgreeOn, Put, SyncRange, EraseRange, ScriptFor, BootstrapFor, BootstrapName, IndexedName, ParseName,
         SetCondition, Contains;
    match k
    case 0 =>
    case 1 =>
      PutLocal(p.objects, p'.objects, t.ConfigMapKey(), ScriptFor(t), e, t.ns);
    case 2 =>
      EraseRangeLocal(p.objects, p'.objects, t.ns, Controller, t.Replicas(Controller), p.status.controllerReplicas,
                      ScaledKinds(Controller), e);
    case 3 =>
      SyncRangeLocal(p.objects, p'.objects, t, Controller, t.Replicas(Controller), e);
    case 4 =>
      EraseRangeLocal(p.objects, p'.objects, t.ns, Broker, t.Replicas(Broker), p.status.brokerReplicas,
                      ScaledKinds(Broker), e);
    case 5 =>
      SyncRangeLocal(p.objects, p'.objects, t, Broker, t.Replicas(Broker), e);
    case _ =>
      var key := BootstrapKey(t.ns);
      AgreeAt(p.objects, p'.objects, t.ns, key);
      PutLocal(p.objects, p'.objects, key, BootstrapFor(t, Lookup(p.objects, key), e.allocate(key)), e, t.ns);
  }

  lemma AgreeAt(s: Objects, s': Objects, ns: string, key: Key)
    requires AgreeOn(s, s', ns) && key.ns == ns
    ensures Lookup(s', key) == Lookup(s, key)
  {
  }

  lemma {:induction false} StagesLocal(n: nat, p: Pipe, p': Pipe, t: Target, e: Env)
    requires n <= |STAGES| && SamePipe(p, p', t.ns)
    ensures SamePipe(Stages(n, p, t, e), Stages(n, p', t, e), t.ns)
  {
    hide Stage, SamePipe;
    if n > 0 {
      StagesLocal(n - 1, p, p', t, e);
      SamePipeStep(Stages(n - 1, p, t, e), Stages(n - 1, p', t, e), t.ns);
      StageLocal(n - 1, Stages(n - 1, p, t, e), Stages(n - 1, p', t, e), t, e);
    }
  }

  lemma SamePipeStep(p: Pipe, p': Pipe, ns: string)
    requires SamePipe(p, p', ns)
    ensures p.running == p'.running
  {
  }

  lemma ActionLocal(a: Action, s: Objects, s': Objects)
    requires AgreeOn(s, s', a.Namespace())
    ensures AgreeOn(a.Act(s), a.Act(s'), a.Namespace()) && a.Reported(s) == a.Reported(s')
  {
    hide Stages, Cleanup, AgreeOn;
    if a.DoPass? {
      var st := a.st.(controllerAddresses := Voters(a.t.ns, a.t.spec.controller.replicas));
      StagesLocal(|STAGES|, Pipe(s, st, true), Pipe(s', st, true), a.t, a.e);
    } else {
      CleanupLocal(s, s', a.st, a.ns, a.name, a.e);
    }
  }

  lemma CleanupLocal(s: Objects, s': Objects, st: AutoMQStatus, ns: string, name: string, e: Env)
    requires AgreeOn(s, s', ns)
    ensures AgreeOn(Cleanup(s, st, ns, name, e).0, Cleanup(s', st, ns, name, e).0, ns)
  {
    hide Cleanup, IsNode, BootstrapKey;
    forall key: Key | key.ns == ns
      ensures Lookup(Cleanup(s', st, ns, name, e).0, key) == Lookup(Cleanup(s, st, ns, name, e).0, key)
    {
      CleanupAt(s, st, ns, name, e, key);
      CleanupAt(s', st, ns, name, e, key);
    }
  }

  /** Names hold no resource's name: two resources have a common object exactly when they share a namespace. */
  lemma SharedKeysMeanSharedNamespace(t: Target, t': Target)
    ensures (exists key :: Desired(t, key) && Desired(t', key)) <==> t.ns == t'.ns
  {
    hide IndexedName, ParseName, BootstrapName;
    if t.ns == t'.ns {
      assert Desired(t, BootstrapKey(t.ns)) && Desired(t', BootstrapKey(t.ns));
    }
  }

  /** Namespace isolation: two actions in different namespaces commute, and neither sees a trace of the other in
      the status it reports. */
  lemma ActionsCommute(a: Action, b: Action, s: Objects)
    requires a.Namespace() != b.Namespace()
    ensures a.Act(b.Act(s)) == b.Act(a.Act(s))
    ensures a.Reported(b.Act(s)) == a.Reported(s) && b.Reported(a.Act(s)) == b.Reported(s)
  {
    hide Lookup;
    forall key: Key ensures key.ns != a.Namespace() ==> Lookup(a.Act(s), key) == Lookup(s, key) {
      if key.ns != a.Namespace() { ActionFrame(a, s, key); }
    }
    forall key: Key ensures key.ns != b.Namespace() ==> Lookup(b.Act(s), key) == Lookup(s, key) {
      if key.ns != b.Namespace() { ActionFrame(b, s, key); }
    }
    ActionLocal(a, s, b.Act(s));
    ActionLocal(b, s, a.Act(s));
    forall key: Key ensures Lookup(a.Act(b.Act(s)), key) == Lookup(b.Act(a.Act(s)), key) {
      if key.ns != a.Namespace() { ActionFrame(a, b.Act(s), key); }
      if key.ns != b.Namespace() { ActionFrame(b, a.Act(s), key); }
    }
    SameLookups(a.Act(b.Act(s)), b.Act(a.Act(s)));
  }
}
