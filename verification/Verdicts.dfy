/** What a pass reports, told from its calls alone: the source's table of condition types, verdicts and reasons. */
module Verdicts {
  import opened Basics
  import opened AutoMQApi
  import opened Naming
  import opened Store
  import opened Templates
  import opened Pipeline
  import opened Effects
  import opened Conditions
  import opened Convergence

  /******* The sync loops *******/

  /** Why a node's round stops, if it does. A controller's calls are for claim, deployment and service, a broker's for
      claim, service, the service read back, and deployment. */
  function NodeFault(ns: string, role: Role, i: int, e: Env): Option<string> {
    var claim := e.Outcome(Apply(NodeKey(ClaimKind, ns, role, i)));
    var svc := e.Outcome(Apply(NodeKey(ServiceKind, ns, role, i)));
    var read := e.Outcome(Fetch(NodeKey(ServiceKind, ns, role, i)));
    var dep := e.Outcome(Apply(NodeKey(DeploymentKind, ns, role, i)));
    if role == Controller then
      if claim != None then Some("ControllerPVCReconciling")
      else if dep != None then Some("ControllerSTSReconciling")
      else if svc != None then Some("ControllerServiceReconciling")
      else None
    else
      if claim != None then Some("BrokerPVCReconciling")
      else if svc != None then Some("BrokerServiceReconciling")
      else if read != None || dep != None then Some("BrokerSTSReconciling")
      else None
  }

  /** The first reason among the nodes below `n`. */
  function LoopFault(ns: string, role: Role, n: int, e: Env): Option<string> {
    if n <= 0 then None
    else
      var before := LoopFault(ns, role, n - 1, e);
      if before.Some? then before else NodeFault(ns, role, n - 1, e)
  }

  lemma ApplyClaimFault(s: Objects, t: Target, role: Role, i: int, e: Env)
    ensures ApplyClaim(s, t, role, i, e).1 <==> e.Outcome(Apply(NodeKey(ClaimKind, t.ns, role, i))) == None
  {
    hide ClaimFor, NodeKey;
  }

  lemma ApplyServiceFault(s: Objects, t: Target, role: Role, i: int, e: Env)
    ensures var (s', ok), key := ApplyService(s, t, role, i, e), NodeKey(ServiceKind, t.ns, role, i);
            (ok <==> e.Outcome(Apply(key)) == None) && (ok ==> Lookup(s', key).Some? && Lookup(s', key).value.Service?)
  {
    hide NodeLabels, NodePortFor, SelectorFor, NodeKey;
  }

  lemma ApplyDeploymentFault(s: Objects, t: Target, role: Role, i: int, e: Env)
    requires var svc := Lookup(s, NodeKey(ServiceKind, t.ns, role, i));
             role == Broker ==> HasPort(svc) && svc.Some? && svc.value.Service?
    ensures ApplyDeployment(s, t, role, i, e).1 <==>
            e.Outcome(Apply(NodeKey(DeploymentKind, t.ns, role, i))) == None
            && (role == Broker ==> e.Outcome(Fetch(NodeKey(ServiceKind, t.ns, role, i))) == None)
  {
    hide DeploymentFor, NodeKey;
  }

  lemma SyncNodeFault(s: Objects, t: Target, role: Role, i: int, e: Env)
    ensures SyncNode(s, t, role, i, e).failure == NodeFault(t.ns, role, i, e)
  {
    hide ApplyClaim, ApplyService, ApplyDeployment, NodeKey;
    var (s1, ok1) := ApplyClaim(s, t, role, i, e);
    ApplyClaimFault(s, t, role, i, e);
    if role == Controller {
      ApplyDeploymentFault(s1, t, role, i, e);
      ApplyServiceFault(ApplyDeployment(s1, t, role, i, e).0, t, role, i, e);
    } else {
      ApplyServiceFault(s1, t, role, i, e);
      if ok1 && ApplyService(s1, t, role, i, e).1 {
        ApplyServiceAt(s1, t, role, i, e, NodeKey(ServiceKind, t.ns, role, i));
        ApplyDeploymentFault(ApplyService(s1, t, role, i, e).0, t, role, i, e);
      }
    }
  }

  /** A sync loop stops at the first node whose calls do not all succeed, and says why. */
  lemma {:induction false} SyncRangeFault(s: Objects, t: Target, role: Role, n: int, e: Env)
    ensures SyncRange(s, t, role, n, e).failure == LoopFault(t.ns, role, n, e)
  {
    hide SyncNode, NodeFault;
    if n > 0 {
      SyncRangeFault(s, t, role, n - 1, e);
      SyncNodeFault(SyncRange(s, t, role, n - 1, e).objects, t, role, n - 1, e);
    }
  }

  /** It makes its calls in order: what comes after the call that fails, in the same round or in a later one, is as it
      was. */
  lemma SyncNodeOrder(s: Objects, t: Target, role: Role, i: int, e: Env)
    ensures var after := SyncNode(s, t, role, i, e).objects;
            var claim, svc := NodeKey(ClaimKind, t.ns, role, i), NodeKey(ServiceKind, t.ns, role, i);
            var dep := NodeKey(DeploymentKind, t.ns, role, i);
            && (e.Outcome(Apply(claim)) != None ==>
                  Lookup(after, svc) == Lookup(s, svc) && Lookup(after, dep) == Lookup(s, dep))
            && (role == Controller && e.Outcome(Apply(dep)) != None ==> Lookup(after, svc) == Lookup(s, svc))
            && (role == Broker && e.Outcome(Apply(svc)) != None ==> Lookup(after, dep) == Lookup(s, dep))
            && Lookup(after, claim) == (if e.Outcome(Apply(claim)) == Some(Refused) then Lookup(s, claim)
                                        else Some(ClaimFor(t, role, i, Lookup(s, claim))))
  {
    hide ApplyClaim, ApplyService, ApplyDeployment, IndexedName, ParseName, ClaimFor, ServiceFor, DeploymentFor,
         HasPort, Lookup;
    var claim, svc := NodeKey(ClaimKind, t.ns, role, i), NodeKey(ServiceKind, t.ns, role, i);
    var dep := NodeKey(DeploymentKind, t.ns, role, i);
    var (s1, ok1) := ApplyClaim(s, t, role, i, e);
    ApplyClaimFault(s, t, role, i, e);
    ApplyClaimAt(s, t, role, i, e, svc);
    ApplyClaimAt(s, t, role, i, e, dep);
    ClaimLands(s, t, role, i, e);
    if role == Controller {
      ApplyDeploymentFault(s1, t, role, i, e);
      ApplyDeploymentAt(s1, t, role, i, e, svc);
      ApplyDeploymentAt(s1, t, role, i, e, claim);
      ApplyServiceAt(ApplyDeployment(s1, t, role, i, e).0, t, role, i, e, claim);
    } else {
      ApplyServiceFault(s1, t, role, i, e);
      ApplyServiceAt(s1, t, role, i, e, dep);
      ApplyServiceAt(s1, t, role, i, e, claim);
      if ok1 && ApplyService(s1, t, role, i, e).1 {
        ApplyServiceAt(s1, t, role, i, e, svc);
        ApplyDeploymentAt(ApplyService(s1, t, role, i, e).0, t, role, i, e, claim);
      }
    }
  }

  /** A write whose reply is lost takes effect all the same. */
  lemma ClaimLands(s: Objects, t: Target, role: Role, i: int, e: Env)
    ensures var key := NodeKey(ClaimKind, t.ns, role, i);
            Lookup(ApplyClaim(s, t, role, i, e).0, key) ==
            if e.Outcome(Apply(key)) == Some(Refused) then Lookup(s, key)
            else Some(ClaimFor(t, role, i, Lookup(s, key)))
  {
    hide ClaimFor, NodeKey;
  }

  lemma {:induction false} SyncRangeOrder(s: Objects, t: Target, role: Role, n: int, e: Env, i: int, key: Key)
    requires 0 <= i < n && NodeFault(t.ns, role, i, e).Some? && !IsNode(key, t.ns, role, 0, i + 1)
    ensures Lookup(SyncRange(s, t, role, n, e).objects, key) == Lookup(s, key)
  {
    hide SyncNode, NodeFault, Lookup, IsNode;
    if i == n - 1 {
      SyncRangeFrame(s, t, role, n, e, key);
    } else {
      SyncRangeOrder(s, t, role, n - 1, e, i, key);
      FaultStays(t.ns, role, i, n - 1, e);
      SyncRangeFault(s, t, role, n - 1, e);
    }
  }

  lemma {:induction false} FaultStays(ns: string, role: Role, i: int, n: int, e: Env)
    requires 0 <= i < n && NodeFault(ns, role, i, e).Some?
    ensures LoopFault(ns, role, n, e).Some?
  {
    hide NodeFault;
    if i < n - 1 {
      FaultStays(ns, role, i, n - 1, e);
    }
  }

  /******* All seven stages *******/

  /** Bucket creation has an outcome to go on from. */
  predicate BucketUsable(e: Env) {
    !e.newBucketFails
    && (e.mkBucketError == None
        || exists i :: 0 <= i <= |e.mkBucketError.value| && "BucketAlready" <= e.mkBucketError.value[i..])
  }

  /** A stage's condition type, its success and its reason. */
  function Expected(k: nat, t: Target, e: Env): (string, bool, string)
    requires k < 7
  {
    match k
    case 0 =>
      ("SyncS3ServiceReady", BucketUsable(e),
       if e.newBucketFails then "AwsS3ReconcilingInit"
       else if !BucketUsable(e) then "AwsS3ReconcilingBucket" else "AwsS3Reconciling")
    case 1 =>
      var written := e.Outcome(Apply(Key(ConfigMapKind, t.ns, t.name))) == None;
      ("SyncConfigmapReady", !e.assetFails && written,
       if e.assetFails then "ConfigmapReconcilingInit"
       else if !written then "ConfigmapReconcilingCreate" else "ConfigmapReconciling")
    case 2 => ("SyncControllerScale", true, "ControllerScaleReconciling")
    case 3 =>
      var fault := LoopFault(t.ns, Controller, t.spec.controller.replicas, e);
      ("SyncControllerReady", fault == None, if fault.Some? then fault.value else "ControllerReconciling")
    case 4 => ("SyncBrokerScale", true, "BrokerScaleReconciling")
    case 5 =>
      var fault := LoopFault(t.ns, Broker, t.spec.broker.replicas, e);
      ("SyncBrokerReady", fault == None, if fault.Some? then fault.value else "BrokerReconciling")
    case _ =>
      ("SyncBootstrapServiceReady", e.Outcome(Apply(BootstrapKey(t.ns))) == None, "BootstrapServiceReconciling")
  }

  function ExpectedCondition(k: nat, t: Target, e: Env): Condition
    requires k < 7
  {
    var (ctype, ok, reason) := Expected(k, t, e);
    Condition(ctype, if ok then ConditionTrue else ConditionFalse, t.generation, reason)
  }

  /** Stage `k` is reached: only a failing bucket or ConfigMap stage stops the pipeline. */
  predicate Reached(k: nat, t: Target, e: Env) {
    (k >= 1 ==> Expected(0, t, e).1) && (k >= 2 ==> Expected(1, t, e).1)
  }

  lemma BucketMadeIs(e: Env)
    ensures e.BucketMade() <==> BucketUsable(e)
  {
    hide Contains;
    if e.mkBucketError.Some? {
      ContainsAt(e.mkBucketError.value, "BucketAlready");
    }
  }

  /** Each stage sets the expected condition and goes on as expected. */
  lemma StageReports(k: nat, p: Pipe, t: Target, e: Env)
    requires k < 7
    ensures var p' := Stage(k, p, t, e);
            && p'.status.conditions == SetCondition(p.status.conditions, ExpectedCondition(k, t, e))
            && (p'.running <==> k >= 2 || Expected(k, t, e).1)
    ensures Expected(k, t, e).0 == STAGES[k]
  {
    hide SetCondition, EraseRange, SyncRange, ScriptFor, BootstrapFor, BootstrapKey, IndexedName, ParseName, Contains,
         LoopFault, BucketUsable, Env.BucketMade;
    match k
    case 0 => BucketMadeIs(e);
    case 1 =>
    case 2 =>
    case 3 => SyncRangeFault(p.objects, t, Controller, t.Replicas(Controller), e);
    case 4 =>
    case 5 => SyncRangeFault(p.objects, t, Broker, t.Replicas(Broker), e);
    case _ =>
  }

  lemma {:induction false} StagesReach(n: nat, p: Pipe, t: Target, e: Env)
    requires n <= 7 && p.running
    ensures Stages(n, p, t, e).running <==> Reached(n, t, e)
  {
    hide Stage, Expected;
    if n > 0 {
      StagesReach(n - 1, p, t, e);
      StageReports(n - 1, Stages(n - 1, p, t, e), t, e);
    }
  }

  /** The bucket decides whether anything else happens: the first stage lets the pipeline run exactly when the client
      could be made and the bucket was created or, says the error text somewhere, is there already. */
  lemma BucketDecides(p: Pipe, t: Target, e: Env)
    requires p.running
    ensures Stages(1, p, t, e).running <==>
            !e.newBucketFails
            && (e.mkBucketError == None
                || exists i :: 0 <= i <= |e.mkBucketError.value| && "BucketAlready" <= e.mkBucketError.value[i..])
  {
    hide Stage;
    StagesReach(1, p, t, e);
  }

  lemma {:induction false} StagesReport(n: nat, p: Pipe, t: Target, e: Env, k: nat)
    requires n <= 7 && k < 7 && p.running
    ensures var before, after := p.status.conditions, Stages(n, p, t, e).status.conditions;
            && (UniqueTypes(before) ==> UniqueTypes(after))
            && Find(after, Expected(k, t, e).0) ==
               if k < n && Reached(k, t, e) then Some(ExpectedCondition(k, t, e)) else Find(before, Expected(k, t, e).0)
  {
    hide Stage, SetCondition, Find, UniqueTypes, Expected;
    if n > 0 {
      var q := Stages(n - 1, p, t, e);
      StagesReport(n - 1, p, t, e, k);
      StagesReach(n - 1, p, t, e);
      if q.running {
        var c := ExpectedCondition(n - 1, t, e);
        StageReports(n - 1, q, t, e);
        StageReports(k, q, t, e);
        FindSet(q.status.conditions, c, Expected(k, t, e).0);
        if UniqueTypes(p.status.conditions) {
          SetKeepsUnique(q.status.conditions, c);
        }
        if k != n - 1 {
          StageTypesDiffer(k, n - 1);
        }
      }
    }
  }

  /** What a pass reports, whatever fails: each stage that is reached leaves exactly the condition the table gives for
      the outcome of its calls, each that is not leaves the condition it found, and types stay unique. */
  lemma PassReports(s: Objects, st: AutoMQStatus, t: Target, e: Env, k: nat)
    requires k < 7
    ensures var before, after := st.conditions, Pass(s, st, t, e).1.conditions;
            && (UniqueTypes(before) ==> UniqueTypes(after))
            && Find(after, Expected(k, t, e).0) ==
               if Reached(k, t, e) then Some(ExpectedCondition(k, t, e)) else Find(before, Expected(k, t, e).0)
  {
    hide Stages, Find, UniqueTypes, Expected, Reached;
    StagesReport(7, Pipe(s, st.(controllerAddresses := Voters(t.ns, t.spec.controller.replicas)), true), t, e, k);
  }

  /** The first pass of a resource that is not cut off lists the seven conditions in the order of the stages. */
  lemma FirstPassReports(s: Objects, t: Target, e: Env)
    requires Reached(7, t, e)
    ensures Pass(s, EMPTY_STATUS, t, e).1.conditions == seq(7, k requires 0 <= k < 7 => ExpectedCondition(k, t, e))
  {
    hide Stages, Expected, Reached;
    var p := Pipe(s, EMPTY_STATUS.(controllerAddresses := Voters(t.ns, t.spec.controller.replicas)), true);
    FirstStagesReport(7, p, t, e);
  }

  lemma {:induction false} FirstStagesReport(n: nat, p: Pipe, t: Target, e: Env)
    requires n <= 7 && p.running && Reached(7, t, e) && p.status.conditions == []
    ensures Stages(n, p, t, e).status.conditions == seq(n, k requires 0 <= k < n => ExpectedCondition(k, t, e))
  {
    hide Stage, Expected, SetCondition;
    if n > 0 {
      var q := Stages(n - 1, p, t, e);
      FirstStagesReport(n - 1, p, t, e);
      StagesReach(n - 1, p, t, e);
      StageReports(n - 1, q, t, e);
      forall j | 0 <= j < n - 1 ensures q.status.conditions[j].ctype != ExpectedCondition(n - 1, t, e).ctype {
        StageReports(j, q, t, e);
        StageTypesDiffer(j, n - 1);
      }
      SetAppends(q.status.conditions, ExpectedCondition(n - 1, t, e));
    }
  }

  lemma {:induction false} SetAppends(conditions: seq<Condition>, c: Condition)
    requires forall j :: 0 <= j < |conditions| ==> conditions[j].ctype != c.ctype
    ensures SetCondition(conditions, c) == conditions + [c]
  {
    if conditions != [] {
      SetAppends(conditions[1..], c);
      assert [conditions[0]] + (conditions[1..] + [c]) == conditions + [c];
    }
  }

  /** The address clients are given: the bootstrap Service's, once a pass has been able to write that Service. */
  lemma PassPublishes(s: Objects, st: AutoMQStatus, t: Target, e: Env)
    ensures Pass(s, st, t, e).1.bootstrapInternalAddress ==
            if Reached(6, t, e) && Expected(6, t, e).1 then "automq-broker-bootstrap." + t.ns + ".svc:9092"
            else st.bootstrapInternalAddress
  {
    hide Stage, Expected, Reached;
    var p := Pipe(s, st.(controllerAddresses := Voters(t.ns, t.spec.controller.replicas)), true);
    StagesPublish(7, p, t, e);
  }

  lemma {:induction false} StagesPublish(n: nat, p: Pipe, t: Target, e: Env)
    requires n <= 7 && p.running
    ensures Stages(n, p, t, e).status.bootstrapInternalAddress ==
            if n == 7 && Reached(6, t, e) && Expected(6, t, e).1 then "automq-broker-bootstrap." + t.ns + ".svc:9092"
            else p.status.bootstrapInternalAddress
  {
    hide Stage, Expected, Reached;
    if n > 0 {
      StagesPublish(n - 1, p, t, e);
      StagesReach(n - 1, p, t, e);
      StagePublishes(n - 1, Stages(n - 1, p, t, e), t, e);
    }
  }

  lemma StagePublishes(k: nat, p: Pipe, t: Target, e: Env)
    requires k < 7
    ensures Stage(k, p, t, e).status.bootstrapInternalAddress ==
            if k == 6 && Expected(6, t, e).1 then "automq-broker-bootstrap." + t.ns + ".svc:9092"
            else p.status.bootstrapInternalAddress
  {
    hide SetCondition, EraseRange, SyncRange, ScriptFor, BootstrapFor, BootstrapName, IndexedName, ParseName, Contains,
         LoopFault, PrintInt, BootstrapKey;
    if k == 6 {
      NamesAndLabelsAre(t.name, Broker, 0);
      PortTexts();
      assert "automq-broker-bootstrap" + "." + t.ns + ".svc:" + "9092" ==
             "automq-broker-bootstrap." + t.ns + ".svc:9092";
    }
  }

  /** An existing bucket is no fault: a pass that fails in nothing else reports success for all seven stages and
      reaches the goal. */
  lemma ExistingBucketIsNoFault(s: Objects, st: AutoMQStatus, t: Target, e: Env, i: nat, k: nat)
    requires !e.newBucketFails && !e.assetFails && e.faults == map[] && k < 7
    requires e.mkBucketError.Some? && i <= |e.mkBucketError.value| && "BucketAlready" <= e.mkBucketError.value[i..]
    requires e.AllocatesPorts() && PortsValid(s) && t.spec.nodePort >= 0
    ensures var (s', st') := Pass(s, st, t, e);
            GoalReached(s', t) && Find(st'.conditions, Expected(k, t, e).0).Some?
            && Find(st'.conditions, Expected(k, t, e).0).value.status == ConditionTrue
  {
    hide Pass, Find, GoalReached, Contains, Env.BucketMade;
    BucketMadeIs(e);
    CleanPassReachesGoal(s, st, t, e);
    NoLoopFault(t.ns, Controller, t.spec.controller.replicas, e);
    NoLoopFault(t.ns, Broker, t.spec.broker.replicas, e);
    PassReports(s, st, t, e, k);
  }

  lemma {:induction false} NoLoopFault(ns: string, role: Role, n: int, e: Env)
    requires e.faults == map[]
    ensures LoopFault(ns, role, n, e) == None
  {
    if n > 0 {
      NoLoopFault(ns, role, n - 1, e);
    }
  }
}
