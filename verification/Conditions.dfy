/** Bookkeeping of the status conditions over a pass. */
module Conditions {
  import opened Basics
  import opened AutoMQApi
  import opened Naming
  import opened Store
  import opened Templates
  import opened Pipeline
  import opened Effects

  function Find(conditions: seq<Condition>, ctype: string): Option<Condition> {
    if conditions == [] then None
    else if conditions[0].ctype == ctype then Some(conditions[0])
    else Find(conditions[1..], ctype)
  }

  ghost predicate UniqueTypes(conditions: seq<Condition>) {
    forall i, j :: 0 <= i < j < |conditions| ==> conditions[i].ctype != conditions[j].ctype
  }

  ghost predicate HasType(conditions: seq<Condition>, ctype: string) {
    exists i :: 0 <= i < |conditions| && conditions[i].ctype == ctype
  }

  lemma {:induction false} FindSet(conditions: seq<Condition>, c: Condition, ctype: string)
    ensures Find(SetCondition(conditions, c), ctype) == if ctype == c.ctype then Some(c) else Find(conditions, ctype)
  {
    if conditions != [] && conditions[0].ctype != c.ctype {
      FindSet(conditions[1..], c, ctype);
    }
  }

  /** Setting a condition keeps types unique: types are the old ones and the new one. */
  lemma {:induction false} SetKeepsUnique(conditions: seq<Condition>, c: Condition)
    requires UniqueTypes(conditions)
    ensures UniqueTypes(SetCondition(conditions, c))
    ensures forall k :: 0 <= k < |SetCondition(conditions, c)| ==>
              SetCondition(conditions, c)[k].ctype == c.ctype || HasType(conditions, SetCondition(conditions,
                  c)[k].ctype)
  {
    if conditions == [] {
    } else if conditions[0].ctype == c.ctype {
      forall k | 0 <= k < |conditions| ensures HasType(conditions, conditions[k].ctype) {}
    } else {
      var rest := SetCondition(conditions[1..], c);
      SetKeepsUnique(conditions[1..], c);
      forall k | 0 <= k < |rest| && rest[k].ctype != c.ctype
        ensures HasType(conditions, rest[k].ctype) && rest[k].ctype != conditions[0].ctype
      {
        var i :| 0 <= i < |conditions[1..]| && conditions[1..][i].ctype == rest[k].ctype;
        assert conditions[i + 1].ctype == rest[k].ctype;
      }
      assert HasType(conditions, conditions[0].ctype);
    }
  }

  /** Setting a condition that already reads so changes nothing. */
  lemma {:induction false} SetSame(conditions: seq<Condition>, c: Condition)
    requires Find(conditions, c.ctype) == Some(c)
    ensures SetCondition(conditions, c) == conditions
  {
    if conditions[0].ctype != c.ctype {
      SetSame(conditions[1..], c);
    }
  }

  lemma StageTypesDiffer(j: nat, k: nat)
    requires j < |STAGES| && k < |STAGES| && j != k
    ensures STAGES[j] != STAGES[k]
  {
    assert STAGES[0][4] == 'S' && STAGES[1][4] == STAGES[2][4] == STAGES[3][4] == 'C';
    assert STAGES[4][4] == STAGES[5][4] == STAGES[6][4] == 'B';
    assert STAGES[1][6] == 'n' && STAGES[1][7] == 'f' && STAGES[2][7] == STAGES[3][7] == 't';
    assert STAGES[2][14] == 'S' && STAGES[3][14] == 'R';
    assert STAGES[4][10] == 'S' && STAGES[5][10] == 'R' && STAGES[6][10] == 'r';
  }

  /** Whether stage `k`, run on `p`, counts as successful. */
  predicate StageSucceeds(k: nat, p: Pipe, t: Target, e: Env)
    requires k < |STAGES|
  {
    match k
    case 0 => e.BucketMade()
    case 1 => !e.assetFails && e.Outcome(Apply(t.ConfigMapKey())) == None
    case 2 => true
    case 3 => SyncRange(p.objects, t, Controller, t.Replicas(Controller), e).failure == None
    case 4 => true
    case 5 => SyncRange(p.objects, t, Broker, t.Replicas(Broker), e).failure == None
    case _ => e.Outcome(Apply(BootstrapKey(t.ns))) == None
  }

  function SuccessReason(k: nat): string
    requires k < |STAGES|
  {
    [ "AwsS3Reconciling", "ConfigmapReconciling", "ControllerScaleReconciling", "ControllerReconciling",
      "BrokerScaleReconciling", "BrokerReconciling", "BootstrapServiceReconciling" ][k]
  }

  /** A stage sets one condition, of its own type, True exactly when it succeeded; only the first two
      stages stop the pipeline, and they do so exactly when they fail. */
  lemma StageSetsOne(k: nat, p: Pipe, t: Target, e: Env) returns (c: Condition)
    requires k < |STAGES|
    ensures var p' := Stage(k, p, t, e);
            p'.status.conditions == SetCondition(p.status.conditions, c)
            && (p'.running <==> k >= 2 || StageSucceeds(k, p, t, e))
    ensures c.ctype == STAGES[k] && c.observedGeneration == t.generation
    ensures c.status == ConditionTrue <==> StageSucceeds(k, p, t, e)
    ensures StageSucceeds(k, p, t, e) ==> c.reason == SuccessReason(k)
  {
    hide SetCondition, EraseRange, SyncRange, ScriptFor, BootstrapFor, BootstrapName, IndexedName, ParseName,
         Contains;
    var ok := StageSucceeds(k, p, t, e);
    var reason := if ok then SuccessReason(k) else match k
      case 0 => if e.newBucketFails then "AwsS3ReconcilingInit" else "AwsS3ReconcilingBucket"
      case 1 => if e.assetFails then "ConfigmapReconcilingInit" else "ConfigmapReconcilingCreate"
      case 3 => SyncRange(p.objects, t, Controller, t.Replicas(Controller), e).failure.value
      case 5 => SyncRange(p.objects, t, Broker, t.Replicas(Broker), e).failure.value
      case _ => "BootstrapServiceReconciling";
    c := Condition(STAGES[k], if ok then ConditionTrue else ConditionFalse, t.generation, reason);
  }

  /** The verdict on stage `k` in `conditions`. */
  predicate Reports(conditions: seq<Condition>, k: nat, ok: bool, generation: nat)
    requires k < |STAGES|
  {
    match Find(conditions, STAGES[k])
    case Some(c) => (c.status == ConditionTrue <==> ok) && c.observedGeneration == generation
                    && (ok ==> c.reason == SuccessReason(k))
    case None => false
  }

  /** Over the first `n` stages: a stage that ran has set its condition to its verdict, and the conditions of
      stages not reached are as before. Types stay unique. */
  lemma {:induction false} ConditionsAfter(n: nat, p: Pipe, t: Target, e: Env, k: nat)
    requires n <= |STAGES| && k < |STAGES|
    ensures var after := Stages(n, p, t, e).status.conditions;
            && (UniqueTypes(p.status.conditions) ==> UniqueTypes(after))
            && (if k < n && Stages(k, p, t, e).running
                then Reports(after, k, StageSucceeds(k, Stages(k, p, t, e), t, e), t.generation)
                else Find(after, STAGES[k]) == Find(p.status.conditions, STAGES[k]))
  {
    hide Stage, StageSucceeds, SetCondition, SuccessReason, Find, UniqueTypes;
    if n > 0 {
      var q := Stages(n - 1, p, t, e);
      ConditionsAfter(n - 1, p, t, e, k);
      if q.running {
        var c := StageSetsOne(n - 1, q, t, e);
        FindSet(q.status.conditions, c, STAGES[k]);
        if UniqueTypes(p.status.conditions) {
          SetKeepsUnique(q.status.conditions, c);
        }
        if k != n - 1 {
          StageTypesDiffer(k, n - 1);
        }
      }
    }
  }

  /** Condition bookkeeping of a pass. Each type occurs at most once; the conditions of the stages reached tell
      which of them succeeded, a sync stage's exactly that its loop finished; those of stages not reached are
      untouched; and stages are cut off only by a failing bucket or ConfigMap stage. */
  lemma PassConditions(s: Objects, st: AutoMQStatus, t: Target, e: Env, k: nat)
    requires k < |STAGES|
    ensures var p := Pipe(s, st.(controllerAddresses := Voters(t.ns, t.spec.controller.replicas)), true);
            var after := Pass(s, st, t, e).1.conditions;
            && (UniqueTypes(st.conditions) ==> UniqueTypes(after))
            && (if Stages(k, p, t, e).running
                then Reports(after, k, StageSucceeds(k, Stages(k, p, t, e), t, e), t.generation)
                else Find(after, STAGES[k]) == Find(st.conditions, STAGES[k]))
            && (Stages(k, p, t, e).running <==>
                (k >= 1 ==> StageSucceeds(0, p, t, e)) && (k >= 2 ==> StageSucceeds(1, p, t, e)))
  {
    hide Stage, StageSucceeds, SetCondition, SuccessReason, Find, UniqueTypes;
    var p := Pipe(s, st.(controllerAddresses := Voters(t.ns, t.spec.controller.replicas)), true);
    ConditionsAfter(|STAGES|, p, t, e, k);
    RunningAfter(k, p, t, e);
  }

  lemma {:induction false} RunningAfter(k: nat, p: Pipe, t: Target, e: Env)
    requires k <= |STAGES| && p.running
    ensures Stages(k, p, t, e).running <==>
            (k >= 1 ==> StageSucceeds(0, p, t, e)) && (k >= 2 ==> StageSucceeds(1, p, t, e))
  {
    hide Stage, SyncRange, Contains;
    if k > 0 {
      RunningAfter(k - 1, p, t, e);
      var _ := StageSetsOne(k - 1, Stages(k - 1, p, t, e), t, e);
    }
  }

  /** A clean pass reports success for all seven stages. */
  lemma CleanConditions(s: Objects, st: AutoMQStatus, t: Target, e: Env, k: nat)
    requires e.Clean() && k < |STAGES|
    ensures Reports(Pass(s, st, t, e).1.conditions, k, true, t.generation)
  {
    hide Stages, SyncRange, Contains, Pass, SuccessReason;
    PassConditions(s, st, t, e, k);
    var p := Pipe(s, st.(controllerAddresses := Voters(t.ns, t.spec.controller.replicas)), true);
    SyncRangeClean(Stages(k, p, t, e).objects, t, Controller, t.Replicas(Controller), e);
    SyncRangeClean(Stages(k, p, t, e).objects, t, Broker, t.Replicas(Broker), e);
  }

  /** A clean pass whose verdicts are already in the status leaves the conditions as they are. */
  lemma {:induction false} CleanStagesSettled(n: nat, p: Pipe, t: Target, e: Env)
    requires n <= |STAGES| && e.Clean() && p.running
    requires forall k :: 0 <= k < |STAGES| ==> Reports(p.status.conditions, k, true, t.generation)
    ensures Stages(n, p, t, e).status.conditions == p.status.conditions
  {
    hide Stage, SetCondition, SuccessReason, SyncRange, Contains;
    if n > 0 {
      CleanStagesSettled(n - 1, p, t, e);
      var q := Stages(n - 1, p, t, e);
      if q.running {
        var c := StageSetsOne(n - 1, q, t, e);
        SyncRangeClean(q.objects, t, Controller, t.Replicas(Controller), e);
        SyncRangeClean(q.objects, t, Broker, t.Replicas(Broker), e);
        assert Reports(p.status.conditions, n - 1, true, t.generation);
        FoundUnderType(q.status.conditions, STAGES[n - 1]);
        SetSame(q.status.conditions, c);
      }
    }
  }

  /** A condition is found under its own type. */
  lemma {:induction false} FoundUnderType(conditions: seq<Condition>, ctype: string)
    ensures Find(conditions, ctype).Some? ==> Find(conditions, ctype).value.ctype == ctype
  {
    if conditions != [] && conditions[0].ctype != ctype {
      FoundUnderType(conditions[1..], ctype);
    }
  }
}
