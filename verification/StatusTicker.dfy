/** The background loop that watches pods (internal/controller/automq_status_controller.go). */
module StatusTicker {
  import opened Basics
  import opened AutoMQApi
  import opened Naming
  import opened Store

  datatype PodCondition = PodCondition(ctype: string, status: string)

  datatype Pod = Pod(ns: string, labels: Labels, phase: string, conditions: seq<PodCondition>)

  predicate Listed(pod: Pod, ns: string, selector: Labels) {
    pod.ns == ns && Selects(selector, pod.labels)
  }

  /** A pod counts when it runs and has no Ready condition that is not True. */
  predicate IsRunning(pod: Pod) {
    pod.phase == "Running" && forall k :: 0 <= k < |pod.conditions| ==> !Unready(pod.conditions[k])
  }

  predicate Unready(c: PodCondition) {
    c.ctype == "Ready" && c.status != "True"
  }

  /** The positions of the pods that count. */
  function Counted(pods: seq<Pod>, ns: string, selector: Labels): set<nat> {
    set k: nat | k < |pods| && Listed(pods[k], ns, selector) && IsRunning(pods[k])
  }

  /** The List call: the matching pods, in order. */
  function List(pods: seq<Pod>, ns: string, selector: Labels): seq<Pod> {
    if pods == [] then []
    else
      var front := List(pods[..|pods| - 1], ns, selector);
      var last := pods[|pods| - 1];
      if Listed(last, ns, selector) then front + [last] else front
  }

  function RunningAmong(pods: seq<Pod>): nat {
    if pods == [] then 0
    else RunningAmong(pods[..|pods| - 1]) + (if IsRunning(pods[|pods| - 1]) then 1 else 0)
  }

  lemma {:induction false} RunningAmongListed(pods: seq<Pod>, ns: string, selector: Labels)
    ensures RunningAmong(List(pods, ns, selector)) == |Counted(pods, ns, selector)|
  {
    hide Listed, IsRunning;
    if pods == [] {
      assert Counted(pods, ns, selector) == {};
    } else {
      var n := |pods| - 1;
      var front, last := pods[..n], pods[n];
      RunningAmongListed(front, ns, selector);
      assert List(front, ns, selector) + [last] != [] && (List(front, ns, selector) + [last])[..|List(front, ns,
          selector)|] == List(front, ns, selector);
      if Listed(last, ns, selector) && IsRunning(last) {
        assert Counted(pods, ns, selector) == Counted(front, ns, selector) + {n};
      } else {
        assert Counted(pods, ns, selector) == Counted(front, ns, selector);
      }
    }
  }

  /** getPodRunningNum counts exactly the matching running pods, whatever the pod list. */
  method GetPodRunningNum(pods: seq<Pod>, ns: string, selector: Labels) returns (count: nat)
    ensures count == |Counted(pods, ns, selector)|
  {
    var items := List(pods, ns, selector);
    count := 0;
    var i := 0;
    while i < |items|
      invariant 0 <= i <= |items|
      invariant count == RunningAmong(items[..i])
    {
      var pod := items[i];
      if pod.phase == "Running" {
        var allContainersReady := true;
        var k := 0;
        while k < |pod.conditions|
          invariant 0 <= k <= |pod.conditions|
          invariant allContainersReady
          invariant forall j :: 0 <= j < k ==> !Unready(pod.conditions[j])
        {
          if pod.conditions[k].ctype == "Ready" && pod.conditions[k].status != "True" {
            assert Unready(pod.conditions[k]);
            allContainersReady := false;
            break;
          }
          k := k + 1;
        }
        if allContainersReady {
          count := count + 1;
        }
      }
      assert items[..i + 1][..i] == items[..i];
      i := i + 1;
    }
    assert items[..|items|] == items;
    RunningAmongListed(pods, ns, selector);
  }

  /** No pod is counted under both roles. */
  lemma RolesCountDisjointPods(pods: seq<Pod>, ns: string, name: string)
    ensures Counted(pods, ns, RoleLabels(name, Controller)) !! Counted(pods, ns, RoleLabels(name, Broker))
  {
    LabelKeysDiffer();
    assert RoleLabels(name, Controller)[ROLE_LABEL] == "controller" && RoleLabels(name, Broker)[ROLE_LABEL] == "broker";
    assert "controller"[0] != "broker"[0];
    forall k | k in Counted(pods, ns, RoleLabels(name, Controller))
      ensures k !in Counted(pods, ns, RoleLabels(name, Broker))
    {
      assert pods[k].labels[ROLE_LABEL] == "controller";
    }
  }

  predicate AllTrue(conditions: seq<Condition>) {
    forall k :: 0 <= k < |conditions| ==> conditions[k].status == ConditionTrue
  }

  /** The status `statusReconcile` derives from a resource and the two counts. */
  function Observed(r: Resource, controllers: int, brokers: int): AutoMQStatus {
    if !AllTrue(r.status.conditions) then
      r.status.(phase := Error)
    else
      var ready := Wrap32(controllers) == r.spec.controller.replicas && Wrap32(brokers) == r.spec.broker.replicas;
      r.status.(readyPods := Wrap32(Wrap32(controllers) + Wrap32(brokers)), phase := if ready then Ready else InProcess)
  }

  /** The read half of `statusReconcile`: a copy of the status with phase and pod count renewed, or nothing when a
      call fails. */
  function Tick(r: Option<Resource>, ns: string, name: string, pods: seq<Pod>, e: Env): Option<AutoMQStatus> {
    if r == None || e.Outcome(GetResource) != None then None
    else if AllTrue(r.value.status.conditions)
        && (e.Outcome(ListPods(Controller)) != None || e.Outcome(ListPods(Broker)) != None)
    then None
    else
      Some(Observed(r.value, |Counted(pods, ns, RoleLabels(name, Controller))|, |Counted(pods, ns, RoleLabels(name,
          Broker))|))
  }

  /** A status write: the stored resource gets the whole status, if it still exists. */
  function WriteBack(r: Option<Resource>, st: AutoMQStatus, e: Env): Option<Resource> {
    if r == None || e.Outcome(WriteStatus) == Some(Refused) then r else Some(r.value.(status := st))
  }

  /** Readiness is exact: Ready is stored iff every condition is True and both counts, as int32, equal the spec;
      nothing but phase and pod count changes. */
  lemma ObservedIsExact(r: Resource, controllers: nat, brokers: nat)
    requires controllers <= MAX_INT32 && brokers <= MAX_INT32
    ensures var st := Observed(r, controllers, brokers);
            var conditions := r.status.conditions;
            var allTrue := forall k :: 0 <= k < |conditions| ==> conditions[k].status == ConditionTrue;
            && (st.phase == Ready <==> allTrue && controllers == r.spec.controller.replicas
                                       && brokers == r.spec.broker.replicas)
            && (st.phase == Error <==> !allTrue) && st.phase in {Ready, Error, InProcess}
            && st.(phase := r.status.phase, readyPods := r.status.readyPods) == r.status
            && (st.phase == Error ==> st.readyPods == r.status.readyPods)
            && (st.phase != Error ==> st.readyPods == Wrap32(controllers + brokers))
  {
  }

  /** Which pods count, in the pods' own terms: those of the namespace that carry all the labels, run, and have no
      Ready condition other than True. */
  lemma CountedIs(pods: seq<Pod>, ns: string, selector: Labels, k: nat)
    ensures k in Counted(pods, ns, selector) <==>
            && k < |pods| && pods[k].ns == ns
            && (forall name :: name in selector ==>
                  name in pods[k].labels && pods[k].labels[name] == selector[name])
            && pods[k].phase == "Running"
            && !exists c :: 0 <= c < |pods[k].conditions| && pods[k].conditions[c].ctype == "Ready"
                  && pods[k].conditions[c].status != "True"
  {
    if k < |pods| {
      forall c | 0 <= c < |pods[k].conditions|
        ensures Unready(pods[k].conditions[c]) <==>
                pods[k].conditions[c].ctype == "Ready" && pods[k].conditions[c].status != "True"
      {
      }
    }
  }

  /** When a tick comes to nothing: the resource is gone or cannot be read, or all conditions are True and the pods
      of a role cannot be listed. Otherwise it is the status observed for the counts of the two roles. */
  lemma TickIsExact(r: Option<Resource>, ns: string, name: string, pods: seq<Pod>, e: Env)
    ensures var tick := Tick(r, ns, name, pods, e);
            && (tick == None <==>
                || r == None || e.Outcome(GetResource) != None
                || ((forall k :: 0 <= k < |r.value.status.conditions| ==>
                       r.value.status.conditions[k].status == ConditionTrue)
                    && (e.Outcome(ListPods(Controller)) != None || e.Outcome(ListPods(Broker)) != None)))
            && (tick.Some? ==>
                  tick.value == Observed(r.value, |Counted(pods, ns, RoleLabels(name, Controller))|,
                      |Counted(pods, ns, RoleLabels(name, Broker))|))
  {
    hide Observed, Counted, RoleLabels;
  }
}
