/** Whole runs: requests, reconciles and status tickers interleaved over one AutoMQ resource, alone in its
    namespace. */
module Runs {
  import opened Basics
  import opened AutoMQApi
  import opened Naming
  import opened Store
  import opened Templates
  import opened Pipeline
  import opened Effects
  import opened Passes
  import opened Conditions
  import opened Convergence
  import opened Isolation
  import opened StatusTicker
  import opened Lifecycle

  /** Which resource the run is about, and the operator's settings. */
  datatype Scope = Scope(ns: string, name: string, cfg: Settings)

  /** A status a ticker has read and not yet written back; `commits` is when it was read. */
  datatype Copy = Copy(status: AutoMQStatus, commits: nat)

  /** `flight` is the reconcile under way, `worked` says that its stages have run, `commits` counts the status writes
      of reconciles, and `admitted` and `read` are the specs stored, respectively read by some reconcile, so far. */
  datatype World = World(
    resource: Option<Resource>,
    objects: Objects,
    flight: Option<Flight>,
    worked: bool,
    tickers: map<nat, Copy>,
    commits: nat,
    admitted: set<AutoMQSpec>,
    read: set<AutoMQSpec>)

  datatype Event =
    | CreateRequest(raw: AutoMQSpec)
    | UpdateRequest(raw: AutoMQSpec)
    | DeleteRequest
    | ReconcileStart(e: Env)
    | ReconcileWork(e: Env)
    | ReconcileEnd(e: Env)
    | TickRead(id: nat, pods: seq<Pod>, e: Env)
    | TickWrite(id: nat, e: Env)
    | Restart

  function Start(w: World, c: Scope, e: Env): World {
    if w.flight.Some? || w.resource == None then w
    else if w.resource.value.deleting then
      var (s, r) := Finalize(w.objects, w.resource, c.ns, c.name, e);
      w.(objects := s, resource := r)
    else
      var (r, flight) := Begin(w.resource, c.ns, c.name, c.cfg, e);
      w.(resource := r, flight := flight, worked := false,
         read := w.read + (if flight.Some? then {flight.value.t.spec} else {}))
  }

  /** One event; an event that does not apply changes nothing. */
  function Step(w: World, ev: Event, c: Scope): World {
    match ev
    case CreateRequest(raw) =>
      var spec := AdmitCreate(raw);
      if w.resource == None && spec.Some? then
        w.(resource := Some(Resource(spec.value, EMPTY_STATUS, 1, false, false)), admitted := w.admitted + {spec.value})
      else w
    case UpdateRequest(raw) =>
      if w.resource == None then w
      else
        var r := w.resource.value;
        var spec := AdmitUpdate(raw, r.spec);
        if spec == None || spec.value == r.spec then w
        else w.(resource := Some(r.(spec := spec.value, generation := r.generation + 1)),
            admitted := w.admitted + {spec.value})
    case DeleteRequest =>
      if w.resource == None then w
      else if w.resource.value.finalizer then w.(resource := Some(w.resource.value.(deleting := true)))
      else w.(resource := None)
    case ReconcileStart(e) => Start(w, c, e)
    case ReconcileWork(e) =>
      if w.flight == None || w.worked then w
      else
        var (s, st) := Pass(w.objects, w.flight.value.status, w.flight.value.t, e);
        w.(objects := s, flight := Some(w.flight.value.(status := st)), worked := true)
    case ReconcileEnd(e) =>
      if w.flight == None || !w.worked then w
      else w.(resource := WriteBack(w.resource, w.flight.value.status, e), flight := None, worked := false,
          commits := w.commits + 1)
    case TickRead(id, pods, e) =>
      (match Tick(w.resource, c.ns, c.name, pods, e)
       case Some(st) => w.(tickers := w.tickers[id := Copy(st, w.commits)])
       case None => w)
    case TickWrite(id, e) =>
      if id in w.tickers then w.(resource := WriteBack(w.resource, w.tickers[id].status, e),
          tickers := w.tickers - {id}) else w
    case Restart => w.(flight := None, worked := false, tickers := map[])
  }

  function Run(w: World, events: seq<Event>, c: Scope): World {
    if events == [] then w else Step(Run(w, events[..|events| - 1], c), events[|events| - 1], c)
  }

  /** An undisturbed reconcile is three consecutive events. */
  lemma ReconcileIsThreeEvents(w: World, c: Scope, e: Env)
    requires w.flight == None
    ensures var w' := Step(Step(Step(w, ReconcileStart(e), c), ReconcileWork(e), c), ReconcileEnd(e), c);
            (w'.objects, w'.resource) == ReconcileOnce(w.objects, w.resource, c.ns, c.name, c.cfg, e)
  {
    hide Pass, Cleanup, TargetOf, AdmitCreate, AdmitUpdate, Tick;
  }

  /******* What belongs to the resource *******/

  /** The kinds whose orphans are ruled out: a broker's Deployment is among them only in a `growing` run, one that
      never lowers the broker count. */
  function TrackedKinds(role: Role, growing: bool): set<Kind> {
    if growing || role == Controller then NODE_KINDS else {ClaimKind, ServiceKind}
  }

  /** An object of a node whose orphans are ruled out. */
  predicate IsTracked(key: Key, ns: string, growing: bool) {
    match ParseName(key.name)
    case Some((role, i)) =>
      key.ns == ns && 0 <= i && key.name == IndexedName(role, i) && key.kind in TrackedKinds(role, growing)
    case None => false
  }

  predicate IsOwned(key: Key, c: Scope, growing: bool) {
    IsTracked(key, c.ns, growing) || key == BootstrapKey(c.ns) || key == Key(ConfigMapKind, c.ns, c.name)
  }

  ghost predicate NothingOwned(s: Objects, c: Scope, growing: bool) {
    forall key :: key in s ==> !IsOwned(key, c, growing)
  }

  /** Every tracked object of `role` has an index below `n`. */
  ghost predicate Below(s: Objects, ns: string, role: Role, n: int, growing: bool) {
    forall key :: key in s && IsTracked(key, ns, growing) && ParseName(key.name).value.0 == role ==>
        ParseName(key.name).value.1 < n
  }

  /** No orphans, going by the counts a status records. */
  ghost predicate Covered(s: Objects, ns: string, st: AutoMQStatus, growing: bool) {
    Below(s, ns, Controller, st.controllerReplicas, growing) && Below(s, ns, Broker, st.brokerReplicas, growing)
  }

  /** Neither resource nor operator activity yet; the cluster may hold anything that belongs to nobody. */
  ghost predicate Blank(w: World) {
    w.resource == None && w.flight == None && !w.worked && w.tickers == map[] && w.admitted == {} && w.read == {}
  }

  ghost predicate Initial(w: World, c: Scope, growing: bool) {
    Blank(w) && NothingOwned(w.objects, c, growing)
  }

  /******* Status coherence, under every interleaving *******/

  /** Each condition type occurs at most once; the counts are those of one spec some reconcile read, or zero; the
      addresses are the voters of the recorded controllers; and a Ready phase comes with the pod count some stored
      spec asks for. */
  ghost predicate Coherent(st: AutoMQStatus, ns: string, admitted: set<AutoMQSpec>, read: set<AutoMQSpec>) {
    && UniqueTypes(st.conditions)
    && st.controllerAddresses == Voters(ns, st.controllerReplicas)
    && ((st.controllerReplicas == 0 && st.brokerReplicas == 0)
        || exists spec :: spec in read && spec.controller.replicas == st.controllerReplicas
            && spec.broker.replicas == st.brokerReplicas)
    && (st.phase == Ready ==>
          exists spec :: spec in admitted && st.readyPods == Wrap32(spec.controller.replicas + spec.broker.replicas))
  }

  ghost predicate AllCoherent(w: World, c: Scope) {
    && (w.resource.Some? ==>
          Coherent(w.resource.value.status, c.ns, w.admitted, w.read) && w.resource.value.spec in w.admitted)
    && (w.flight.Some? ==>
          Coherent(w.flight.value.status, c.ns, w.admitted, w.read) && w.flight.value.t.spec in w.read
          && w.flight.value.t.ns == c.ns)
    && (forall id :: id in w.tickers ==> Coherent(w.tickers[id].status, c.ns, w.admitted, w.read))
    && w.read <= w.admitted
  }

  lemma CoherentLater(st: AutoMQStatus, ns: string, admitted: set<AutoMQSpec>, read: set<AutoMQSpec>,
                      admitted': set<AutoMQSpec>, read': set<AutoMQSpec>)
    requires Coherent(st, ns, admitted, read) && admitted <= admitted' && read <= read'
    ensures Coherent(st, ns, admitted', read')
  {
  }

  lemma ObservedCoherent(r: Resource, ns: string, admitted: set<AutoMQSpec>, read: set<AutoMQSpec>, c: int, b: int)
    requires Coherent(r.status, ns, admitted, read) && r.spec in admitted
    ensures Coherent(Observed(r, c, b), ns, admitted, read)
  {
    hide Wrap32, Voters, UniqueTypes;
  }

  lemma PassCoherent(s: Objects, st: AutoMQStatus, t: Target, e: Env, admitted: set<AutoMQSpec>, read: set<AutoMQSpec>)
    requires Coherent(st, t.ns, admitted, read) && t.spec in read
    ensures Coherent(Pass(s, st, t, e).1, t.ns, admitted, read)
  {
    hide Pass, Voters, Wrap32, BootstrapAddress, UniqueTypes, Stages, StageSucceeds, Reports;
    PassStatus(s, st, t, e);
    PassConditions(s, st, t, e, 0);
  }

  lemma StartCoherent(w: World, c: Scope, e: Env)
    requires AllCoherent(w, c)
    ensures AllCoherent(Start(w, c, e), c)
  {
    hide Cleanup, Coherent;
    var w' := Start(w, c, e);
    forall st | Coherent(st, c.ns, w.admitted, w.read) ensures Coherent(st, c.ns, w'.admitted, w'.read) {
      CoherentLater(st, c.ns, w.admitted, w.read, w'.admitted, w'.read);
    }
  }

  lemma StepCoherent(w: World, ev: Event, c: Scope)
    requires AllCoherent(w, c)
    ensures AllCoherent(Step(w, ev, c), c)
  {
    hide Start, Pass, Cleanup, Voters, Wrap32, Coherent, Counted, AdmitCreate, AdmitUpdate, Observed;
    if ev.ReconcileStart? {
      StartCoherent(w, c, ev.e);
      return;
    }
    var w' := Step(w, ev, c);
    forall st | Coherent(st, c.ns, w.admitted, w.read) ensures Coherent(st, c.ns, w'.admitted, w'.read) {
      CoherentLater(st, c.ns, w.admitted, w.read, w'.admitted, w'.read);
    }
    EmptyCoherent(c.ns, w'.admitted, w'.read);
    match ev
    case CreateRequest(_) =>
    case UpdateRequest(_) =>
    case DeleteRequest =>
    case ReconcileWork(e) =>
      if w.flight.Some? && !w.worked {
        PassCoherent(w.objects, w.flight.value.status, w.flight.value.t, e, w.admitted, w.read);
      }
    case ReconcileEnd(_) =>
    case TickRead(_, pods, _) =>
      if w.resource.Some? {
        ObservedCoherent(w.resource.value, c.ns, w.admitted, w.read, |Counted(pods, c.ns, RoleLabels(c.name,
            Controller))|,
                         |Counted(pods, c.ns, RoleLabels(c.name, Broker))|);
      }
    case TickWrite(_, _) =>
    case Restart =>
  }

  lemma EmptyCoherent(ns: string, admitted: set<AutoMQSpec>, read: set<AutoMQSpec>)
    ensures Coherent(EMPTY_STATUS, ns, admitted, read)
  {
  }

  /** Status coherence: whatever the interleaving of requests, reconciles, faults, restarts and any number of tickers
      with stale copies, the persisted status is coherent. */
  lemma {:induction false} StatusStaysCoherent(w: World, events: seq<Event>, c: Scope)
    requires Blank(w)
    ensures AllCoherent(Run(w, events, c), c)
  {
    hide Step;
    if events != [] {
      StatusStaysCoherent(w, events[..|events| - 1], c);
      StepCoherent(Run(w, events[..|events| - 1], c), events[|events| - 1], c);
    }
  }

  /******* No orphans, and the finalizer guards what exists *******/

  /** A reconcile is about to work that scales the brokers down. */
  predicate Lowers(w: World, ev: Event) {
    ev.ReconcileWork? && w.flight.Some?
    && w.flight.value.status.brokerReplicas > w.flight.value.t.spec.broker.replicas
  }

  /** The run assumptions: deletes take effect, the final status write of a reconcile takes effect, a ticker does not
      write back a status read before the last such write, no reconcile that lowers the broker count is cut short by
      the bucket or ConfigMap stage, and the operator does not die between a reconcile's work and its status write. */
  ghost predicate Orderly(w: World, ev: Event, c: Scope) {
    match ev
    case ReconcileStart(e) => e.DeletesWork()
    case ReconcileWork(e) =>
      e.DeletesWork() && (Lowers(w, ev) ==> e.ReachesScaling(w.flight.value.t.ConfigMapKey()))
    case ReconcileEnd(e) => e.Outcome(WriteStatus) != Some(Refused)
    case TickWrite(id, _) => id in w.tickers ==> w.tickers[id].commits == w.commits
    case Restart => !w.worked
    case _ => true
  }

  ghost predicate OrderlyRun(w: World, events: seq<Event>, c: Scope, growing: bool) {
    events == []
    || var before, last := Run(w, events[..|events| - 1], c), events[|events| - 1];
       OrderlyRun(w, events[..|events| - 1], c, growing) && Orderly(before, last, c)
       && (growing ==> !Lowers(before, last))
  }

  /** The flight works on the resource as it is, apart from the broker side of the spec. */
  ghost predicate FlightMatches(w: World, c: Scope) {
    w.flight.Some? ==>
      w.resource.Some? && w.resource.value.finalizer
      && w.flight.value.t.ns == c.ns && w.flight.value.t.name == c.name
      && w.flight.value.t.spec.controller.replicas == w.resource.value.spec.controller.replicas
  }

  /** What every orderly step keeps. */
  ghost predicate Safe(w: World, c: Scope, growing: bool) {
    && FlightMatches(w, c)
    && (w.worked ==> w.flight.Some?)
    // what is owned is guarded
    && ((w.resource == None || !w.resource.value.finalizer) ==> NothingOwned(w.objects, c, growing))
    // controllers stay below the immutable count
    && (w.resource.Some? ==> Below(w.objects, c.ns, Controller, w.resource.value.spec.controller.replicas, growing))
    // what is owned is recorded, in every status that may yet be written
    && (w.worked ==> Covered(w.objects, c.ns, w.flight.value.status, growing))
    && (!w.worked ==>
          && (w.resource.Some? ==> Covered(w.objects, c.ns, w.resource.value.status, growing))
          && (w.flight.Some? ==> Covered(w.objects, c.ns, w.flight.value.status, growing))
          && forall id :: id in w.tickers && w.tickers[id].commits == w.commits ==>
              Covered(w.objects, c.ns, w.tickers[id].status, growing))
    && forall id :: id in w.tickers ==> w.tickers[id].commits <= w.commits
  }

  lemma NothingCovered(s: Objects, c: Scope, st: AutoMQStatus, n: int, growing: bool)
    requires NothingOwned(s, c, growing)
    ensures Covered(s, c.ns, st, growing)
    ensures Below(s, c.ns, Controller, n, growing) && Below(s, c.ns, Broker, n, growing)
  {
    hide IsTracked;
  }

  /** A pass that may finish brings the tracked objects below the counts it records. */
  lemma PassCovered(s: Objects, st: AutoMQStatus, t: Target, e: Env, growing: bool)
    requires Covered(s, t.ns, st, growing) && Below(s, t.ns, Controller, t.spec.controller.replicas, growing)
    requires e.DeletesWork()
    requires st.brokerReplicas > t.spec.broker.replicas ==> e.ReachesScaling(t.ConfigMapKey()) && !growing
    ensures var (s', st') := Pass(s, st, t, e);
            Covered(s', t.ns, st', growing) && Below(s', t.ns, Controller, t.spec.controller.replicas, growing)
  {
    hide Pass, IndexedName, Refreshed;
    var (s', st') := Pass(s, st, t, e);
    forall key | key in s' && IsTracked(key, t.ns, growing)
      ensures ParseName(key.name).value.1 < t.Replicas(ParseName(key.name).value.0)
    {
      PassTracked(s, st, t, e, key, growing);
    }
  }

  lemma PassTracked(s: Objects, st: AutoMQStatus, t: Target, e: Env, key: Key, growing: bool)
    requires Covered(s, t.ns, st, growing) && Below(s, t.ns, Controller, t.spec.controller.replicas, growing)
    requires e.DeletesWork()
    requires st.brokerReplicas > t.spec.broker.replicas ==> e.ReachesScaling(t.ConfigMapKey()) && !growing
    requires key in Pass(s, st, t, e).0 && IsTracked(key, t.ns, growing)
    ensures ParseName(key.name).value.1 < t.Replicas(ParseName(key.name).value.0)
  {
    hide Pass, IndexedName, Refreshed;
    var (role, i) := ParseName(key.name).value;
    var _ := PassAt(s, st, t, e, key);
    if i >= t.Replicas(role) {
      TrackedNotDesired(t, key, growing);
      assert key in s;
      assert role == Broker && IsNode(key, t.ns, Broker, t.Replicas(Broker), st.brokerReplicas);
      PassErases(s, st, t, e, key);
    }
  }

  lemma TrackedNotDesired(t: Target, key: Key, growing: bool)
    requires IsTracked(key, t.ns, growing) && ParseName(key.name).value.1 >= t.Replicas(ParseName(key.name).value.0)
    ensures !Desired(t, key)
  {
    hide ParseName, IndexedName;
  }

  /** A cleanup whose deletes work, guided by a status that covers the cluster, leaves nothing. */
  lemma CleanupCovers(s: Objects, st: AutoMQStatus, c: Scope, e: Env, growing: bool)
    requires Covered(s, c.ns, st, growing) && e.DeletesWork()
    ensures var s' := Cleanup(s, st, c.ns, c.name, e).0;
            NothingOwned(s', c, growing) && (forall key :: key in s' ==> key in s)
  {
    hide Cleanup, IndexedName;
    var s' := Cleanup(s, st, c.ns, c.name, e).0;
    forall key | key in s' ensures key in s && !IsOwned(key, c, growing) {
      CleanupAt(s, st, c.ns, c.name, e, key);
    }
  }

  lemma SafeStart(w: World, c: Scope, e: Env, growing: bool)
    requires Safe(w, c, growing) && e.DeletesWork()
    ensures Safe(Start(w, c, e), c, growing)
  {
    hide Cleanup, Covered, Below, NothingOwned;
    if w.flight == None && w.resource.Some? && w.resource.value.deleting && e.Outcome(GetResource) == None {
      CleanupCovers(w.objects, w.resource.value.status, c, e, growing);
      var s' := Cleanup(w.objects, w.resource.value.status, c.ns, c.name, e).0;
      forall st ensures Covered(s', c.ns, st, growing) {
        NothingCovered(s', c, st, 0, growing);
      }
      forall n ensures Below(s', c.ns, Controller, n, growing) {
        NothingCovered(s', c, EMPTY_STATUS, n, growing);
      }
    }
  }

  lemma SafeStep(w: World, ev: Event, c: Scope, growing: bool)
    requires Safe(w, c, growing) && Orderly(w, ev, c) && (growing ==> !Lowers(w, ev))
    ensures Safe(Step(w, ev, c), c, growing)
  {
    hide Start, Pass, Covered, Below, NothingOwned, Counted, AdmitCreate, AdmitUpdate, Observed;
    match ev
    case CreateRequest(raw) =>
      if w.resource == None && AdmitCreate(raw).Some? {
        NothingCovered(w.objects, c, EMPTY_STATUS, AdmitCreate(raw).value.controller.replicas, growing);
      }
    case UpdateRequest(_) =>
    case DeleteRequest =>
    case ReconcileStart(e) =>
      SafeStart(w, c, e, growing);
    case ReconcileWork(e) =>
      if w.flight.Some? && !w.worked {
        PassCovered(w.objects, w.flight.value.status, w.flight.value.t, e, growing);
      }
    case ReconcileEnd(_) =>
    case TickRead(_, pods, _) =>
      if w.resource.Some? {
        ObservedCovers(w.objects, c.ns, w.resource.value, |Counted(pods, c.ns, RoleLabels(c.name, Controller))|,
                       |Counted(pods, c.ns, RoleLabels(c.name, Broker))|, growing);
      }
    case TickWrite(_, _) =>
    case Restart =>
  }

  lemma ObservedCovers(s: Objects, ns: string, r: Resource, c: int, b: int, growing: bool)
    ensures Covered(s, ns, Observed(r, c, b), growing) <==> Covered(s, ns, r.status, growing)
  {
    hide Below, Wrap32;
  }

  lemma {:induction false} RunIsSafe(w: World, events: seq<Event>, c: Scope, growing: bool)
    requires Initial(w, c, growing) && OrderlyRun(w, events, c, growing)
    ensures Safe(Run(w, events, c), c, growing)
  {
    hide Step, Orderly;
    if events == [] {
      hide IsOwned;
    } else {
      RunIsSafe(w, events[..|events| - 1], c, growing);
      SafeStep(Run(w, events[..|events| - 1], c), events[|events| - 1], c, growing);
    }
  }

  /** No orphans: between the reconciles of any orderly run, every tracked object has an index below the count the
      persisted status records for its role; without a resource, nothing it owned is left. The Deployments of brokers
      are covered as well when no reconcile of the run lowers the broker count. */
  lemma NoOrphans(w: World, events: seq<Event>, c: Scope, growing: bool, key: Key)
    requires Initial(w, c, growing) && OrderlyRun(w, events, c, growing)
    ensures var w' := Run(w, events, c);
            w'.flight == None && key in w'.objects && IsOwned(key, c, growing) ==>
              w'.resource.Some?
              && (IsTracked(key, c.ns, growing) ==>
                    ParseName(key.name).value.1 < RecordedReplicas(w'.resource.value.status,
                        ParseName(key.name).value.0))
  {
    hide Run, ParseName, IndexedName, FlightMatches;
    RunIsSafe(w, events, c, growing);
  }

  /** Finalizer safety: at any point of an orderly run, what the resource owns exists only while the resource is
      stored with its finalizer. */
  lemma FinalizerGuards(w: World, events: seq<Event>, c: Scope, growing: bool, key: Key)
    requires Initial(w, c, growing) && OrderlyRun(w, events, c, growing)
    ensures var w' := Run(w, events, c);
            key in w'.objects && IsOwned(key, c, growing) ==> w'.resource.Some? && w'.resource.value.finalizer
  {
    hide Run, IsOwned, FlightMatches;
    RunIsSafe(w, events, c, growing);
  }
}
