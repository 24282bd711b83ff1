/** One call of `Reconcile`, as a function of the stored resource and the cluster. */
module Lifecycle {
  import opened Basics
  import opened AutoMQApi
  import opened Store
  import opened Templates
  import opened Pipeline
  import opened StatusTicker

  /** The operator's own settings. */
  datatype Settings = Settings(mountTZ: bool, apisIP: string, script: string)

  function TargetOf(r: Resource, ns: string, name: string, cfg: Settings): Target {
    Target(ns, name, r.generation, r.spec, cfg.mountTZ, cfg.apisIP, cfg.script)
  }

  /** A reconcile under way: the resource it read and the status it will work on. */
  datatype Flight = Flight(t: Target, status: AutoMQStatus)

  /** The first half of `Reconcile` on a live resource: read it and persist the finalizer before anything else. */
  function Begin(r: Option<Resource>, ns: string, name: string, cfg: Settings, e: Env): (Option<Resource>,
      Option<Flight>) {
    if r == None || e.Outcome(GetResource) != None || r.value.deleting then (r, None)
    else
      var kept := r.value.(finalizer := true);
      match e.Outcome(UpdateResource)
      case Some(Refused) => (r, None)
      case Some(LostReply) => (Some(kept), None)
      case None => (Some(kept), Some(Flight(TargetOf(kept, ns, name, cfg), kept.status)))
  }

  /** `Reconcile` on a resource under deletion: clean up, then drop the finalizer, which removes the resource. */
  function Finalize(s: Objects, r: Option<Resource>, ns: string, name: string, e: Env): (Objects, Option<Resource>) {
    if r == None || e.Outcome(GetResource) != None || !r.value.deleting then (s, r)
    else
      var (s', ok) := Cleanup(s, r.value.status, ns, name, e);
      if !ok || e.Outcome(UpdateResource) == Some(Refused) then (s', r) else (s', None)
  }

  /** An undisturbed call of `Reconcile`. */
  function ReconcileOnce(s: Objects, r: Option<Resource>, ns: string, name: string, cfg: Settings, e: Env)
    : (Objects, Option<Resource>)
  {
    if r.Some? && r.value.deleting then Finalize(s, r, ns, name, e)
    else
      var (r', flight) := Begin(r, ns, name, cfg, e);
      if flight == None then (s, r')
      else
        var (s', st) := Pass(s, flight.value.status, flight.value.t, e);
        (s', WriteBack(r', st, e))
  }

  /** An undisturbed call of `statusReconcile`. */
  function TickOnce(r: Option<Resource>, ns: string, name: string, pods: seq<Pod>, e: Env): Option<Resource> {
    match Tick(r, ns, name, pods, e)
    case Some(st) => WriteBack(r, st, e)
    case None => r
  }
}
