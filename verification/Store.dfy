/** The API server as the reconciler sees it: objects by key, and calls that may fail. */
module Store {
  import opened Basics
  import opened AutoMQApi
  import opened Naming

  datatype ServiceType = ClusterIP | NodePort

  datatype ServicePort = ServicePort(name: string, port: int, targetPort: string, nodePort: int)

  /** The inputs a pod template is filled from. */
  datatype Template = Template(
    labels: Labels,
    annotations: map<string, string>,
    containerName: string,
    portName: string,
    containerPort: int,
    command: string,
    env: seq<EnvVar>,
    claimName: string,
    scriptConfigMap: string,
    resources: Resources,
    mountTZ: bool)

  datatype Obj =
    | Service(labels: Labels, selector: Labels, ports: seq<ServicePort>, svcType: ServiceType)
    | Deployment(labels: Labels, selector: Labels, template: Template)
    | StatefulSet
    | Claim(labels: Labels, storageClass: Option<string>, accessModes: seq<string>, request: string)
    | ConfigMap(data: map<string, string>)

  type Objects = map<Key, Obj>

  function Lookup(objects: Objects, key: Key): Option<Obj> {
    if key in objects then Some(objects[key]) else None
  }

  /** A failing call is refused, or it takes effect and only its reply is lost. */
  datatype Fault = Refused | LostReply

  /** The calls of one pass; each is made at most once, its retries on conflict counted as one call. */
  datatype Call =
    | Apply(key: Key)
    | Fetch(key: Key)
    | Remove(key: Key)
    | GetResource
    | UpdateResource
    | WriteStatus
    | ListPods(role: Role)

  /** Everything the outside world decides during one pass. */
  datatype Env = Env(
    newBucketFails: bool,
    mkBucketError: Option<string>,
    assetFails: bool,
    faults: map<Call, Fault>,
    allocate: Key -> int)
  {
    function Outcome(c: Call): Option<Fault> {
      if c in faults then Some(faults[c]) else None
    }

    /** Bucket creation counts as done when the bucket is there already. */
    predicate BucketMade() {
      !newBucketFails && (mkBucketError.Some? ==> Contains(mkBucketError.value, "BucketAlready"))
    }

    predicate ReachesScaling(configMapKey: Key) {
      BucketMade() && !assetFails && Outcome(Apply(configMapKey)) == None
    }

    /** Nothing goes wrong. */
    predicate Clean() {
      BucketMade() && !assetFails && faults == map[]
    }

    /** Deletes take effect (their replies are ignored anyway). */
    ghost predicate DeletesWork() {
      forall key :: Outcome(Remove(key)) != Some(Refused)
    }

    /** The allocator hands out real ports. */
    ghost predicate AllocatesPorts() {
      forall key :: allocate(key) > 0
    }
  }

  /** A create or an update. */
  function Put(objects: Objects, key: Key, obj: Obj, env: Env): (Objects, bool) {
    match env.Outcome(Apply(key))
    case None => (objects[key := obj], true)
    case Some(Refused) => (objects, false)
    case Some(LostReply) => (objects[key := obj], false)
  }

  /** A delete whose result the caller drops. */
  function Erase(objects: Objects, key: Key, env: Env): Objects {
    if env.Outcome(Remove(key)) == Some(Refused) then objects else objects - {key}
  }

  /** A persisted AutoMQ resource. Spec and status are written by separate calls. */
  datatype Resource = Resource(
    spec: AutoMQSpec, status: AutoMQStatus, generation: nat, finalizer: bool, deleting: bool)

  class Cluster {
    var objects: Objects
    var resources: map<(string, string), Resource>

    constructor (objects: Objects, resources: map<(string, string), Resource>)
      ensures this.objects == objects && this.resources == resources
    {
      this.objects, this.resources := objects, resources;
    }

    method Write(key: Key, obj: Obj, env: Env) returns (ok: bool)
      modifies this`objects
      ensures (objects, ok) == Put(old(objects), key, obj, env)
    {
      var fault := env.Outcome(Apply(key));
      if fault != Some(Refused) {
        objects := objects[key := obj];
      }
      ok := fault == None;
    }

    method Delete(key: Key, env: Env)
      modifies this`objects
      ensures objects == Erase(old(objects), key, env)
    {
      if env.Outcome(Remove(key)) != Some(Refused) {
        objects := objects - {key};
      }
    }
  }
}
