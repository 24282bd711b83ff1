/** The AutoMQ resource and its admission webhook (api/v1beta1). */
module AutoMQApi {
  import opened Basics

  datatype S3Spec = S3Spec(
    endpoint: string,
    region: string,
    accessKeyID: string,
    secretAccessKey: string,
    bucket: string,
    enablePathStyle: bool)

  /** An affinity rule is kept only for the type the webhook looks at. */
  datatype AffinitySpec = AffinitySpec(
    nodeAffinity: Option<string>,
    podAntiAffinity: Option<string>,
    podAffinity: Option<string>)

  datatype EnvVar =
    | Literal(name: string, value: string)
    | FieldRef(name: string, path: string)

  datatype Resources = Resources(requests: Option<map<string, string>>, limits: Option<map<string, string>>)

  /** ControllerSpec and BrokerSpec declare the same fields. `None` is Go's nil slice. */
  datatype RoleSpec = RoleSpec(
    replicas: int32,
    jvmOptions: Option<seq<string>>,
    envs: seq<EnvVar>,
    resources: Resources,
    affinity: Option<AffinitySpec>,
    storageClass: string)

  datatype AutoMQSpec = AutoMQSpec(
    s3: S3Spec,
    clusterID: string,
    image: string,
    nodePort: int32,
    metricsEnable: bool,
    controller: RoleSpec,
    broker: RoleSpec)

  datatype Phase = Unknown | Pending | Error | Ready | InProcess

  datatype ConditionStatus = ConditionTrue | ConditionFalse

  /** metav1.Condition without its message and transition time. */
  datatype Condition = Condition(
    ctype: string, status: ConditionStatus, observedGeneration: nat, reason: string)

  datatype AutoMQStatus = AutoMQStatus(
    phase: Phase,
    conditions: seq<Condition>,
    readyPods: int32,
    controllerReplicas: int32,
    brokerReplicas: int32,
    controllerAddresses: seq<string>,
    bootstrapInternalAddress: string)

  const EMPTY_STATUS := AutoMQStatus(Unknown, [], 0, 0, 0, [], "")

  const DEFAULT_IMAGE := "automqinc/automq:1.2.0"
  const DEFAULT_REGION := "us-east-1"
  const DEFAULT_CLUSTER_ID := "rZdE0DjZSrqy96PXrMUZVw"
  const DEFAULT_BUCKET := "ko3"
  const CONTROLLER_JVM := ["-Xms1g", "-Xmx1g", "-XX:MetaspaceSize=96m"]
  const BROKER_JVM := ["-Xms1g", "-Xmx1g", "-XX:MetaspaceSize=96m", "-XX:MaxDirectMemorySize=1G"]

  datatype Verdict = Admitted | Rejected(message: string)

  /** The resource object that the webhook and the reconciler update in place. */
  class AutoMQ {
    const name: string
    const namespace: string
    var spec: AutoMQSpec
    var status: AutoMQStatus
    var generation: nat
    var finalizer: bool
    var deleting: bool

    constructor (name: string, namespace: string, spec: AutoMQSpec, status: AutoMQStatus, generation: nat,
                 finalizer: bool, deleting: bool)
      ensures this.name == name && this.namespace == namespace && this.spec == spec && this.status == status
      ensures this.generation == generation && this.finalizer == finalizer && this.deleting == deleting
    {
      this.name, this.namespace, this.spec, this.status := name, namespace, spec, status;
      this.generation, this.finalizer, this.deleting := generation, finalizer, deleting;
    }

    /** The mutating webhook: fills in what the user left out, and nothing else. */
    method Default()
      modifies this`spec
      ensures spec == Defaulted(old(spec))
    {
      if spec.image == "" {
        spec := spec.(image := DEFAULT_IMAGE);
      }
      if spec.s3.region == "" {
        spec := spec.(s3 := spec.s3.(region := DEFAULT_REGION));
      }
      if spec.clusterID == "" {
        spec := spec.(clusterID := DEFAULT_CLUSTER_ID);
      }
      if spec.s3.bucket == "" {
        spec := spec.(s3 := spec.s3.(bucket := DEFAULT_BUCKET));
      }
      assert spec == DefaultedCluster(old(spec));
      DefaultRoles();
    }

    /** The second half of `Default`, on the two roles. */
    method DefaultRoles()
      modifies this`spec
      ensures spec == old(spec).(controller := DefaultedRole(old(spec.controller), CONTROLLER_JVM),
                                 broker := DefaultedRole(old(spec.broker), BROKER_JVM))
    {
      if spec.controller.jvmOptions == None {
        spec := spec.(controller := spec.controller.(jvmOptions := Some(CONTROLLER_JVM)));
      }
      if spec.controller.replicas == 0 {
        spec := spec.(controller := spec.controller.(replicas := 1));
      }
      assert spec.controller == DefaultedRole(old(spec.controller), CONTROLLER_JVM);
      if spec.broker.jvmOptions == None {
        spec := spec.(broker := spec.broker.(jvmOptions := Some(BROKER_JVM)));
      }
      if spec.broker.replicas == 0 {
        spec := spec.(broker := spec.broker.(replicas := 1));
      }
    }

    /** The validating webhook on an update: `previous` is the stored object. */
    method ValidateUpdate(previous: AutoMQ) returns (v: Verdict)
      ensures v == UpdateVerdict(spec, previous.spec)
    {
      if spec.s3.endpoint != previous.spec.s3.endpoint {
        return Rejected("field s3.Endpoint is immutable");
      }
      if spec.s3.region != previous.spec.s3.region {
        return Rejected("field s3.Region is immutable");
      }
      if spec.s3.bucket != previous.spec.s3.bucket {
        return Rejected("field s3.Bucket is immutable");
      }
      if spec.clusterID != previous.spec.clusterID {
        return Rejected("field clusterID is immutable");
      }
      if spec.controller.replicas != previous.spec.controller.replicas {
        return Rejected("field controller.replicas is immutable");
      }
      v := Validate(spec);
    }
  }

  function OrDefault(s: string, default: string): string {
    if s == "" then default else s
  }

  function DefaultedRole(r: RoleSpec, jvm: seq<string>): RoleSpec {
    r.(jvmOptions := if r.jvmOptions == None then Some(jvm) else r.jvmOptions,
       replicas := if r.replicas == 0 then 1 else r.replicas)
  }

  function DefaultedCluster(s: AutoMQSpec): AutoMQSpec {
    s.(image := OrDefault(s.image, DEFAULT_IMAGE),
       s3 := s.s3.(region := OrDefault(s.s3.region, DEFAULT_REGION), bucket := OrDefault(s.s3.bucket, DEFAULT_BUCKET)),
       clusterID := OrDefault(s.clusterID, DEFAULT_CLUSTER_ID))
  }

  function Defaulted(s: AutoMQSpec): AutoMQSpec {
    DefaultedCluster(s).(
       controller := DefaultedRole(s.controller, CONTROLLER_JVM),
       broker := DefaultedRole(s.broker, BROKER_JVM))
  }

  /** Defaulting, field by field: what is given is kept, what is missing becomes the documented value, and nothing
      else changes. */
  lemma DefaultingIsExact(s: AutoMQSpec)
    ensures var d := Defaulted(s);
            && d.image == (if s.image != "" then s.image else "automqinc/automq:1.2.0")
            && d.s3.region == (if s.s3.region != "" then s.s3.region else "us-east-1")
            && d.clusterID == (if s.clusterID != "" then s.clusterID else "rZdE0DjZSrqy96PXrMUZVw")
            && d.s3.bucket == (if s.s3.bucket != "" then s.s3.bucket else "ko3")
            && d.s3.endpoint == s.s3.endpoint && d.s3.accessKeyID == s.s3.accessKeyID
            && d.s3.secretAccessKey == s.s3.secretAccessKey && d.s3.enablePathStyle == s.s3.enablePathStyle
            && d.nodePort == s.nodePort && d.metricsEnable == s.metricsEnable
    ensures var d, jvm := Defaulted(s).controller, ["-Xms1g", "-Xmx1g", "-XX:MetaspaceSize=96m"];
            && d.jvmOptions == (if s.controller.jvmOptions != None then s.controller.jvmOptions else Some(jvm))
            && d.replicas == (if s.controller.replicas != 0 then s.controller.replicas else 1)
            && OthersKept(d, s.controller)
    ensures var d := Defaulted(s).broker;
            var jvm := ["-Xms1g", "-Xmx1g", "-XX:MetaspaceSize=96m", "-XX:MaxDirectMemorySize=1G"];
            && d.jvmOptions == (if s.broker.jvmOptions != None then s.broker.jvmOptions else Some(jvm))
            && d.replicas == (if s.broker.replicas != 0 then s.broker.replicas else 1)
            && OthersKept(d, s.broker)
  {
  }

  /** The fields of a role that defaulting has nothing to do with. */
  predicate OthersKept(d: RoleSpec, r: RoleSpec) {
    d.envs == r.envs && d.resources == r.resources && d.affinity == r.affinity && d.storageClass == r.storageClass
  }

  /** `len(options) == 0` holds of nil and of the empty slice. */
  predicate NoOptions(options: Option<seq<string>>) {
    options == None || options == Some([])
  }

  /** The shared check of both validating webhooks, in the source's order. */
  function Validate(s: AutoMQSpec): Verdict {
    if s.s3.endpoint == "" then Rejected("field s3.Endpoint is required")
    else if s.s3.region == "" then Rejected("field s3.Region is required")
    else if s.s3.bucket == "" then Rejected("field s3.Bucket is required")
    else if s.clusterID == "" then Rejected("field clusterID is required")
    else if s.image == "" then Rejected("field image is required")
    else if NoOptions(s.controller.jvmOptions) then Rejected("field controller.jvmOptions is required")
    else if NoOptions(s.broker.jvmOptions) then Rejected("field broker.jvmOptions is required")
    else if s.controller.affinity.Some? then
      var a := s.controller.affinity.value;
      if a.podAntiAffinity == Some("") then Rejected("field controller.affinity.podAntiAffinity.type is required")
      else if a.podAffinity == Some("") then Rejected("field controller.affinity.podAffinity.type is required")
      else if a.nodeAffinity == Some("") then Rejected("field controller.affinity.nodeAffinity.type is required")
      else Admitted
    else Admitted
  }

  /** The fields no update may change. */
  function Identity(s: AutoMQSpec): (string, string, string, string, int) {
    (s.s3.endpoint, s.s3.region, s.s3.bucket, s.clusterID, s.controller.replicas)
  }

  function UpdateVerdict(s: AutoMQSpec, previous: AutoMQSpec): (v: Verdict)
    ensures v == Admitted <==> Identity(s) == Identity(previous) && Validate(s) == Admitted
  {
    if s.s3.endpoint != previous.s3.endpoint then Rejected("field s3.Endpoint is immutable")
    else if s.s3.region != previous.s3.region then Rejected("field s3.Region is immutable")
    else if s.s3.bucket != previous.s3.bucket then Rejected("field s3.Bucket is immutable")
    else if s.clusterID != previous.clusterID then Rejected("field clusterID is immutable")
    else if s.controller.replicas != previous.controller.replicas then
      Rejected("field controller.replicas is immutable")
    else Validate(s)
  }

  /** What a spec may be refused for, with the field the user is told, in order. */
  function Defects(s: AutoMQSpec): seq<(bool, string)> {
    var a, jvm, jvm' := s.controller.affinity, s.controller.jvmOptions, s.broker.jvmOptions;
    [ (s.s3.endpoint == "", "field s3.Endpoint is required"),
      (s.s3.region == "", "field s3.Region is required"),
      (s.s3.bucket == "", "field s3.Bucket is required"),
      (s.clusterID == "", "field clusterID is required"),
      (s.image == "", "field image is required"),
      (jvm == None || jvm == Some([]), "field controller.jvmOptions is required"),
      (jvm' == None || jvm' == Some([]), "field broker.jvmOptions is required"),
      (a.Some? && a.value.podAntiAffinity == Some(""), "field controller.affinity.podAntiAffinity.type is required"),
      (a.Some? && a.value.podAffinity == Some(""), "field controller.affinity.podAffinity.type is required"),
      (a.Some? && a.value.nodeAffinity == Some(""), "field controller.affinity.nodeAffinity.type is required") ]
  }

  /** The fields no update may change. */
  function Changes(s: AutoMQSpec, previous: AutoMQSpec): seq<(bool, string)> {
    [ (s.s3.endpoint != previous.s3.endpoint, "field s3.Endpoint is immutable"),
      (s.s3.region != previous.s3.region, "field s3.Region is immutable"),
      (s.s3.bucket != previous.s3.bucket, "field s3.Bucket is immutable"),
      (s.clusterID != previous.clusterID, "field clusterID is immutable"),
      (s.controller.replicas != previous.controller.replicas, "field controller.replicas is immutable") ]
  }

  /** The verdict admits iff no defect applies, and names the first one that does. */
  ghost predicate Answers(v: Verdict, defects: seq<(bool, string)>) {
    match v
    case Admitted => forall k :: 0 <= k < |defects| ==> !defects[k].0
    case Rejected(message) =>
      exists k :: 0 <= k < |defects| && defects[k] == (true, message) && forall j :: 0 <= j < k ==> !defects[j].0
  }

  lemma Blames(v: Verdict, defects: seq<(bool, string)>, k: nat)
    requires k < |defects| && defects[k].0 && v == Rejected(defects[k].1) && forall j :: 0 <= j < k ==> !defects[j].0
    ensures Answers(v, defects)
  {
    assert defects[k] == (true, defects[k].1);
  }

  /** The validating webhook of a create request refuses nothing but these defects, and reports the first. */
  lemma ValidateIsExact(s: AutoMQSpec)
    ensures Answers(Validate(s), Defects(s))
  {
    var d := Defects(s);
    var k := if d[0].0 then 0 else if d[1].0 then 1 else if d[2].0 then 2 else if d[3].0 then 3 else if d[4].0 then 4
        else if d[5].0 then 5 else if d[6].0 then 6 else if d[7].0 then 7 else if d[8].0 then 8
        else if d[9].0 then 9 else 10;
    if k < 10 {
      Blames(Validate(s), d, k);
    }
  }

  /** That of an update request looks for forbidden changes first. */
  lemma UpdateVerdictIsExact(s: AutoMQSpec, previous: AutoMQSpec)
    ensures Answers(UpdateVerdict(s, previous), Changes(s, previous) + Defects(s))
  {
    var changes, d := Changes(s, previous), Changes(s, previous) + Defects(s);
    hide Defects, Validate;
    assert forall k :: 0 <= k < 5 ==> d[k] == changes[k];
    assert forall k :: 0 <= k < |Defects(s)| ==> d[5 + k] == Defects(s)[k];
    var first := if changes[0].0 then 0 else if changes[1].0 then 1 else if changes[2].0 then 2
        else if changes[3].0 then 3 else if changes[4].0 then 4 else 5;
    if first < 5 {
      Blames(UpdateVerdict(s, previous), d, first);
      return;
    }
    ValidateIsExact(s);
    assert UpdateVerdict(s, previous) == Validate(s);
    if Validate(s).Rejected? {
      var k :| 0 <= k < |Defects(s)| && Defects(s)[k] == (true, Validate(s).message)
          && forall j :: 0 <= j < k ==> !Defects(s)[j].0;
      Blames(Validate(s), d, |changes| + k);
    }
  }

  predicate UntypedAffinity(a: Option<AffinitySpec>) {
    a.Some? && (a.value.podAntiAffinity == Some("") || a.value.podAffinity == Some("") || a.value.nodeAffinity ==
        Some(""))
  }

  /** Defaulting is idempotent, and what it cannot repair is exactly an empty endpoint, an explicitly
      empty JVM option list, or an untyped affinity rule of the controllers. */
  lemma DefaultedVerdict(s: AutoMQSpec)
    ensures Defaulted(Defaulted(s)) == Defaulted(s)
    ensures Validate(Defaulted(s)) == Admitted <==>
            s.s3.endpoint != "" && s.controller.jvmOptions != Some([]) && s.broker.jvmOptions != Some([])
            && !UntypedAffinity(s.controller.affinity)
  {
  }

  /** The CRD schema's rule on replica counts (`minimum: 1`). */
  predicate SchemaOk(s: AutoMQSpec) {
    s.controller.replicas >= 1 && s.broker.replicas >= 1
  }

  /** A create request: defaulting, schema, validation. */
  function AdmitCreate(raw: AutoMQSpec): (r: Option<AutoMQSpec>)
    ensures r.Some? ==> Validate(r.value) == Admitted && SchemaOk(r.value) && r.value == Defaulted(r.value)
  {
    var s := Defaulted(raw);
    if SchemaOk(s) && Validate(s) == Admitted then Some(s) else None
  }

  /** An update request against the stored spec; a refused one leaves it as it was. */
  function AdmitUpdate(raw: AutoMQSpec, stored: AutoMQSpec): (r: Option<AutoMQSpec>)
    ensures r.Some? ==> Validate(r.value) == Admitted && SchemaOk(r.value) && Identity(r.value) == Identity(stored)
  {
    var s := Defaulted(raw);
    if SchemaOk(s) && UpdateVerdict(s, stored) == Admitted then Some(s) else None
  }

  /** Which requests are admitted and what is stored. A request with nothing missing is stored as it is; every other
      one as defaulting completes it; an update also has to leave the five fields alone. */
  lemma AdmissionIsExact(raw: AutoMQSpec, stored: AutoMQSpec)
    ensures AdmitCreate(raw).Some? <==>
            raw.s3.endpoint != "" && raw.controller.jvmOptions != Some([]) && raw.broker.jvmOptions != Some([])
            && !UntypedAffinity(raw.controller.affinity) && raw.controller.replicas >= 0 && raw.broker.replicas >= 0
    ensures AdmitUpdate(raw, stored).Some? <==>
            AdmitCreate(raw).Some? && forall k :: 0 <= k < 5 ==> !Changes(Defaulted(raw), stored)[k].0
    ensures AdmitCreate(raw) == None || AdmitCreate(raw) == Some(Defaulted(raw))
    ensures AdmitUpdate(raw, stored) == None || AdmitUpdate(raw, stored) == Some(Defaulted(raw))
    ensures raw.image != "" && raw.s3.region != "" && raw.s3.bucket != "" && raw.clusterID != ""
            && raw.controller.jvmOptions != None && raw.broker.jvmOptions != None
            && raw.controller.replicas != 0 && raw.broker.replicas != 0 ==>
              Defaulted(raw) == raw
  {
    DefaultedVerdict(raw);
    hide Validate;
    var changes := Changes(Defaulted(raw), stored);
    assert !changes[0].0 && !changes[1].0 && !changes[2].0 && !changes[3].0 && !changes[4].0 <==>
           forall k :: 0 <= k < 5 ==> !changes[k].0;
  }

  /** The stored spec after a series of update requests. */
  function AfterUpdates(stored: AutoMQSpec, raws: seq<AutoMQSpec>): AutoMQSpec
    decreases |raws|
  {
    if raws == [] then stored
    else
      var r := AdmitUpdate(raws[0], stored);
      AfterUpdates(if r.Some? then r.value else stored, raws[1..])
  }

  /** Admission over runs: whatever is requested, the stored spec stays valid and keeps the endpoint,
      region, bucket, cluster id and controller count it was created with. */
  lemma {:induction false} AdmissionKeepsIdentity(raw: AutoMQSpec, raws: seq<AutoMQSpec>)
    requires AdmitCreate(raw).Some?
    ensures var first, last := AdmitCreate(raw).value, AfterUpdates(AdmitCreate(raw).value, raws);
            && last.s3.endpoint == first.s3.endpoint && last.s3.region == first.s3.region
            && last.s3.bucket == first.s3.bucket && last.clusterID == first.clusterID
            && last.controller.replicas == first.controller.replicas
            && Validate(last) == Admitted && SchemaOk(last)
  {
    UpdatesKeepIdentity(AdmitCreate(raw).value, raws);
  }

  lemma {:induction false} UpdatesKeepIdentity(stored: AutoMQSpec, raws: seq<AutoMQSpec>)
    requires Validate(stored) == Admitted && SchemaOk(stored)
    ensures var last := AfterUpdates(stored, raws);
            Identity(last) == Identity(stored) && Validate(last) == Admitted && SchemaOk(last)
    decreases |raws|
  {
    if raws != [] {
      var r := AdmitUpdate(raws[0], stored);
      UpdatesKeepIdentity(if r.Some? then r.value else stored, raws[1..]);
    }
  }
}
