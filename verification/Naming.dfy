/** Names, labels and node ids of the objects the operator owns
    (internal/controller/automq_controller.go, the pure part). */
module Naming {
  import opened Basics

  datatype Role = Controller | Broker {
    function Name(): string {
      if this == Controller then "controller" else "broker"
    }
  }

  datatype Kind = ServiceKind | DeploymentKind | StatefulSetKind | ClaimKind | ConfigMapKind

  datatype Key = Key(kind: Kind, ns: string, name: string)

  /** getAutoMQName; `None` is Go's nil index. */
  function GetAutoMQName(role: string, index: Option<int>): string {
    if index.Some? then "automq-" + role + ("-" + PrintInt(index.value)) else "automq-" + role
  }

  const CONTROLLER_PREFIX := "automq-controller-"
  const BROKER_PREFIX := "automq-broker-"

  /** Reads a role and an index back from a name. */
  function ParseName(name: string): Option<(Role, int)> {
    if CONTROLLER_PREFIX <= name then
      match ParseInt(name[|CONTROLLER_PREFIX|..])
      case Some(i) => Some((Controller, i))
      case None => None
    else if BROKER_PREFIX <= name then
      match ParseInt(name[|BROKER_PREFIX|..])
      case Some(i) => Some((Broker, i))
      case None => None
    else None
  }

  lemma ParseControllerName(rest: string)
    ensures ParseName(CONTROLLER_PREFIX + rest) ==
            match ParseInt(rest) case Some(i) => Some((Controller, i)) case None => None
  {
    hide ParseInt;
    assert (CONTROLLER_PREFIX + rest)[|CONTROLLER_PREFIX|..] == rest;
  }

  lemma ParseBrokerName(rest: string)
    ensures ParseName(BROKER_PREFIX + rest) == match ParseInt(rest) case Some(i) => Some((Broker, i)) case None => None
  {
    hide ParseInt;
    var name := BROKER_PREFIX + rest;
    assert name[|BROKER_PREFIX|..] == rest;
    assert name[7] == 'b' && CONTROLLER_PREFIX[7] == 'c';
  }

  lemma IndexedNameIs(role: Role, i: int)
    ensures GetAutoMQName(role.Name(), Some(i)) ==
            (if role == Controller then CONTROLLER_PREFIX else BROKER_PREFIX) + PrintInt(i)
  {
    hide PrintInt;
    assert "automq-" + role.Name() + ("-" + PrintInt(i)) == "automq-" + role.Name() + "-" + PrintInt(i);
    assert "automq-" + role.Name() + "-" == if role == Controller then CONTROLLER_PREFIX else BROKER_PREFIX;
  }

  /** The name of a node's objects determines the role and the index. */
  function IndexedName(role: Role, i: int): (name: string)
    ensures ParseName(name) == Some((role, i))
  {
    hide ParseName, ParseInt;
    IndexedNameIs(role, i);
    ParseControllerName(PrintInt(i));
    ParseBrokerName(PrintInt(i));
    GetAutoMQName(role.Name(), Some(i))
  }

  lemma ControllerNameIs(i: int)
    ensures IndexedName(Controller, i) == CONTROLLER_PREFIX + PrintInt(i)
  {
    hide ParseName, ParseInt, PrintInt;
    IndexedNameIs(Controller, i);
  }

  /** The bootstrap Service's name is never the name of a node. */
  function BootstrapName(): (name: string)
    ensures ParseName(name) == None
  {
    var name := GetAutoMQName(Broker.Name() + "-bootstrap", None);
    assert name == BROKER_PREFIX + "bootstrap";
    assert !IsDigit("bootstrap"[0]);
    ParseBrokerName("bootstrap");
    name
  }

  function NodeKey(kind: Kind, ns: string, role: Role, i: int): (k: Key)
    ensures k.kind == kind && k.ns == ns && ParseName(k.name) == Some((role, i))
  {
    Key(kind, ns, IndexedName(role, i))
  }

  function BootstrapKey(ns: string): (k: Key)
    ensures k.kind == ServiceKind && k.ns == ns && ParseName(k.name) == None
  {
    Key(ServiceKind, ns, BootstrapName())
  }

  /** The key of an object determines kind, namespace, role and index, and the bootstrap Service
      shares its key with no node. */
  lemma KeysAreInjective(k: Kind, ns: string, r: Role, i: int, k': Kind, ns': string, r': Role, i': int)
    ensures NodeKey(k, ns, r, i) == NodeKey(k', ns', r', i') <==> (k, ns, r, i) == (k', ns', r', i')
    ensures NodeKey(k, ns, r, i) != BootstrapKey(ns')
    ensures BootstrapKey(ns) == BootstrapKey(ns') <==> ns == ns'
  {
  }

  /******* Labels *******/

  type Labels = map<string, string>

  const OWNER_LABEL := "app.kubernetes.io/owner-by"
  const COMPONENT_LABEL := "app.kubernetes.io/component"
  const INSTANCE_LABEL := "app.kubernetes.io/instance"
  const ROLE_LABEL := "app.kubernetes.io/role"
  const INDEX_LABEL := "app.kubernetes.io/index"

  /** getAutoMQLabelMap. */
  function GetAutoMQLabelMap(name: string, role: string): Labels {
    var common := map[OWNER_LABEL := "automq", COMPONENT_LABEL := "autpmq-operator", INSTANCE_LABEL := name];
    if role == "" then common else common[ROLE_LABEL := role]
  }

  function RoleLabels(name: string, role: Role): Labels {
    GetAutoMQLabelMap(name, role.Name())
  }

  function NodeLabels(name: string, role: Role, i: int): Labels {
    RoleLabels(name, role)[INDEX_LABEL := PrintInt(i)]
  }

  /** Kubernetes' equality-based label selection. */
  predicate Selects(selector: Labels, labels: Labels) {
    forall key :: key in selector ==> key in labels && labels[key] == selector[key]
  }

  /** The five label keys differ from one another. */
  lemma LabelKeysDiffer()
    ensures OWNER_LABEL != COMPONENT_LABEL
    ensures ROLE_LABEL !in {OWNER_LABEL, COMPONENT_LABEL, INSTANCE_LABEL, INDEX_LABEL}
    ensures INDEX_LABEL !in {OWNER_LABEL, COMPONENT_LABEL, INSTANCE_LABEL}
    ensures INSTANCE_LABEL !in {OWNER_LABEL, COMPONENT_LABEL}
  {
    assert OWNER_LABEL[18] == 'o' && COMPONENT_LABEL[18] == 'c' && ROLE_LABEL[18] == 'r';
    assert INSTANCE_LABEL[18..20] == "in" && INDEX_LABEL[18..20] == "in";
    assert INSTANCE_LABEL[20] == 's' && INDEX_LABEL[20] == 'd';
  }

  /** A node selector picks the pods of its own role and index and no other; a role selector picks every
      pod of its role and none of the other role. */
  lemma RoutingIsExact(name: string, role: Role, i: int, role': Role, i': int)
    ensures Selects(NodeLabels(name, role, i), NodeLabels(name, role', i')) <==> role == role' && i == i'
    ensures Selects(RoleLabels(name, role), NodeLabels(name, role', i')) <==> role == role'
  {
    LabelKeysDiffer();
    var wanted, found := NodeLabels(name, role, i), NodeLabels(name, role', i');
    assert Controller.Name()[0] != Broker.Name()[0];
    assert wanted[ROLE_LABEL] == role.Name() && found[ROLE_LABEL] == role'.Name();
    assert wanted[INDEX_LABEL] == PrintInt(i) && found[INDEX_LABEL] == PrintInt(i');
    assert RoleLabels(name, role)[ROLE_LABEL] == role.Name();
    if role == role' && i != i' {
      assert ParseInt(PrintInt(i)) != ParseInt(PrintInt(i'));
    }
  }

  /** The names and labels themselves. */
  lemma NamesAndLabelsAre(name: string, role: Role, i: int)
    ensures IndexedName(Controller, i) == "automq-controller-" + PrintInt(i)
    ensures IndexedName(Broker, i) == "automq-broker-" + PrintInt(i)
    ensures BootstrapName() == "automq-broker-bootstrap"
    ensures RoleLabels(name, role) ==
            map["app.kubernetes.io/owner-by" := "automq", "app.kubernetes.io/component" := "autpmq-operator",
                "app.kubernetes.io/instance" := name,
                "app.kubernetes.io/role" := if role == Controller then "controller" else "broker"]
    ensures NodeLabels(name, role, i) == RoleLabels(name, role)["app.kubernetes.io/index" := PrintInt(i)]
  {
    hide ParseName, ParseInt, PrintInt;
    IndexedNameIs(Controller, i);
    IndexedNameIs(Broker, i);
    RoleLabelsAre(name, role);
  }

  lemma RoleLabelsAre(name: string, role: Role)
    ensures RoleLabels(name, role) ==
            map["app.kubernetes.io/owner-by" := "automq", "app.kubernetes.io/component" := "autpmq-operator",
                "app.kubernetes.io/instance" := name,
                "app.kubernetes.io/role" := if role == Controller then "controller" else "broker"]
  {
    assert role.Name() != "" by { assert |role.Name()| > 0; }
  }

  /******* Node ids *******/

  /** A controller's node id is its index; a broker's is `index + controllers` in int32 arithmetic. */
  function NodeId(role: Role, i: int, controllers: int): int {
    if role == Controller then i else Wrap32(i + controllers)
  }

  /** While they fit into 32 bits, ids count the controllers first and then the brokers. */
  lemma NodeIdsCountUp(controllers: int32, i: int32)
    requires controllers >= 0 && i >= 0
    ensures NodeId(Controller, i, controllers) == i
    ensures controllers + i < 0x8000_0000 ==> NodeId(Broker, i, controllers) == controllers + i
    ensures controllers + i >= 0x8000_0000 ==> NodeId(Broker, i, controllers) == controllers + i - 0x1_0000_0000
  {
  }

  /** Nodes have distinct ids, even when broker ids wrap around. */
  lemma NodeIdsAreDistinct(controllers: int32, brokers: int32, r: Role, i: nat, r': Role, i': nat)
    requires controllers >= 1 && brokers >= 1
    requires i < (if r == Controller then controllers else brokers)
    requires i' < (if r' == Controller then controllers else brokers)
    ensures NodeId(r, i, controllers) == NodeId(r', i', controllers) <==> (r, i) == (r', i')
  {
  }

  /** No id is negative exactly when the nodes number at most 2^31. */
  lemma NodeIdsAreNonNegative(controllers: int32, brokers: int32)
    requires controllers >= 1 && brokers >= 1
    ensures controllers + brokers <= 0x8000_0000 <==>
            forall r, i :: 0 <= i < (if r == Controller then controllers else brokers) ==>
                NodeId(r, i, controllers) >= 0
  {
    if controllers + brokers > 0x8000_0000 {
      assert NodeId(Broker, brokers - 1, controllers) < 0;
    }
  }
}
