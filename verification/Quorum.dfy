/** The controller quorum: what every node is told, and whom it reaches. */
module Quorum {
  import opened Basics
  import opened AutoMQApi
  import opened Naming
  import opened Store
  import opened Templates
  import opened Pipeline
  import opened Convergence

  /** A namespace name: a label in the sense of RFC 1123, section 2.1. */
  predicate IsDnsLabel(s: string) {
    1 <= |s| <= 63 && s[0] != '-' && s[|s| - 1] != '-'
    && forall k :: 0 <= k < |s| ==> 'a' <= s[k] <= 'z' || IsDigit(s[k]) || s[k] == '-'
  }

  /** Characters of names and ids: none of them separates anything. */
  predicate IsPlain(s: string) {
    forall k :: 0 <= k < |s| ==> s[k] !in {',', '@', ':', '.'}
  }

  lemma NamesArePlain(ns: string, i: int)
    requires IsDnsLabel(ns)
    ensures IsPlain(ns) && IsPlain(IndexedName(Controller, i)) && IsPlain(PrintInt(i))
  {
    hide ParseName, ParseInt, IndexedName;
    ControllerNameIs(i);
    assert IsPlain(CONTROLLER_PREFIX);
  }

  /** Reads `id@host:port`. */
  function ParseVoter(s: string): Option<(int, string, int)> {
    var parts := SplitAt(s, '@');
    if |parts| != 2 then None
    else
      var address := SplitAt(parts[1], ':');
      if |address| != 2 then None
      else
        match (ParseInt(parts[0]), ParseInt(address[1]))
        case (Some(id), Some(port)) => Some((id, address[0], port))
        case _ => None
  }

  /** The Service that cluster DNS resolves `name.namespace.svc` to. */
  function ResolveHost(host: string): Option<Key> {
    var parts := SplitAt(host, '.');
    if |parts| == 3 && parts[2] == "svc" then Some(Key(ServiceKind, parts[1], parts[0])) else None
  }

  lemma VoterParses(ns: string, i: int)
    requires IsDnsLabel(ns)
    ensures ParseVoter(Voter(ns, i)) == Some((i, VoterHost(ns, i), 9093))
    ensures ',' !in Voter(ns, i)
  {
    hide ParseInt, SplitAt, IndexedName, ParseName;
    NamesArePlain(ns, i);
    var id, host, port := PrintInt(i), VoterHost(ns, i), PrintInt(CONTROLLER_PORT);
    NamesArePlain(ns, CONTROLLER_PORT);
    HostCharacters(ns, i);
    assert Voter(ns, i) == id + ['@'] + (host + [':'] + port);
    SplitAtFirst(id, '@', host + [':'] + port);
    SplitAtNone(host + [':'] + port, '@');
    SplitAtFirst(host, ':', port);
    SplitAtNone(port, ':');
  }

  lemma HostCharacters(ns: string, i: int)
    requires IsDnsLabel(ns)
    ensures ',' !in VoterHost(ns, i) && '@' !in VoterHost(ns, i) && ':' !in VoterHost(ns, i)
  {
    hide ParseInt, IndexedName, ParseName;
    NamesArePlain(ns, i);
  }

  lemma HostResolves(ns: string, i: int)
    requires IsDnsLabel(ns)
    ensures ResolveHost(VoterHost(ns, i)) == Some(NodeKey(ServiceKind, ns, Controller, i))
  {
    hide ParseInt, SplitAt, IndexedName, ParseName;
    NamesArePlain(ns, i);
    var name := IndexedName(Controller, i);
    assert VoterHost(ns, i) == name + ['.'] + (ns + ['.'] + "svc");
    SplitAtFirst(name, '.', ns + ['.'] + "svc");
    SplitAtFirst(ns, '.', "svc");
    SplitAtNone("svc", '.');
  }

  /** The voter string round trip: splitting it at the commas and reading each part gives back, in order, id `i`,
      the host of controller `i`, and the controller port; the host resolves to the Service of controller `i`. */
  lemma VotersRoundTrip(ns: string, controllers: int, i: int)
    requires IsDnsLabel(ns) && 0 <= i < controllers
    ensures var parts := SplitAt(Join(Voters(ns, controllers), ","), ',');
            && |parts| == controllers
            && ParseVoter(parts[i]) == Some((i, VoterHost(ns, i), 9093))
            && ResolveHost(VoterHost(ns, i)) == Some(NodeKey(ServiceKind, ns, Controller, i))
  {
    hide ParseVoter, SplitAt, Join, Voter, VoterHost, ResolveHost, NodeKey;
    var voters := Voters(ns, controllers);
    forall k | 0 <= k < |voters| ensures ',' !in voters[k] {
      VoterParses(ns, k);
    }
    SplitJoin(voters, ',');
    assert [','] == ",";
    VoterParses(ns, i);
    HostResolves(ns, i);
  }

  /** After a clean pass, each voter's host names a Service that listens on the voter's port and forwards to the
      named container port of the controller whose node id is the voter's. */
  lemma VotersAreServed(s: Objects, st: AutoMQStatus, t: Target, e: Env, i: int)
    requires e.Clean() && e.AllocatesPorts() && PortsValid(s) && IsDnsLabel(t.ns)
    requires 0 <= i < t.Replicas(Controller)
    ensures var s' := Pass(s, st, t, e).0;
            var parts := SplitAt(Join(Voters(t.ns, t.spec.controller.replicas), ","), ',');
            && i < |parts|
            && var voter := ParseVoter(parts[i]);
               voter.Some? && ResolveHost(voter.value.1).Some?
               && var svc, dep := Lookup(s', ResolveHost(voter.value.1).value), Lookup(s', NodeKey(DeploymentKind,
                   t.ns, Controller, i));
                  && svc.Some? && svc.value.Service? && |svc.value.ports| == 1 && dep.Some? && dep.value.Deployment?
                  && svc.value.ports[0].port == voter.value.2
                  && svc.value.ports[0].targetPort == dep.value.template.portName
                  && dep.value.template.containerPort == voter.value.2
                  && NodeId(Controller, i, t.spec.controller.replicas) == voter.value.0
                  && dep.value.template.command == Join(CommandTokens(t, Controller, i), LINE_JOIN)
  {
    hide Pass, ParseVoter, SplitAt, Join, VoterHost, ResolveHost, NodeKey, CommandTokens, TemplateEnv,
         TemplateAnnotations, NodeLabels, RoleLabels, Voters;
    VotersRoundTrip(t.ns, t.spec.controller.replicas, i);
    CleanNodeMeets(s, st, t, e, Controller, i);
  }
}
