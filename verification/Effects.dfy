/** What the loops of a pass do to each single object. */
module Effects {
  import opened Basics
  import opened Naming
  import opened Store
  import opened Templates
  import opened Pipeline

  /** `key` names an object of the node `(role, i)` for some `i` in `lo..hi`. */
  predicate IsNode(key: Key, ns: string, role: Role, lo: int, hi: int) {
    match ParseName(key.name)
    case Some((r, i)) => key.ns == ns && r == role && lo <= i < hi && key.name == IndexedName(role, i)
    case None => false
  }

  /** The kinds a sync loop writes. */
  const NODE_KINDS := {ClaimKind, ServiceKind, DeploymentKind}

  predicate Erasable(key: Key, e: Env) {
    e.Outcome(Remove(key)) != Some(Refused)
  }

  /******* Deleting *******/

  lemma {:induction false} EraseNodeAt(s: Objects, ns: string, role: Role, i: int, kinds: seq<Kind>, e: Env, key: Key)
    ensures Lookup(EraseNode(s, ns, role, i, kinds, e), key) ==
            if IsNode(key, ns, role, i, i + 1) && key.kind in kinds && Erasable(key, e) then None else Lookup(s, key)
    decreases |kinds|
  {
    if kinds != [] {
      EraseNodeAt(Erase(s, NodeKey(kinds[0], ns, role, i), e), ns, role, i, kinds[1..], e, key);
      assert key.kind in kinds <==> key.kind == kinds[0] || key.kind in kinds[1..];
    }
  }

  /** A delete loop removes the objects of its kinds and its index range, and nothing else. */
  lemma {:induction false} EraseRangeAt(s: Objects, ns: string, role: Role, lo: int, hi: int, kinds: seq<Kind>, e: Env,
                                        key: Key)
    ensures Lookup(EraseRange(s, ns, role, lo, hi, kinds, e), key) ==
            if IsNode(key, ns, role, lo, hi) && key.kind in kinds && Erasable(key, e) then None else Lookup(s, key)
    decreases hi - lo
  {
    if lo < hi {
      EraseRangeAt(s, ns, role, lo, hi - 1, kinds, e, key);
      EraseNodeAt(EraseRange(s, ns, role, lo, hi - 1, kinds, e), ns, role, hi - 1, kinds, e, key);
    }
  }

  /******* Creating and updating *******/

  /** What a sync round writes for one object, given the stored one. `port` is the allocator's answer for a
      Service and the Service's node port for a Deployment. */
  function Wanted(t: Target, role: Role, i: int, kind: Kind, stored: Option<Obj>, port: int): Obj
    requires kind in NODE_KINDS
  {
    match kind
    case ClaimKind => ClaimFor(t, role, i, stored)
    case ServiceKind => ServiceFor(t, role, i, stored, port)
    case _ => DeploymentFor(t, role, i, stored, port)
  }

  /** Where a Deployment's port comes from. */
  function ServicePortIn(s: Objects, ns: string, role: Role, i: int): int {
    var svc := Lookup(s, NodeKey(ServiceKind, ns, role, i));
    if role == Broker && svc.Some? && svc.value.Service?
        && svc.value.ports != [] then svc.value.ports[0].nodePort else 0
  }

  function PortIn(s: Objects, ns: string, role: Role, i: int, kind: Kind, e: Env): int {
    if kind == ServiceKind then e.allocate(NodeKey(ServiceKind, ns, role, i)) else ServicePortIn(s, ns, role, i)
  }

  /** `after` is `before`, or what a write of `wanted` leaves; it is the latter when the write succeeded. */
  predicate WroteOrKept(before: Option<Obj>, after: Option<Obj>, wanted: Obj, ok: bool) {
    after == Some(wanted) || (!ok && after == before)
  }

  lemma NodeKeysOf(ns: string, role: Role, i: int, key: Key)
    requires key.kind in NODE_KINDS
    ensures IsNode(key, ns, role, i, i + 1) <==> key == NodeKey(key.kind, ns, role, i)
  {
  }

  lemma ApplyClaimAt(s: Objects, t: Target, role: Role, i: int, e: Env, key: Key)
    ensures var (s', ok) := ApplyClaim(s, t, role, i, e);
            if key == NodeKey(ClaimKind, t.ns, role, i) then
              WroteOrKept(Lookup(s, key), Lookup(s', key), ClaimFor(t, role, i, Lookup(s, key)), ok)
            else Lookup(s', key) == Lookup(s, key)
  {
    hide ClaimFor;
  }

  lemma ApplyServiceAt(s: Objects, t: Target, role: Role, i: int, e: Env, key: Key)
    ensures var (s', ok) := ApplyService(s, t, role, i, e);
            if key == NodeKey(ServiceKind, t.ns, role, i) then
              WroteOrKept(Lookup(s, key), Lookup(s', key), ServiceFor(t, role, i, Lookup(s, key), e.allocate(key)), ok)
              && (HasPort(Lookup(s, key)) ==> HasPort(Lookup(s', key)))
              && (ok ==> HasPort(Lookup(s', key)))
            else Lookup(s', key) == Lookup(s, key)
  {
    hide NodeLabels, NodePortFor, SelectorFor;
  }

  lemma ApplyDeploymentAt(s: Objects, t: Target, role: Role, i: int, e: Env, key: Key)
    requires role == Broker ==> HasPort(Lookup(s, NodeKey(ServiceKind, t.ns, role, i)))
    ensures var (s', ok) := ApplyDeployment(s, t, role, i, e);
            if key == NodeKey(DeploymentKind, t.ns, role, i) then
              WroteOrKept(Lookup(s, key), Lookup(s', key),
                          DeploymentFor(t, role, i, Lookup(s, key), ServicePortIn(s, t.ns, role, i)), ok)
            else Lookup(s', key) == Lookup(s, key)
  {
    hide DeploymentFor;
  }

  /** One round writes only the node's three objects, each either as wanted or not at all; a round that
      succeeds writes all three. */
  lemma SyncNodeAt(s: Objects, t: Target, role: Role, i: int, e: Env, key: Key)
    ensures var r := SyncNode(s, t, role, i, e);
            if IsNode(key, t.ns, role, i, i + 1) && key.kind in NODE_KINDS then
              WroteOrKept(Lookup(s, key), Lookup(r.objects, key),
                          Wanted(t, role, i, key.kind, Lookup(s, key), PortIn(r.objects, t.ns, role, i, key.kind, e)),
                          r.failure == None)
            else
              Lookup(r.objects, key) == Lookup(s, key)
  {
    hide ApplyClaim, ApplyService, ApplyDeployment, ClaimFor, ServiceFor, DeploymentFor, IndexedName, ParseName,
         IsNode, Lookup, HasPort;
    if key.kind in NODE_KINDS {
      NodeKeysOf(t.ns, role, i, key);
    }
    var svcKey := NodeKey(ServiceKind, t.ns, role, i);
    var (s1, ok1) := ApplyClaim(s, t, role, i, e);
    ApplyClaimAt(s, t, role, i, e, key);
    if ok1 {
      if role == Controller {
        var (s2, ok2) := ApplyDeployment(s1, t, role, i, e);
        ApplyDeploymentAt(s1, t, role, i, e, key);
        if ok2 {
          ApplyServiceAt(s2, t, role, i, e, key);
        }
      } else {
        var (s2, ok2) := ApplyService(s1, t, role, i, e);
        ApplyServiceAt(s1, t, role, i, e, key);
        ApplyServiceAt(s1, t, role, i, e, svcKey);
        if ok2 {
          ApplyDeploymentAt(s2, t, role, i, e, key);
          ApplyDeploymentAt(s2, t, role, i, e, svcKey);
        }
      }
    }
  }

  /** A round without faults succeeds. */
  lemma SyncNodeClean(s: Objects, t: Target, role: Role, i: int, e: Env)
    requires e.Clean()
    ensures SyncNode(s, t, role, i, e).failure == None
  {
  }

  /** A sync loop writes only objects of its role and index range. */
  lemma {:induction false} SyncRangeFrame(s: Objects, t: Target, role: Role, n: int, e: Env, key: Key)
    ensures !(IsNode(key, t.ns, role, 0, n) && key.kind in NODE_KINDS) ==>
              Lookup(SyncRange(s, t, role, n, e).objects, key) == Lookup(s, key)
  {
    hide SyncNode, Wanted, PortIn, IndexedName, ParseName, WroteOrKept;
    if n > 0 {
      SyncRangeFrame(s, t, role, n - 1, e, key);
      SyncNodeAt(SyncRange(s, t, role, n - 1, e).objects, t, role, n - 1, e, key);
    }
  }

  /** A sync loop leaves each object of its range as it was, or as wanted for some port. */
  lemma {:induction false} SyncRangeAt(s: Objects, t: Target, role: Role, n: int, e: Env, i: int, kind: Kind)
      returns (port: int)
    requires 0 <= i < n && kind in NODE_KINDS
    ensures var key := NodeKey(kind, t.ns, role, i);
            var after := Lookup(SyncRange(s, t, role, n, e).objects, key);
            after == Lookup(s, key) || after == Some(Wanted(t, role, i, kind, Lookup(s, key), port))
    ensures kind == ServiceKind ==> port == e.allocate(NodeKey(ServiceKind, t.ns, role, i))
  {
    hide SyncNode, Wanted, IndexedName, ParseName, Lookup;
    var key := NodeKey(kind, t.ns, role, i);
    var before := SyncRange(s, t, role, n - 1, e).objects;
    SyncNodeAt(before, t, role, n - 1, e, key);
    if i == n - 1 {
      SyncRangeFrame(s, t, role, n - 1, e, key);
      port := PortIn(SyncRange(s, t, role, n, e).objects, t.ns, role, i, kind, e);
      if SyncRange(s, t, role, n - 1, e).failure.Some? {
        port := PortIn(s, t.ns, role, i, kind, e);
      }
    } else {
      port := SyncRangeAt(s, t, role, n - 1, e, i, kind);
    }
  }

  /** The number of rounds a sync loop completes. */
  function Completed(s: Objects, t: Target, role: Role, n: int, e: Env): (c: int)
    ensures 0 <= c && (n >= 0 ==> c <= n)
    ensures SyncRange(s, t, role, n, e).failure == None ==> n <= c
  {
    if n <= 0 then 0
    else if SyncRange(s, t, role, n, e).failure == None then n
    else Completed(s, t, role, n - 1, e)
  }

  /** Every node below the one a sync loop fails at is fully synced: all three objects are as wanted, and
      a broker's Deployment carries the node port of its Service. */
  lemma {:induction false} SyncedPrefix(s: Objects, t: Target, role: Role, n: int, e: Env, i: int, kind: Kind)
    requires 0 <= i < Completed(s, t, role, n, e) && kind in NODE_KINDS
    ensures var key := NodeKey(kind, t.ns, role, i);
            var after := SyncRange(s, t, role, n, e).objects;
            Lookup(after, key) == Some(Wanted(t, role, i, kind, Lookup(s, key), PortIn(after, t.ns, role, i, kind, e)))
  {
    hide SyncNode, Wanted, IndexedName, ParseName, Lookup;
    var key, svcKey := NodeKey(kind, t.ns, role, i), NodeKey(ServiceKind, t.ns, role, i);
    var r := SyncRange(s, t, role, n - 1, e);
    if r.failure == None {
      SyncNodeAt(r.objects, t, role, n - 1, e, key);
      SyncNodeAt(r.objects, t, role, n - 1, e, svcKey);
    }
    if i == n - 1 {
      SyncRangeFrame(s, t, role, n - 1, e, key);
    } else {
      SyncedPrefix(s, t, role, n - 1, e, i, kind);
    }
  }

  lemma {:induction false} SyncRangeClean(s: Objects, t: Target, role: Role, n: int, e: Env)
    requires e.Clean()
    ensures SyncRange(s, t, role, n, e).failure == None
  {
    hide SyncNode;
    if n > 0 {
      SyncRangeClean(s, t, role, n - 1, e);
      SyncNodeClean(SyncRange(s, t, role, n - 1, e).objects, t, role, n - 1, e);
    }
  }
}
