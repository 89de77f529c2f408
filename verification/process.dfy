/**
 * The per-router EIGRP routing process: its state, and the operations the dataplane
 * engine calls on it that involve no other process.
 */
module EigrpProcess {
  import opened Wrappers
  import opened Collections
  import opened EigrpTypes
  import opened Rib
  import opened Topology

  /** A RIB holding only internal routes. */
  type InternalRib = m: Rib | forall n :: n in m ==> m[n].Internal?
    witness map[]

  /** A RIB holding only external routes. */
  type ExternalRib = m: Rib | forall n :: n in m ==> m[n].External?
    witness map[]

  /** A route in the router's main RIB, learned by any protocol. */
  datatype MainRoute = EigrpMain(eigrp: EigrpRoute) | OtherMain(prefix: Prefix, protocol: string) {
    function Network(): Prefix {
      if EigrpMain? then eigrp.network else prefix
    }
  }

  /** One action of a main-RIB delta. */
  datatype MainAdvert = MainAdvert(route: MainRoute, withdrawn: bool)

  /** The attributes of an external route under construction that an export policy may set. */
  datatype ExportDraft = ExportDraft(metric: Option<Metric>, nextHop: Option<Ip>)

  /** An export policy's answer: reject, or accept with the (possibly rewritten) draft. */
  datatype PolicyVerdict = Reject | Accept(draft: ExportDraft)

  /**
   * The collaborators whose code is not part of this model, as uninterpreted functions:
   * metric accumulation over a hop, the RIBs' preference between two routes for one
   * network, the interface lookup by neighbour id, and routing-policy evaluation
   * (by policy name, candidate, draft and VRF name).
   */
  datatype Env = Env(
    accumulate: (Metric, Metric, Metric) -> Metric,
    prefer: (EigrpRoute, EigrpRoute) -> bool,
    lookup: NeighborId -> Option<Interface>,
    policy: (string, MainRoute, ExportDraft, string) -> PolicyVerdict)

  /** The state of one EIGRP process of one VRF of one router. */
  datatype ProcessState = ProcessState(
    asn: Asn,
    vrf: string,
    internalAdmin: nat,
    externalAdmin: nat,
    internalRib: InternalRib,
    externalRib: ExternalRib,
    rib: Rib,
    exportPolicy: Option<string>,
    interfaces: seq<NeighborId>,
    topology: Topology,
    inboxOrder: seq<Edge>,
    internalInbox: map<Edge, seq<InternalAdvert>>,
    externalInbox: map<Edge, seq<ExternalAdvert>>,
    initDelta: seq<InternalAdvert>,
    queued: seq<ExternalAdvert>,
    changeSet: Delta)

  /**
   * The inbox order lists, once each, exactly the keys of both inbox maps: the two maps
   * are iterated in the same order, the order of their sorted keys.
   */
  ghost predicate Valid(p: ProcessState) {
    && NoDuplicates(p.inboxOrder)
    && (forall e :: e in p.internalInbox <==> e in p.inboxOrder)
    && (forall e :: e in p.externalInbox <==> e in p.inboxOrder)
  }

  /** A process as constructed: empty RIBs, no inboxes, nothing pending. */
  function NewProcess(asn: Asn, vrf: string, internalAdmin: nat, externalAdmin: nat,
                      exportPolicy: Option<string>): (p: ProcessState)
    ensures Valid(p) && !IsDirty(p)
    ensures p.asn == asn && p.internalAdmin == internalAdmin && p.externalAdmin == externalAdmin
    ensures p.internalRib == map[] && p.externalRib == map[] && p.rib == map[] && p.interfaces == []
    ensures p.vrf == vrf && p.exportPolicy == exportPolicy && p.topology == EmptyTopology
    ensures p.inboxOrder == [] && p.internalInbox == map[] && p.externalInbox == map[]
    ensures p.initDelta == [] && p.queued == [] && p.changeSet == []
  {
    ProcessState(asn, vrf, internalAdmin, externalAdmin, map[], map[], map[], exportPolicy, [],
                 EmptyTopology, [], map[], map[], [], [], [])
  }

  // ---------------------------------------------------------------------------
  // Dirty detection

  /** Some queue listed in `order` holds a message. */
  predicate AnyPending<A>(order: seq<Edge>, inbox: map<Edge, seq<A>>)
    ensures AnyPending(order, inbox) <==>
      exists i :: 0 <= i < |order| && order[i] in inbox && |inbox[order[i]]| > 0
    decreases |order|
  {
    order != [] && ((order[0] in inbox && |inbox[order[0]]| > 0) || AnyPending(order[1..], inbox))
  }

  /** Whether the process still has work: queued messages or unsent deltas. */
  predicate IsDirty(p: ProcessState) {
    || AnyPending(p.inboxOrder, p.internalInbox)
    || AnyPending(p.inboxOrder, p.externalInbox)
    || p.changeSet != []
    || p.queued != []
    || p.initDelta != []
  }

  lemma {:induction false} AnyPendingExactly<A>(order: seq<Edge>, inbox: map<Edge, seq<A>>)
    requires forall e :: e in inbox ==> e in order
    ensures AnyPending(order, inbox) <==> exists e :: e in inbox && |inbox[e]| > 0
    decreases |order|
  {
    if order != [] {
      var rest := map e | e in inbox && e in order[1..] :: inbox[e];
      if order[0] in inbox && |inbox[order[0]]| > 0 {
        assert AnyPending(order, inbox);
      } else {
        AnyPendingExactly(order[1..], rest);
        AnyPendingRestrict(order[1..], inbox, rest);
        forall e | e in inbox && |inbox[e]| > 0
          ensures e in rest
        {
          assert e != order[0];
          assert e in order[1..];
        }
      }
    }
  }

  /** Only the keys listed in `order` matter to `AnyPending`. */
  lemma {:induction false} AnyPendingRestrict<A>(order: seq<Edge>, inbox: map<Edge, seq<A>>, sub: map<Edge, seq<A>>)
    requires forall e :: e in order ==> (e in inbox <==> e in sub) && (e in inbox ==> inbox[e] == sub[e])
    ensures AnyPending(order, inbox) <==> AnyPending(order, sub)
    decreases |order|
  {
    if order != [] {
      AnyPendingRestrict(order[1..], inbox, sub);
    }
  }

  /**
   * A valid process is dirty exactly when some internal inbox or some external inbox holds
   * a message, or the change set, the pending redistribution or the initialization delta
   * is non-empty.
   */
  lemma IsDirtyExactly(p: ProcessState)
    requires Valid(p)
    ensures IsDirty(p) <==>
      || (exists e :: e in p.internalInbox && |p.internalInbox[e]| > 0)
      || (exists e :: e in p.externalInbox && |p.externalInbox[e]| > 0)
      || p.changeSet != []
      || p.queued != []
      || p.initDelta != []
  {
    AnyPendingExactly(p.inboxOrder, p.internalInbox);
    AnyPendingExactly(p.inboxOrder, p.externalInbox);
  }

  // ---------------------------------------------------------------------------
  // Initialization

  /** An interface the process registers: active, EIGRP-enabled, in this process's AS. */
  predicate Eligible(p: ProcessState, i: Interface) {
    i.active && i.eigrp.Some? && i.eigrp.value.asn == p.asn && i.eigrp.value.enabled
  }

  /** The distinct subnets of an interface's addresses. */
  function InterfacePrefixes(i: Interface): set<Prefix> {
    set a | a in i.allAddresses :: PrefixOf(a)
  }

  /** The internal route an eligible interface originates for one of its subnets. */
  function InitRoute(p: ProcessState, i: Interface, n: Prefix): InternalRoute
    requires i.eigrp.Some?
  {
    Internal(n, i.eigrp.value.metric, p.internalAdmin, p.asn, None)
  }

  /** One announcement per listed subnet of interface `i`, in list order. */
  function Announce(p: ProcessState, i: Interface, ns: seq<Prefix>): (ops: seq<InternalAdvert>)
    requires i.eigrp.Some?
    ensures |ops| == |ns| && forall k :: 0 <= k < |ns| ==> ops[k] == Advert(InitRoute(p, i, ns[k]), false)
    decreases |ns|
  {
    if ns == [] then []
    else [Advert(InitRoute(p, i, ns[0]), false)] + Announce(p, i, ns[1..])
  }

  /** The announcements one interface contributes, one per distinct subnet (hash-set order). */
  ghost function InterfaceOps(p: ProcessState, i: Interface): (ops: seq<InternalAdvert>)
    requires i.eigrp.Some?
    ensures |ops| == |InterfacePrefixes(i)|
    ensures forall a :: a in ops <==>
      exists n :: n in InterfacePrefixes(i) && a == Advert(InitRoute(p, i, n), false)
    ensures DistinctNetworks(ops)
  {
    var ns := Enumerate(InterfacePrefixes(i));
    var ops := Announce(p, i, ns);
    forall a | a in ops
      ensures exists n :: n in InterfacePrefixes(i) && a == Advert(InitRoute(p, i, n), false)
    {
      var k :| 0 <= k < |ops| && ops[k] == a;
      assert ns[k] in ns;
    }
    forall n | n in InterfacePrefixes(i)
      ensures Advert(InitRoute(p, i, n), false) in ops
    {
      var k :| 0 <= k < |ns| && ns[k] == n;
      assert ops[k] == Advert(InitRoute(p, i, n), false);
    }
    forall j, k | 0 <= j < k < |ops|
      ensures ops[j].route.network != ops[k].route.network
    {
      assert ops[j].route.network == ns[j] && ops[k].route.network == ns[k];
    }
    ops
  }

  /** Every announcement of `ops` announces a subnet of an eligible interface of `ifaces`, as initialization does. */
  ghost predicate OnlyInitRoutes(p: ProcessState, ifaces: seq<Interface>, ops: seq<InternalAdvert>) {
    forall a :: a in ops ==> (!a.withdrawn &&
      exists i :: 0 <= i < |ifaces| && Eligible(p, ifaces[i]) &&
        a.route.network in InterfacePrefixes(ifaces[i]) && a.route == InitRoute(p, ifaces[i], a.route.network))
  }

  /** Every subnet of every eligible interface of `ifaces` is announced in `ops`, as initialization does. */
  ghost predicate EveryInitRoute(p: ProcessState, ifaces: seq<Interface>, ops: seq<InternalAdvert>) {
    forall i, n :: 0 <= i < |ifaces| && Eligible(p, ifaces[i]) && n in InterfacePrefixes(ifaces[i]) ==>
      Advert(InitRoute(p, ifaces[i], n), false) in ops
  }

  /**
   * The announcements initialization merges, interface by interface: exactly one per
   * subnet of every eligible interface, each with that interface's metric, the process's
   * AS, the default internal admin cost and no next hop.
   */
  ghost function InitOps(p: ProcessState, ifaces: seq<Interface>): (ops: seq<InternalAdvert>)
    ensures OnlyInitRoutes(p, ifaces, ops)
    ensures EveryInitRoute(p, ifaces, ops)
    decreases |ifaces|
  {
    if ifaces == [] then []
    else
      var rest := InitOps(p, ifaces[1..]);
      InitOpsCons(p, ifaces, rest);
      (if Eligible(p, ifaces[0]) then InterfaceOps(p, ifaces[0]) else []) + rest
  }

  /** Putting the first interface's announcements before those of the others announces for all of them. */
  lemma InitOpsCons(p: ProcessState, ifaces: seq<Interface>, rest: seq<InternalAdvert>)
    requires ifaces != []
    requires OnlyInitRoutes(p, ifaces[1..], rest) && EveryInitRoute(p, ifaces[1..], rest)
    ensures OnlyInitRoutes(p, ifaces, (if Eligible(p, ifaces[0]) then InterfaceOps(p, ifaces[0]) else []) + rest)
    ensures EveryInitRoute(p, ifaces, (if Eligible(p, ifaces[0]) then InterfaceOps(p, ifaces[0]) else []) + rest)
  {
    var head := if Eligible(p, ifaces[0]) then InterfaceOps(p, ifaces[0]) else [];
    var tail := ifaces[1..];
    forall a | a in head + rest
      ensures !a.withdrawn
      ensures exists i ::
        && 0 <= i < |ifaces| && Eligible(p, ifaces[i])
        && a.route.network in InterfacePrefixes(ifaces[i]) && a.route == InitRoute(p, ifaces[i], a.route.network)
    {
      if a in head {
        var n :| n in InterfacePrefixes(ifaces[0]) && a == Advert(InitRoute(p, ifaces[0], n), false);
        assert a.route.network == n;
      } else {
        assert a in rest;
        var j :| 0 <= j < |tail| && Eligible(p, tail[j]) &&
          a.route.network in InterfacePrefixes(tail[j]) && a.route == InitRoute(p, tail[j], a.route.network);
        assert tail[j] == ifaces[j + 1];
      }
    }
    forall i, n | 0 <= i < |ifaces| && Eligible(p, ifaces[i]) && n in InterfacePrefixes(ifaces[i])
      ensures Advert(InitRoute(p, ifaces[i], n), false) in head + rest
    {
      if i == 0 {
        assert Advert(InitRoute(p, ifaces[0], n), false) in head;
      } else {
        assert ifaces[i] == tail[i - 1];
        assert Advert(InitRoute(p, tail[i - 1], n), false) in rest;
      }
    }
  }

  /** The neighbour id of an interface of router `hostname`. */
  function NeighborIdOf(hostname: string, i: Interface): (id: NeighborId)
    requires i.eigrp.Some?
    ensures id.asn == i.eigrp.value.asn && id.hostname == hostname
    ensures id.vrf == i.vrf && id.iface == i.name
  {
    NeighborId(i.eigrp.value.asn, hostname, i.vrf, i.name)
  }

  /** The neighbour ids initialization registers, in interface order. */
  function Registered(p: ProcessState, hostname: string, ifaces: seq<Interface>): (ids: seq<NeighborId>)
    ensures forall id :: id in ids <==>
      exists i :: 0 <= i < |ifaces| && Eligible(p, ifaces[i]) && id == NeighborIdOf(hostname, ifaces[i])
    decreases |ifaces|
  {
    if ifaces == [] then []
    else
      var rest := Registered(p, hostname, ifaces[1..]);
      assert forall i :: 1 <= i < |ifaces| ==> ifaces[i] == ifaces[1..][i - 1];
      (if Eligible(p, ifaces[0]) then [NeighborIdOf(hostname, ifaces[0])] else []) + rest
  }

  /**
   * Register the eligible interfaces of the VRF (`ifaces`, in the VRF's interface order)
   * and merge one internal route per subnet into the internal RIB; the merges' delta
   * becomes the initialization delta. Nothing is sent.
   */
  ghost function Initialize(p: ProcessState, hostname: string, ifaces: seq<Interface>, env: Env): (r: ProcessState)
    ensures r == p.(interfaces := r.interfaces, internalRib := r.internalRib, initDelta := r.initDelta)
    ensures |r.interfaces| >= |p.interfaces| && r.interfaces[..|p.interfaces|] == p.interfaces
    ensures forall id :: id in r.interfaces[|p.interfaces|..] <==>
      exists i :: 0 <= i < |ifaces| && Eligible(p, ifaces[i]) && id == NeighborIdOf(hostname, ifaces[i])
    ensures r.internalRib == Replay(p.internalRib, r.initDelta)
    ensures forall a :: a in r.initDelta && !a.withdrawn ==>
      exists i :: 0 <= i < |ifaces| && Eligible(p, ifaces[i]) &&
        a.route.network in InterfacePrefixes(ifaces[i]) && a.route == InitRoute(p, ifaces[i], a.route.network)
  {
    var ops := InitOps(p, ifaces);
    var u := ApplyOps(p.internalRib, ops, env.prefer);
    ApplyOpsKeepsKind(p.internalRib, ops, env.prefer, true);
    ApplyOpsReplay(p.internalRib, ops, env.prefer);
    var rib: InternalRib := u.rib;
    var delta: seq<InternalAdvert> := u.delta;
    var ids := Registered(p, hostname, ifaces);
    assert (p.interfaces + ids)[|p.interfaces|..] == ids;
    p.(interfaces := p.interfaces + ids, internalRib := rib, initDelta := delta)
  }

  /** The subnets of distinct eligible interfaces are disjoint. */
  ghost predicate DistinctSubnets(p: ProcessState, ifaces: seq<Interface>) {
    forall i, j :: 0 <= i < j < |ifaces| && Eligible(p, ifaces[i]) && Eligible(p, ifaces[j]) ==>
      InterfacePrefixes(ifaces[i]) !! InterfacePrefixes(ifaces[j])
  }

  /** The number of subnets over all eligible interfaces. */
  function SubnetCount(p: ProcessState, ifaces: seq<Interface>): nat
    decreases |ifaces|
  {
    if ifaces == [] then 0
    else (if Eligible(p, ifaces[0]) then |InterfacePrefixes(ifaces[0])| else 0) + SubnetCount(p, ifaces[1..])
  }

  /** No two advertisements of `d` share a network. */
  ghost predicate DistinctNetworks(d: Delta) {
    forall i, j :: 0 <= i < j < |d| ==> d[i].route.network != d[j].route.network
  }

  lemma DistinctNetworksConcat(d1: Delta, d2: Delta)
    requires DistinctNetworks(d1) && DistinctNetworks(d2)
    requires forall a, b :: a in d1 && b in d2 ==> a.route.network != b.route.network
    ensures DistinctNetworks(d1 + d2)
  {
    var d := d1 + d2;
    forall i, j | 0 <= i < j < |d|
      ensures d[i].route.network != d[j].route.network
    {
      if j < |d1| {
        assert d[i] == d1[i] && d[j] == d1[j];
      } else if i >= |d1| {
        assert d[i] == d2[i - |d1|] && d[j] == d2[j - |d1|];
      } else {
        assert d[i] == d1[i] && d[j] == d2[j - |d1|];
        assert d1[i] in d1 && d2[j - |d1|] in d2;
      }
    }
  }

  lemma DistinctSubnetsTail(p: ProcessState, ifaces: seq<Interface>)
    requires ifaces != [] && DistinctSubnets(p, ifaces)
    ensures DistinctSubnets(p, ifaces[1..])
  {
    var tail := ifaces[1..];
    forall i, j | 0 <= i < j < |tail| && Eligible(p, tail[i]) && Eligible(p, tail[j])
      ensures InterfacePrefixes(tail[i]) !! InterfacePrefixes(tail[j])
    {
      assert tail[i] == ifaces[i + 1] && tail[j] == ifaces[j + 1];
    }
  }

  /** The first interface's announcements name networks no later interface announces. */
  lemma HeadApartFromTail(p: ProcessState, ifaces: seq<Interface>)
    requires ifaces != [] && DistinctSubnets(p, ifaces) && Eligible(p, ifaces[0])
    ensures forall a, b :: a in InterfaceOps(p, ifaces[0]) && b in InitOps(p, ifaces[1..]) ==>
      a.route.network != b.route.network
  {
    var tail := ifaces[1..];
    var head := InterfacePrefixes(ifaces[0]);
    forall a, b | a in InterfaceOps(p, ifaces[0]) && b in InitOps(p, tail)
      ensures a.route.network != b.route.network
    {
      var n :| n in head && a == Advert(InitRoute(p, ifaces[0], n), false);
      var j :| 0 <= j < |tail| && Eligible(p, tail[j]) && b.route.network in InterfacePrefixes(tail[j]);
      assert tail[j] == ifaces[j + 1];
      assert head !! InterfacePrefixes(ifaces[j + 1]);
      assert a.route.network == n;
    }
  }

  /** Initialization announcements name pairwise distinct networks when subnets are disjoint. */
  lemma {:induction false} InitOpsDistinct(p: ProcessState, ifaces: seq<Interface>)
    requires DistinctSubnets(p, ifaces)
    ensures |InitOps(p, ifaces)| == SubnetCount(p, ifaces)
    ensures DistinctNetworks(InitOps(p, ifaces))
    decreases |ifaces|
  {
    if ifaces != [] {
      DistinctSubnetsTail(p, ifaces);
      InitOpsDistinct(p, ifaces[1..]);
      if Eligible(p, ifaces[0]) {
        HeadApartFromTail(p, ifaces);
        DistinctNetworksConcat(InterfaceOps(p, ifaces[0]), InitOps(p, ifaces[1..]));
      }
    }
  }

  /**
   * Initializing a fresh process over eligible interfaces with disjoint subnets installs
   * exactly one internal route per subnet, and the initialization delta is exactly one
   * announcement per subnet, so it is non-empty as soon as one such subnet exists.
   */
  lemma InitializeFresh(p: ProcessState, hostname: string, ifaces: seq<Interface>, env: Env)
    requires p.internalRib == map[]
    requires DistinctSubnets(p, ifaces)
    ensures |Initialize(p, hostname, ifaces, env).initDelta| == SubnetCount(p, ifaces)
    ensures forall a :: a in Initialize(p, hostname, ifaces, env).initDelta ==> !a.withdrawn
    ensures forall i, n :: 0 <= i < |ifaces| && Eligible(p, ifaces[i]) && n in InterfacePrefixes(ifaces[i]) ==>
      n in Initialize(p, hostname, ifaces, env).internalRib &&
      Initialize(p, hostname, ifaces, env).internalRib[n] == InitRoute(p, ifaces[i], n)
  {
    var ops := InitOps(p, ifaces);
    InitOpsFresh(p, ifaces);
    FreshAnnouncementsInstalled(p.internalRib, ops, env.prefer);
    var r := Initialize(p, hostname, ifaces, env);
    assert r.internalRib == ApplyOps(p.internalRib, ops, env.prefer).rib;
    assert r.initDelta == ops;
    forall i, n | 0 <= i < |ifaces| && Eligible(p, ifaces[i]) && n in InterfacePrefixes(ifaces[i])
      ensures n in r.internalRib && r.internalRib[n] == InitRoute(p, ifaces[i], n)
    {
      var a := Advert(InitRoute(p, ifaces[i], n), false);
      assert a in ops;
      var k :| 0 <= k < |ops| && ops[k] == a;
    }
  }

  /**
   * Whatever the interfaces and the RIB before, initialization leaves every subnet of every
   * eligible interface in the internal RIB, and removes no network already there.
   */
  lemma InitializeCoversSubnets(p: ProcessState, hostname: string, ifaces: seq<Interface>, env: Env)
    ensures p.internalRib.Keys <= Initialize(p, hostname, ifaces, env).internalRib.Keys
    ensures forall i, n :: 0 <= i < |ifaces| && Eligible(p, ifaces[i]) && n in InterfacePrefixes(ifaces[i]) ==>
      n in Initialize(p, hostname, ifaces, env).internalRib
  {
    var ops := InitOps(p, ifaces);
    forall k | 0 <= k < |ops| ensures !ops[k].withdrawn {
      assert ops[k] in ops;
    }
    AnnouncementsCoverNetworks(p.internalRib, ops, env.prefer);
    var r := Initialize(p, hostname, ifaces, env);
    assert r.internalRib == ApplyOps(p.internalRib, ops, env.prefer).rib;
    forall i, n | 0 <= i < |ifaces| && Eligible(p, ifaces[i]) && n in InterfacePrefixes(ifaces[i])
      ensures n in r.internalRib
    {
      var a := Advert(InitRoute(p, ifaces[i], n), false);
      assert a in ops;
      var k :| 0 <= k < |ops| && ops[k] == a;
    }
  }

  /** With disjoint subnets, the initialization announcements are fresh for an empty RIB. */
  lemma InitOpsFresh(p: ProcessState, ifaces: seq<Interface>)
    requires DistinctSubnets(p, ifaces)
    ensures |InitOps(p, ifaces)| == SubnetCount(p, ifaces)
    ensures FreshAnnouncements(map[], InitOps(p, ifaces))
  {
    var ops := InitOps(p, ifaces);
    InitOpsDistinct(p, ifaces);
    forall i | 0 <= i < |ops| ensures !ops[i].withdrawn {
      assert ops[i] in ops;
    }
  }

  /** Initializing a fresh process with at least one eligible subnet leaves it dirty. */
  lemma InitializeMakesDirty(p: ProcessState, hostname: string, ifaces: seq<Interface>, env: Env, i: nat, n: Prefix)
    requires p.internalRib == map[]
    requires i < |ifaces| && Eligible(p, ifaces[i]) && n in InterfacePrefixes(ifaces[i])
    ensures IsDirty(Initialize(p, hostname, ifaces, env))
  {
    InitializeCoversSubnets(p, hostname, ifaces, env);
    var r := Initialize(p, hostname, ifaces, env);
    assert n in r.internalRib;
    assert r.initDelta != [];
  }

  // ---------------------------------------------------------------------------
  // Topology updates

  /** The in-edges of the registered interfaces that are nodes of `t`. */
  function QueueKeys(interfaces: seq<NeighborId>, t: Topology): set<Edge> {
    set n, e | n in interfaces && n in t.nodes && e in InEdges(t, n) :: e
  }

  /**
   * Replace both inbox maps wholesale: one empty queue per in-edge of every registered
   * interface present in `t`, in both maps; every message buffered before is dropped.
   */
  ghost function UpdateQueues(p: ProcessState, t: Topology): (r: ProcessState)
    ensures Valid(r)
    ensures forall e :: e in r.internalInbox <==> e in t.edges && e.node2 in t.nodes && e.node2 in p.interfaces
    ensures r.internalInbox.Keys == r.externalInbox.Keys
    ensures forall e :: e in r.internalInbox ==> r.internalInbox[e] == [] && r.externalInbox[e] == []
    ensures r == p.(inboxOrder := r.inboxOrder, internalInbox := r.internalInbox, externalInbox := r.externalInbox)
  {
    var keys := QueueKeys(p.interfaces, t);
    forall e ensures e in keys <==> e in t.edges && e.node2 in t.nodes && e.node2 in p.interfaces {
      if e in t.edges && e.node2 in t.nodes && e.node2 in p.interfaces {
        assert e in InEdges(t, e.node2);
      }
    }
    p.(inboxOrder := Enumerate(keys),
       internalInbox := map e | e in keys :: [],
       externalInbox := map e | e in keys :: [])
  }

  /**
   * Record the new topology and rebuild the inboxes. Routes are neither re-sent to new
   * neighbours nor withdrawn for lost edges.
   */
  ghost function UpdateTopology(p: ProcessState, t: Topology): (r: ProcessState)
    ensures Valid(r) && r.topology == t
    ensures !AnyPending(r.inboxOrder, r.internalInbox) && !AnyPending(r.inboxOrder, r.externalInbox)
    ensures r.internalRib == p.internalRib && r.externalRib == p.externalRib && r.rib == p.rib
    ensures IsDirty(r) <==> p.changeSet != [] || p.queued != [] || p.initDelta != []
  {
    var r := UpdateQueues(p.(topology := t), t);
    AnyPendingExactly(r.inboxOrder, r.internalInbox);
    AnyPendingExactly(r.inboxOrder, r.externalInbox);
    r
  }

  // ---------------------------------------------------------------------------
  // Redistribution from the main RIB

  /** The draft handed to the export policy: an EIGRP source's metric, else no metric. */
  function InitialDraft(src: MainRoute): ExportDraft {
    ExportDraft(if src.EigrpMain? then Some(src.eigrp.metric) else None, None)
  }

  /** The AS an exported route is destined for: kept from an external EIGRP source. */
  function ExportDestinationAsn(p: ProcessState, src: MainRoute): Asn {
    if src.EigrpMain? && src.eigrp.External? then src.eigrp.destinationAsn else p.asn
  }

  /**
   * The external route a main-RIB route is exported as, or none when there is no export
   * policy or the policy rejects it. An accepted route takes the metric the policy left in
   * the draft (building it fails when there is none), the external admin cost, this
   * process's AS and is non-routing.
   */
  function ComputeExportRoute(p: ProcessState, src: MainRoute, env: Env): (r: Result<Option<ExternalRoute>, Error>)
    ensures p.exportPolicy.None? ==> r == Success(None)
    ensures p.exportPolicy.Some? && env.policy(p.exportPolicy.value, src, InitialDraft(src), p.vrf).Reject? ==>
      r == Success(None)
    ensures r.Failure? <==>
      p.exportPolicy.Some? && env.policy(p.exportPolicy.value, src, InitialDraft(src), p.vrf).Accept? &&
      env.policy(p.exportPolicy.value, src, InitialDraft(src), p.vrf).draft.metric.None?
    ensures r.Success? && r.value.Some? ==>
      && p.exportPolicy.Some?
      && env.policy(p.exportPolicy.value, src, InitialDraft(src), p.vrf).Accept?
      && Some(r.value.value.metric) == env.policy(p.exportPolicy.value, src, InitialDraft(src), p.vrf).draft.metric
      && r.value.value.network == src.Network()
      && r.value.value.admin == p.externalAdmin
      && r.value.value.processAsn == p.asn
      && r.value.value.nonRouting
      && r.value.value.destinationAsn == ExportDestinationAsn(p, src)
  {
    if p.exportPolicy.None? then Success(None)
    else
      match env.policy(p.exportPolicy.value, src, InitialDraft(src), p.vrf)
      case Reject => Success(None)
      case Accept(d) =>
        if d.metric.None? then Failure(MissingMetric(src.Network()))
        else Success(Some(External(src.Network(), d.metric.value, p.externalAdmin, p.asn, d.nextHop,
                                   ExportDestinationAsn(p, src), true)))
  }

  /**
   * Under a policy that accepts without rewriting, an EIGRP source keeps its metric and any
   * other source cannot be exported, as it has no metric.
   */
  lemma DefaultMetricOnlyFromEigrp(p: ProcessState, src: MainRoute, env: Env)
    requires p.exportPolicy.Some?
    requires env.policy(p.exportPolicy.value, src, InitialDraft(src), p.vrf) == Accept(InitialDraft(src))
    ensures src.EigrpMain? ==>
      ComputeExportRoute(p, src, env) == Success(Some(External(src.eigrp.network, src.eigrp.metric,
        p.externalAdmin, p.asn, None, ExportDestinationAsn(p, src), true)))
    ensures !src.EigrpMain? ==> ComputeExportRoute(p, src, env) == Failure(MissingMetric(src.Network()))
  {
  }

  /** Entry `x` of a main-RIB delta is exported as external route `r`. */
  ghost predicate ExportsAs(p: ProcessState, x: MainAdvert, env: Env, r: EigrpRoute) {
    ComputeExportRoute(p, x.route, env) == Success(Some(r))
  }

  /**
   * The external RIB operations a main-RIB delta asks for, in order: each exported entry
   * asks for its export route, withdrawn when the entry is, and entries not exported ask
   * for nothing. Computing any entry's export route failing fails the whole.
   */
  function ExportOps(p: ProcessState, d: seq<MainAdvert>, env: Env): (r: Result<seq<ExternalAdvert>, Error>)
    ensures p.exportPolicy.None? ==> r == Success([])
    ensures r.Success? ==> |r.value| <= |d|
    ensures r.Success? ==> forall a :: a in r.value ==>
      a.route.admin == p.externalAdmin && a.route.processAsn == p.asn && a.route.nonRouting
    decreases |d|
  {
    if d == [] then Success([])
    else
      var out :- ComputeExportRoute(p, d[0].route, env);
      var rest :- ExportOps(p, d[1..], env);
      Success((if out.Some? then [Advert(out.value, d[0].withdrawn)] else []) + rest)
  }

  /** A one-entry delta asks for its export route, or for nothing when the entry is not exported. */
  lemma ExportOpsOne(p: ProcessState, x: MainAdvert, env: Env)
    ensures ExportOps(p, [x], env).Success? <==> ComputeExportRoute(p, x.route, env).Success?
    ensures forall y :: ExportsAs(p, x, env, y) ==> ExportOps(p, [x], env).value == [Advert(y, x.withdrawn)]
    ensures ComputeExportRoute(p, x.route, env) == Success(None) ==> ExportOps(p, [x], env).value == []
  {
    assert [x][1..] == [];
  }

  /**
   * Entry `i` of a delta contributes its operations between those of the entries before it
   * and those of the entries after it.
   */
  lemma ExportOpsAt(p: ProcessState, d: seq<MainAdvert>, i: int, env: Env)
    requires 0 <= i < |d|
    ensures ExportOps(p, d, env).Success? <==>
      ExportOps(p, d[..i], env).Success? && ExportOps(p, [d[i]], env).Success? && ExportOps(p, d[i + 1..], env).Success?
    ensures ExportOps(p, d, env).Success? ==>
      ExportOps(p, d, env).value ==
      ExportOps(p, d[..i], env).value + ExportOps(p, [d[i]], env).value + ExportOps(p, d[i + 1..], env).value
  {
    assert d == d[..i] + ([d[i]] + d[i + 1..]);
    ExportOpsConcat(p, d[..i], [d[i]] + d[i + 1..], env);
    ExportOpsConcat(p, [d[i]], d[i + 1..], env);
  }

  /**
   * Exporting a delta succeeds exactly when every entry's export route can be computed, and
   * then every exported entry asks for its route, withdrawn when the entry is.
   */
  lemma {:induction false} ExportOpsExactly(p: ProcessState, d: seq<MainAdvert>, env: Env)
    ensures ExportOps(p, d, env).Success? <==> forall i :: 0 <= i < |d| ==> ComputeExportRoute(p, d[i].route, env).Success?
    ensures ExportOps(p, d, env).Success? ==> forall i, x :: 0 <= i < |d| && ExportsAs(p, d[i], env, x) ==>
      Advert(x, d[i].withdrawn) in ExportOps(p, d, env).value
    decreases |d|
  {
    if d != [] {
      ExportOpsExactly(p, d[1..], env);
      ExportOpsAt(p, d, 0, env);
      ExportOpsOne(p, d[0], env);
      assert d[..0] == [] && d[0 + 1..] == d[1..];
      assert forall i :: 1 <= i < |d| ==> d[i] == d[1..][i - 1];
    }
  }

  /**
   * The operations of a concatenated main-RIB delta are the operations of its parts,
   * concatenated: entries are exported independently and in order.
   */
  lemma {:induction false} ExportOpsConcat(p: ProcessState, d1: seq<MainAdvert>, d2: seq<MainAdvert>, env: Env)
    ensures ExportOps(p, d1 + d2, env).Success? <==> ExportOps(p, d1, env).Success? && ExportOps(p, d2, env).Success?
    ensures ExportOps(p, d1 + d2, env).Success? ==>
      ExportOps(p, d1 + d2, env).value == ExportOps(p, d1, env).value + ExportOps(p, d2, env).value
    decreases |d1|
  {
    if d1 == [] {
      assert d1 + d2 == d2;
    } else {
      var h, t := ExportOps(p, [d1[0]], env), ExportOps(p, d1[1..] + d2, env);
      assert ExportOps(p, d1 + d2, env).Success? <==> h.Success? && t.Success? by {
        ConcatTail(d1, d2);
        ExportOpsHead(p, d1 + d2, env);
      }
      assert ExportOps(p, d1 + d2, env).Success? ==> ExportOps(p, d1 + d2, env).value == h.value + t.value by {
        ConcatTail(d1, d2);
        ExportOpsHead(p, d1 + d2, env);
      }
      assert ExportOps(p, d1, env).Success? <==> h.Success? && ExportOps(p, d1[1..], env).Success? by {
        ExportOpsHead(p, d1, env);
      }
      assert ExportOps(p, d1, env).Success? ==> ExportOps(p, d1, env).value == h.value + ExportOps(p, d1[1..], env).value by {
        ExportOpsHead(p, d1, env);
      }
      ExportOpsConcat(p, d1[1..], d2, env);
      if ExportOps(p, d1 + d2, env).Success? {
        var a, b := ExportOps(p, d1[1..], env).value, ExportOps(p, d2, env).value;
        ConcatAssociative(h.value, a, b);
      }
    }
  }

  /** A non-empty delta asks for the operations of its first entry, then for those of the rest. */
  lemma ExportOpsHead(p: ProcessState, d: seq<MainAdvert>, env: Env)
    requires d != []
    ensures ExportOps(p, d, env).Success? <==> ExportOps(p, [d[0]], env).Success? && ExportOps(p, d[1..], env).Success?
    ensures ExportOps(p, d, env).Success? ==>
      ExportOps(p, d, env).value == ExportOps(p, [d[0]], env).value + ExportOps(p, d[1..], env).value
  {
    assert [d[0]][1..] == [];
  }

  /** A main-RIB entry that exports nothing leaves the requested operations unchanged. */
  lemma {:induction false} IgnoredEntryContributesNothing(p: ProcessState, d1: seq<MainAdvert>, x: MainAdvert,
                                                          d2: seq<MainAdvert>, env: Env)
    requires ComputeExportRoute(p, x.route, env) == Success(None)
    ensures ExportOps(p, d1 + [x] + d2, env) == ExportOps(p, d1 + d2, env)
    decreases |d1|
  {
    if d1 == [] {
      var s := [x] + d2;
      assert d1 + [x] + d2 == s && d1 + d2 == d2;
      assert s[0] == x && s[1..] == d2;
      var rest := ExportOps(p, d2, env);
      if rest.Success? {
        assert [] + rest.value == rest.value;
      }
      assert ExportOps(p, s, env) == rest;
    } else {
      assert (d1 + [x] + d2)[0] == d1[0] && (d1 + d2)[0] == d1[0];
      assert (d1 + [x] + d2)[1..] == d1[1..] + [x] + d2;
      assert (d1 + d2)[1..] == d1[1..] + d2;
      IgnoredEntryContributesNothing(p, d1[1..], x, d2, env);
    }
  }

  /**
   * Export the main-RIB delta into the external RIB: accepted announcements are merged and
   * accepted withdrawals removed. The resulting delta replaces the pending redistribution.
   */
  function Redistribute(p: ProcessState, d: seq<MainAdvert>, env: Env): (r: Result<ProcessState, Error>)
    ensures r.Success? ==> r.value == p.(externalRib := r.value.externalRib, queued := r.value.queued)
    ensures r.Success? ==> r.value.externalRib == Replay(p.externalRib, r.value.queued)
    ensures r.Success? ==> forall a :: a in r.value.queued && !a.withdrawn ==>
      a.route.admin == p.externalAdmin && a.route.processAsn == p.asn && a.route.nonRouting
    ensures p.exportPolicy.None? ==> r == Success(p.(queued := []))
    ensures r.Success? <==> ExportOps(p, d, env).Success?
    ensures r.Success? ==> r.value.queued == ApplyOps(p.externalRib, ExportOps(p, d, env).value, env.prefer).delta
    ensures r.Success? ==> r.value.externalRib == ApplyOps(p.externalRib, ExportOps(p, d, env).value, env.prefer).rib
  {
    var ops :- ExportOps(p, d, env);
    var u := ApplyOps(p.externalRib, ops, env.prefer);
    ApplyOpsKeepsKind(p.externalRib, ops, env.prefer, false);
    ApplyOpsReplay(p.externalRib, ops, env.prefer);
    var rib: ExternalRib := u.rib;
    var delta: seq<ExternalAdvert> := u.delta;
    Success(p.(externalRib := rib, queued := delta))
  }

  /** What was pending before has no bearing on what redistribution leaves pending. */
  lemma RedistributeReplacesPending(p: ProcessState, d: seq<MainAdvert>, env: Env, earlier: seq<ExternalAdvert>)
    ensures Redistribute(p.(queued := earlier), d, env) == Redistribute(p, d, env)
  {
    assert ExportOps(p.(queued := earlier), d, env) == ExportOps(p, d, env) by {
      ExportOpsIgnoresExternal(p, d, env, p.externalRib, earlier);
    }
  }

  /** The export operations depend on the process's configuration, not on its external RIB or pending queue. */
  lemma {:induction false} ExportOpsIgnoresExternal(p: ProcessState, d: seq<MainAdvert>, env: Env, rib: ExternalRib, earlier: seq<ExternalAdvert>)
    ensures ExportOps(p.(externalRib := rib, queued := earlier), d, env) == ExportOps(p, d, env)
    decreases |d|
  {
    if d != [] {
      ExportOpsIgnoresExternal(p, d[1..], env, rib, earlier);
    }
  }

  /**
   * Redistributing a delta in two parts installs the same external RIB as redistributing it
   * at once, and what is left pending is the two parts' deltas together.
   */
  lemma RedistributeSplit(p: ProcessState, d1: seq<MainAdvert>, d2: seq<MainAdvert>, env: Env)
    ensures Redistribute(p, d1 + d2, env).Success? <==>
      Redistribute(p, d1, env).Success? && Redistribute(Redistribute(p, d1, env).value, d2, env).Success?
    ensures Redistribute(p, d1 + d2, env).Success? ==>
      && Redistribute(p, d1 + d2, env).value.externalRib == Redistribute(Redistribute(p, d1, env).value, d2, env).value.externalRib
      && Redistribute(p, d1 + d2, env).value.queued ==
         Redistribute(p, d1, env).value.queued + Redistribute(Redistribute(p, d1, env).value, d2, env).value.queued
  {
    ExportOpsConcat(p, d1, d2, env);
    var r1 := Redistribute(p, d1, env);
    if r1.Success? && ExportOps(p, d2, env).Success? {
      ExportOpsIgnoresExternal(p, d2, env, r1.value.externalRib, r1.value.queued);
      assert r1.value == p.(externalRib := r1.value.externalRib, queued := r1.value.queued);
      ApplyOpsConcat(p.externalRib, ExportOps(p, d1, env).value, ExportOps(p, d2, env).value, env.prefer);
    } else if r1.Success? {
      ExportOpsIgnoresExternal(p, d2, env, r1.value.externalRib, r1.value.queued);
      assert r1.value == p.(externalRib := r1.value.externalRib, queued := r1.value.queued);
    }
  }

  // ---------------------------------------------------------------------------
  // Processing the inboxes

  /** A process state after a processing step, with the delta that step produced. */
  datatype Processed<A> = Processed(state: ProcessState, delta: seq<A>)

  /** The interface behind a neighbour id; a missing one aborts the round. */
  function Lookup(env: Env, id: NeighborId): (r: Result<Interface, Error>)
    ensures r.Success? <==> env.lookup(id).Some?
  {
    if env.lookup(id).Some? then Success(env.lookup(id).value) else Failure(MissingInterface(id))
  }

  /**
   * What draining one internal inbox reads from its edge: the receiving interface's metric,
   * the advertiser's address and, if it has EIGRP settings, the advertiser's metric.
   */
  datatype InternalLink = InternalLink(connecting: Metric, nextHop: Ip, neighbor: Option<Metric>)

  /**
   * Read edge `e` for draining its internal inbox: the receiving interface must exist and
   * have EIGRP settings, and the advertiser's interface must exist and have an address.
   * The advertiser's EIGRP settings are read only once a message needs them.
   */
  function InternalLinkOf(e: Edge, env: Env): (r: Result<InternalLink, Error>)
    ensures r.Success? <==>
      && env.lookup(e.node2).Some? && env.lookup(e.node2).value.eigrp.Some?
      && env.lookup(e.node1).Some? && env.lookup(e.node1).value.address.Some?
    ensures r.Success? ==>
      && r.value.connecting == env.lookup(e.node2).value.eigrp.value.metric
      && r.value.nextHop == env.lookup(e.node1).value.address.value.ip
      && (r.value.neighbor.Some? <==> env.lookup(e.node1).value.eigrp.Some?)
      && (r.value.neighbor.Some? ==> r.value.neighbor.value == env.lookup(e.node1).value.eigrp.value.metric)
    ensures r.Failure? ==>
      r.error in {MissingInterface(e.node2), MissingEigrpSettings(e.node2), MissingInterface(e.node1), MissingAddress(e.node1)}
  {
    var local :- Lookup(env, e.node2);
    if local.eigrp.None? then Failure(MissingEigrpSettings(e.node2))
    else
      var remote :- Lookup(env, e.node1);
      if remote.address.None? then Failure(MissingAddress(e.node1))
      else
        Success(InternalLink(local.eigrp.value.metric, remote.address.value.ip,
                             if remote.eigrp.Some? then Some(remote.eigrp.value.metric) else None))
  }

  /**
   * The internal route a received message becomes at this process: a fresh route for the
   * message's network, with the metric accumulated over the hop, the internal admin cost,
   * this process's AS and the advertiser as next hop. It is withdrawn when the message is.
   */
  function InternalOp(p: ProcessState, env: Env, connecting: Metric, neighbor: Metric, nextHop: Ip,
                      a: InternalAdvert): (r: InternalAdvert)
    ensures r.withdrawn == a.withdrawn && r.route.network == a.route.network
    ensures r.route.metric == env.accumulate(connecting, neighbor, a.route.metric)
    ensures r.route.admin == p.internalAdmin && r.route.processAsn == p.asn && r.route.nextHop == Some(nextHop)
  {
    Advert(Internal(a.route.network, env.accumulate(connecting, neighbor, a.route.metric),
                    p.internalAdmin, p.asn, Some(nextHop)), a.withdrawn)
  }

  function InternalOps(p: ProcessState, env: Env, connecting: Metric, neighbor: Metric, nextHop: Ip,
                       q: seq<InternalAdvert>): (ops: seq<InternalAdvert>)
    ensures |ops| == |q|
    ensures forall k :: 0 <= k < |q| ==> ops[k] == InternalOp(p, env, connecting, neighbor, nextHop, q[k])
    ensures forall a :: a in ops ==> exists m :: m in q && a == InternalOp(p, env, connecting, neighbor, nextHop, m)
    ensures forall a :: a in ops ==>
      a.route.admin == p.internalAdmin && a.route.processAsn == p.asn && a.route.nextHop == Some(nextHop)
    decreases |q|
  {
    if q == [] then []
    else [InternalOp(p, env, connecting, neighbor, nextHop, q[0])] + InternalOps(p, env, connecting, neighbor, nextHop, q[1..])
  }

  /**
   * Announcement `a` is what message `m`, received on `e`, becomes at this process: it keeps
   * the message's network, accumulates the receiving interface's metric, the advertiser's
   * metric and the advertised metric, and has the advertiser's address as next hop.
   */
  ghost predicate InternalLearned(p: ProcessState, env: Env, e: Edge, m: InternalAdvert, a: Advert) {
    && InternalLinkOf(e, env).Success? && InternalLinkOf(e, env).value.neighbor.Some?
    && var link := InternalLinkOf(e, env).value;
       a == InternalOp(p, env, link.connecting, link.neighbor.value, link.nextHop, m)
  }
  /** Every announcement of `d` is what some message queued at `p` becomes. */
  ghost predicate LearnedInternally(p: ProcessState, env: Env, d: seq<InternalAdvert>) {
    forall a :: a in d && !a.withdrawn ==>
      exists e, m :: e in p.internalInbox && m in p.internalInbox[e] && InternalLearned(p, env, e, m, a)
  }

  /**
   * Announcements learned from inbox `e0` of `p`, followed by announcements learned after
   * draining `e0`, were all learned from the inboxes of `p`.
   */
  lemma LearnedInternallyStep(p: ProcessState, e0: Edge, env: Env, first: Processed<InternalAdvert>, later: seq<InternalAdvert>)
    requires e0 in p.internalInbox
    requires first.state == p ||
      first.state == p.(internalRib := first.state.internalRib, internalInbox := p.internalInbox[e0 := []])
    requires forall a :: a in first.delta && !a.withdrawn ==>
      exists m :: m in p.internalInbox[e0] && InternalLearned(p, env, e0, m, a)
    requires LearnedInternally(first.state, env, later)
    ensures LearnedInternally(p, env, first.delta + later)
  {
    var q := first.state;
    forall a | a in first.delta + later && !a.withdrawn
      ensures exists e, m :: e in p.internalInbox && m in p.internalInbox[e] && InternalLearned(p, env, e, m, a)
    {
      if a in first.delta {
        var m :| m in p.internalInbox[e0] && InternalLearned(p, env, e0, m, a);
      } else {
        var e, m :| e in q.internalInbox && m in q.internalInbox[e] && InternalLearned(q, env, e, m, a);
        assert e in p.internalInbox && m in p.internalInbox[e];
        assert InternalLearned(p, env, e, m, a);
      }
    }
  }


  /**
   * The RIB operations the internal inbox of `e` asks for, in FIFO order: message `k`
   * becomes operation `k`, learned over the edge. Reading the edge fails as
   * `InternalLinkOf` says, and a message from an advertiser without EIGRP settings fails.
   */
  function InternalQueueOps(p: ProcessState, e: Edge, env: Env): (r: Result<seq<InternalAdvert>, Error>)
    requires e in p.internalInbox
    ensures r.Success? <==>
      InternalLinkOf(e, env).Success? && (p.internalInbox[e] == [] || InternalLinkOf(e, env).value.neighbor.Some?)
    ensures r.Success? ==> |r.value| == |p.internalInbox[e]|
    ensures r.Success? ==> forall k :: 0 <= k < |r.value| ==>
      InternalLearned(p, env, e, p.internalInbox[e][k], r.value[k])
  {
    var link :- InternalLinkOf(e, env);
    var q := p.internalInbox[e];
    if q == [] then Success([])
    else if link.neighbor.None? then Failure(MissingEigrpSettings(e.node1))
    else Success(InternalOps(p, env, link.connecting, link.neighbor.value, link.nextHop, q))
  }

  /** Every operation an internal inbox asks for is learned from one of its messages. */
  lemma InternalQueueOpsLearned(p: ProcessState, e: Edge, env: Env)
    requires e in p.internalInbox && InternalQueueOps(p, e, env).Success?
    ensures forall a :: a in InternalQueueOps(p, e, env).value ==>
      exists m :: m in p.internalInbox[e] && InternalLearned(p, env, e, m, a)
  {
    var ops := InternalQueueOps(p, e, env).value;
    forall a | a in ops
      ensures exists m :: m in p.internalInbox[e] && InternalLearned(p, env, e, m, a)
    {
      var k :| 0 <= k < |ops| && ops[k] == a;
      assert p.internalInbox[e][k] in p.internalInbox[e];
    }
  }

  /**
   * Drain the internal inbox of edge `e` in FIFO order into the internal RIB: withdrawn
   * messages are removed, the others merged.
   */
  function DrainInternal(p: ProcessState, e: Edge, env: Env): (r: Result<Processed<InternalAdvert>, Error>)
    requires e in p.internalInbox
    ensures r.Success? <==> InternalQueueOps(p, e, env).Success?
    ensures r.Success? ==>
      && r.value.delta == ApplyOps(p.internalRib, InternalQueueOps(p, e, env).value, env.prefer).delta
      && r.value.state.internalRib == ApplyOps(p.internalRib, InternalQueueOps(p, e, env).value, env.prefer).rib
    ensures r.Success? ==>
      r.value.state == p.(internalRib := r.value.state.internalRib, internalInbox := p.internalInbox[e := []])
    ensures r.Success? ==> r.value.state.internalRib == Replay(p.internalRib, r.value.delta)
    ensures r.Success? ==> forall a :: a in r.value.delta && !a.withdrawn ==>
      a.route.admin == p.internalAdmin && a.route.processAsn == p.asn && a.route.nextHop.Some?
    ensures r.Success? ==> forall a :: a in r.value.delta && !a.withdrawn ==>
      exists m :: m in p.internalInbox[e] && InternalLearned(p, env, e, m, a)
  {
    var ops :- InternalQueueOps(p, e, env);
    var u := ApplyOps(p.internalRib, ops, env.prefer);
    InternalQueueOpsLearned(p, e, env);
    ApplyOpsKeepsKind(p.internalRib, ops, env.prefer, true);
    ApplyOpsReplay(p.internalRib, ops, env.prefer);
    var rib: InternalRib := u.rib;
    var delta: seq<InternalAdvert> := u.delta;
    Success(Processed(p.(internalRib := rib, internalInbox := p.internalInbox[e := []]), delta))
  }

  /** Drain the internal inboxes of `keys`, in order, concatenating their deltas. */
  function ProcessInternalEdges(p: ProcessState, keys: seq<Edge>, env: Env): (r: Result<Processed<InternalAdvert>, Error>)
    requires forall e :: e in keys ==> e in p.internalInbox
    ensures r.Success? ==>
      r.value.state == p.(internalRib := r.value.state.internalRib, internalInbox := r.value.state.internalInbox)
    ensures r.Success? ==> r.value.state.internalInbox.Keys == p.internalInbox.Keys
    ensures r.Success? ==> forall e :: e in keys ==> r.value.state.internalInbox[e] == []
    ensures r.Success? ==> forall e :: e in p.internalInbox && e !in keys ==>
      r.value.state.internalInbox[e] == p.internalInbox[e]
    ensures r.Success? ==> r.value.state.internalRib == Replay(p.internalRib, r.value.delta)
    ensures r.Success? ==> forall a :: a in r.value.delta && !a.withdrawn ==>
      a.route.admin == p.internalAdmin && a.route.processAsn == p.asn && a.route.nextHop.Some?
    ensures r.Success? ==> LearnedInternally(p, env, r.value.delta)
    decreases |keys|
  {
    if keys == [] then Success(Processed(p, []))
    else
      var first :- DrainInternal(p, keys[0], env);
      var rest :- ProcessInternalEdges(first.state, keys[1..], env);
      ReplayConcat(p.internalRib, first.delta, rest.delta);
      LearnedInternallyStep(p, keys[0], env, first, rest.delta);
      Success(Processed(rest.state, first.delta + rest.delta))
  }

  /**
   * The reference for draining the internal inboxes of `keys`: the operations every queue
   * asks for, read before anything is drained, concatenated in key order.
   */
  function AllInternalOps(p: ProcessState, keys: seq<Edge>, env: Env): Result<seq<InternalAdvert>, Error>
    requires forall e :: e in keys ==> e in p.internalInbox
    decreases |keys|
  {
    if keys == [] then Success([])
    else
      var first :- InternalQueueOps(p, keys[0], env);
      var rest :- AllInternalOps(p, keys[1..], env);
      Success(first + rest)
  }

  /** The operations of a queue depend only on its messages, the admin cost and the AS. */
  lemma InternalQueueOpsFrame(p: ProcessState, p1: ProcessState, e: Edge, env: Env)
    requires e in p.internalInbox && e in p1.internalInbox && p1.internalInbox[e] == p.internalInbox[e]
    requires p1.internalAdmin == p.internalAdmin && p1.asn == p.asn
    ensures InternalQueueOps(p1, e, env) == InternalQueueOps(p, e, env)
  {
    var r, r1 := InternalQueueOps(p, e, env), InternalQueueOps(p1, e, env);
    if r.Success? {
      assert r1.Success? && |r1.value| == |r.value|;
      forall k | 0 <= k < |r.value| ensures r1.value[k] == r.value[k] {
        assert InternalLearned(p, env, e, p.internalInbox[e][k], r.value[k]);
        assert InternalLearned(p1, env, e, p.internalInbox[e][k], r1.value[k]);
      }
      assert r1.value == r.value;
    }
  }

  lemma {:induction false} AllInternalOpsFrame(p: ProcessState, p1: ProcessState, keys: seq<Edge>, env: Env)
    requires forall e :: e in keys ==> e in p.internalInbox && e in p1.internalInbox && p1.internalInbox[e] == p.internalInbox[e]
    requires p1.internalAdmin == p.internalAdmin && p1.asn == p.asn
    ensures AllInternalOps(p1, keys, env) == AllInternalOps(p, keys, env)
    decreases |keys|
  {
    if keys != [] {
      InternalQueueOpsFrame(p, p1, keys[0], env);
      AllInternalOpsFrame(p, p1, keys[1..], env);
    }
  }

  /**
   * Draining the internal inboxes of distinct `keys` one after the other is applying, in
   * one run, every queued message's operation in key order and FIFO order within a queue:
   * it fails exactly when the reference fails, and otherwise ends with the same internal
   * RIB and reports the same delta.
   */
  lemma {:induction false} ProcessInternalEdgesIsBatch(p: ProcessState, keys: seq<Edge>, env: Env)
    requires NoDuplicates(keys) && forall e :: e in keys ==> e in p.internalInbox
    ensures ProcessInternalEdges(p, keys, env).Success? <==> AllInternalOps(p, keys, env).Success?
    ensures ProcessInternalEdges(p, keys, env).Success? ==>
      && ProcessInternalEdges(p, keys, env).value.delta ==
         ApplyOps(p.internalRib, AllInternalOps(p, keys, env).value, env.prefer).delta
      && ProcessInternalEdges(p, keys, env).value.state.internalRib ==
         ApplyOps(p.internalRib, AllInternalOps(p, keys, env).value, env.prefer).rib
    decreases |keys|
  {
    if keys != [] {
      var first := DrainInternal(p, keys[0], env);
      if first.Success? {
        var p1 := first.value.state;
        var rest := keys[1..];
        forall e | e in rest
          ensures e in p1.internalInbox && p1.internalInbox[e] == p.internalInbox[e]
        {
          var j :| 0 <= j < |rest| && rest[j] == e;
          assert keys[j + 1] == e;
        }
        NoDuplicatesRest(keys);
        ProcessInternalEdgesIsBatch(p1, rest, env);
        AllInternalOpsFrame(p, p1, rest, env);
        var ops0 := InternalQueueOps(p, keys[0], env).value;
        if AllInternalOps(p, rest, env).Success? {
          ApplyOpsConcat(p.internalRib, ops0, AllInternalOps(p, rest, env).value, env.prefer);
        }
      }
    }
  }

  /**
   * Drain every internal inbox, in inbox order and each in FIFO order. On success every
   * internal inbox is empty, only the internal RIB and the inboxes changed, and the delta
   * is an exact record of the internal RIB's change; every route it announces is what some
   * queued message became, so it has the internal admin cost, this process's AS and a
   * next hop.
   */
  function ProcessInternal(p: ProcessState, env: Env): (r: Result<Processed<InternalAdvert>, Error>)
    requires Valid(p)
    ensures r.Success? ==>
      r.value.state == p.(internalRib := r.value.state.internalRib, internalInbox := r.value.state.internalInbox)
    ensures r.Success? ==> r.value.state.internalInbox.Keys == p.internalInbox.Keys
    ensures r.Success? ==> forall e :: e in r.value.state.internalInbox ==> r.value.state.internalInbox[e] == []
    ensures r.Success? ==> r.value.state.internalRib == Replay(p.internalRib, r.value.delta)
    ensures r.Success? ==> forall a :: a in r.value.delta && !a.withdrawn ==>
      a.route.admin == p.internalAdmin && a.route.processAsn == p.asn && a.route.nextHop.Some?
    ensures r.Success? ==> LearnedInternally(p, env, r.value.delta)
    ensures r.Success? <==> AllInternalOps(p, p.inboxOrder, env).Success?
    ensures r.Success? ==>
      && r.value.delta == ApplyOps(p.internalRib, AllInternalOps(p, p.inboxOrder, env).value, env.prefer).delta
      && r.value.state.internalRib == ApplyOps(p.internalRib, AllInternalOps(p, p.inboxOrder, env).value, env.prefer).rib
  {
    ProcessInternalEdgesIsBatch(p, p.inboxOrder, env);
    ProcessInternalEdges(p, p.inboxOrder, env)
  }

  /**
   * What draining one external inbox reads from its edge: the receiving interface's
   * metric, the advertiser's metric and the advertiser's address.
   */
  datatype ExternalLink = ExternalLink(connecting: Metric, nextHopMetric: Metric, nextHop: Ip)

  /**
   * Read edge `e` for draining its external inbox. The advertiser's interface must exist; if
   * it has no EIGRP settings the edge is skipped without looking further. Otherwise the
   * receiving interface must exist, the edge is skipped if it has no EIGRP settings, and
   * failing that the advertiser must have an address.
   */
  function ExternalLinkOf(e: Edge, env: Env): (r: Result<Option<ExternalLink>, Error>)
    ensures r.Success? <==>
      && env.lookup(e.node1).Some?
      && (SkipsEdge(env, e) || (env.lookup(e.node2).Some? && env.lookup(e.node1).value.address.Some?))
    ensures r == Success(None) <==> SkipsEdge(env, e)
    ensures r.Success? && r.value.Some? ==>
      && env.lookup(e.node2).Some?
      && r.value.value.connecting == env.lookup(e.node2).value.eigrp.value.metric
      && r.value.value.nextHopMetric == env.lookup(e.node1).value.eigrp.value.metric
      && r.value.value.nextHop == env.lookup(e.node1).value.address.value.ip
    ensures r.Failure? ==> r.error in {MissingInterface(e.node1), MissingInterface(e.node2), MissingAddress(e.node1)}
  {
    var nextHopIface :- Lookup(env, e.node1);
    if nextHopIface.eigrp.None? then Success(None)
    else
      var connectingIface :- Lookup(env, e.node2);
      if connectingIface.eigrp.None? then Success(None)
      else if nextHopIface.address.None? then Failure(MissingAddress(e.node1))
      else
        Success(Some(ExternalLink(connectingIface.eigrp.value.metric, nextHopIface.eigrp.value.metric,
                                  nextHopIface.address.value.ip)))
  }

  /**
   * The edge is skipped: the advertiser's interface exists without EIGRP settings, or it has
   * them and the receiving interface exists without them. The test short-circuits, so the
   * receiving interface is not consulted when the advertiser's lacks EIGRP settings.
   */
  predicate SkipsEdge(env: Env, e: Edge) {
    && env.lookup(e.node1).Some?
    && (|| env.lookup(e.node1).value.eigrp.None?
        || (env.lookup(e.node2).Some? && env.lookup(e.node2).value.eigrp.None?))
  }

  /** An advertiser without EIGRP settings skips the edge whatever the receiving end is. */
  lemma SkipIgnoresReceiver(e: Edge, env: Env)
    requires env.lookup(e.node1).Some? && env.lookup(e.node1).value.eigrp.None?
    ensures ExternalLinkOf(e, env) == Success(None)
  {
  }

  /**
   * The external route a received message becomes: network and destination AS are kept, the
   * metric is accumulated over the hop, and the route has the external admin cost, this
   * process's AS, the advertiser as next hop and is routing. It is withdrawn when the
   * message is.
   */
  function ExternalOp(p: ProcessState, env: Env, link: ExternalLink, a: ExternalAdvert): (r: ExternalAdvert)
    ensures r.withdrawn == a.withdrawn && r.route.network == a.route.network
    ensures r.route.destinationAsn == a.route.destinationAsn
    ensures r.route.metric == env.accumulate(link.connecting, link.nextHopMetric, a.route.metric)
    ensures r.route.admin == p.externalAdmin && r.route.processAsn == p.asn
    ensures r.route.nextHop == Some(link.nextHop) && !r.route.nonRouting
  {
    Advert(External(a.route.network, env.accumulate(link.connecting, link.nextHopMetric, a.route.metric),
                    p.externalAdmin, p.asn, Some(link.nextHop), a.route.destinationAsn, false), a.withdrawn)
  }

  function ExternalOps(p: ProcessState, env: Env, link: ExternalLink, q: seq<ExternalAdvert>): (ops: seq<ExternalAdvert>)
    ensures |ops| == |q|
    ensures forall k :: 0 <= k < |q| ==> ops[k] == ExternalOp(p, env, link, q[k])
    ensures forall a :: a in ops ==> exists m :: m in q && a == ExternalOp(p, env, link, m)
    ensures forall a :: a in ops ==>
      a.route.admin == p.externalAdmin && a.route.processAsn == p.asn &&
      a.route.nextHop == Some(link.nextHop) && !a.route.nonRouting
    decreases |q|
  {
    if q == [] then [] else [ExternalOp(p, env, link, q[0])] + ExternalOps(p, env, link, q[1..])
  }

  /**
   * Announcement `a` is what message `m`, received on `e`, becomes at this process: the
   * edge's two ends have EIGRP settings, and `a` keeps the message's network and
   * destination AS and accumulates its metric over the edge.
   */
  ghost predicate ExternalLearned(p: ProcessState, env: Env, e: Edge, m: ExternalAdvert, a: Advert) {
    && ExternalLinkOf(e, env).Success? && ExternalLinkOf(e, env).value.Some?
    && a == ExternalOp(p, env, ExternalLinkOf(e, env).value.value, m)
  }
  /** Every announcement of `d` is what some message queued at `p` becomes. */
  ghost predicate LearnedExternally(p: ProcessState, env: Env, d: seq<ExternalAdvert>) {
    forall a :: a in d && !a.withdrawn ==>
      exists e, m :: e in p.externalInbox && m in p.externalInbox[e] && ExternalLearned(p, env, e, m, a)
  }

  /**
   * Announcements learned from inbox `e0` of `p`, followed by announcements learned after
   * draining `e0`, were all learned from the inboxes of `p`.
   */
  lemma LearnedExternallyStep(p: ProcessState, e0: Edge, env: Env, first: Processed<ExternalAdvert>, later: seq<ExternalAdvert>)
    requires e0 in p.externalInbox
    requires first.state == p ||
      first.state == p.(externalRib := first.state.externalRib, externalInbox := p.externalInbox[e0 := []])
    requires forall a :: a in first.delta && !a.withdrawn ==>
      exists m :: m in p.externalInbox[e0] && ExternalLearned(p, env, e0, m, a)
    requires LearnedExternally(first.state, env, later)
    ensures LearnedExternally(p, env, first.delta + later)
  {
    var q := first.state;
    forall a | a in first.delta + later && !a.withdrawn
      ensures exists e, m :: e in p.externalInbox && m in p.externalInbox[e] && ExternalLearned(p, env, e, m, a)
    {
      if a in first.delta {
        var m :| m in p.externalInbox[e0] && ExternalLearned(p, env, e0, m, a);
      } else {
        var e, m :| e in q.externalInbox && m in q.externalInbox[e] && ExternalLearned(q, env, e, m, a);
        assert e in p.externalInbox && m in p.externalInbox[e];
        assert ExternalLearned(p, env, e, m, a);
      }
    }
  }


  /**
   * The RIB operations the external inbox of `e` asks for, in FIFO order: none when the
   * edge is skipped, and otherwise message `k` becomes operation `k`, learned over the
   * edge. Reading the edge fails as `ExternalLinkOf` says.
   */
  function ExternalQueueOps(p: ProcessState, e: Edge, env: Env): (r: Result<seq<ExternalAdvert>, Error>)
    requires e in p.externalInbox
    ensures r.Success? <==> ExternalLinkOf(e, env).Success?
    ensures r.Success? && SkipsEdge(env, e) ==> r.value == []
    ensures r.Success? && !SkipsEdge(env, e) ==>
      && |r.value| == |p.externalInbox[e]|
      && forall k :: 0 <= k < |r.value| ==> ExternalLearned(p, env, e, p.externalInbox[e][k], r.value[k])
  {
    var link :- ExternalLinkOf(e, env);
    if link.None? then Success([]) else Success(ExternalOps(p, env, link.value, p.externalInbox[e]))
  }

  /** Every operation an external inbox asks for is learned from one of its messages. */
  lemma ExternalQueueOpsLearned(p: ProcessState, e: Edge, env: Env)
    requires e in p.externalInbox && ExternalQueueOps(p, e, env).Success?
    ensures forall a :: a in ExternalQueueOps(p, e, env).value ==>
      exists m :: m in p.externalInbox[e] && ExternalLearned(p, env, e, m, a)
  {
    var ops := ExternalQueueOps(p, e, env).value;
    forall a | a in ops
      ensures exists m :: m in p.externalInbox[e] && ExternalLearned(p, env, e, m, a)
    {
      var k :| 0 <= k < |ops| && ops[k] == a;
      assert p.externalInbox[e][k] in p.externalInbox[e];
    }
  }

  /** Drain the external inbox of `e` in FIFO order, or leave it untouched if `e` is skipped. */
  function DrainExternal(p: ProcessState, e: Edge, env: Env): (r: Result<Processed<ExternalAdvert>, Error>)
    requires e in p.externalInbox
    ensures r.Success? <==> ExternalQueueOps(p, e, env).Success?
    ensures r.Success? ==>
      && r.value.delta == ApplyOps(p.externalRib, ExternalQueueOps(p, e, env).value, env.prefer).delta
      && r.value.state.externalRib == ApplyOps(p.externalRib, ExternalQueueOps(p, e, env).value, env.prefer).rib
    ensures r.Success? && SkipsEdge(env, e) ==> r.value == Processed(p, [])
    ensures r.Success? ==> forall a :: a in r.value.delta && !a.withdrawn ==>
      exists m :: m in p.externalInbox[e] && ExternalLearned(p, env, e, m, a)
    ensures r.Success? && !SkipsEdge(env, e) ==>
      r.value.state == p.(externalRib := r.value.state.externalRib, externalInbox := p.externalInbox[e := []])
    ensures r.Success? ==> r.value.state.externalRib == Replay(p.externalRib, r.value.delta)
    ensures r.Success? ==> forall a :: a in r.value.delta && !a.withdrawn ==>
      a.route.admin == p.externalAdmin && a.route.processAsn == p.asn && a.route.nextHop.Some? &&
      !a.route.nonRouting
  {
    var ops :- ExternalQueueOps(p, e, env);
    if SkipsEdge(env, e) then Success(Processed(p, []))
    else
      var u := ApplyOps(p.externalRib, ops, env.prefer);
      ExternalQueueOpsLearned(p, e, env);
      ApplyOpsKeepsKind(p.externalRib, ops, env.prefer, false);
      ApplyOpsReplay(p.externalRib, ops, env.prefer);
      var rib: ExternalRib := u.rib;
      var delta: seq<ExternalAdvert> := u.delta;
      Success(Processed(p.(externalRib := rib, externalInbox := p.externalInbox[e := []]), delta))
  }

  /** Drain the external inboxes of `keys`, in order, concatenating their deltas. */
  function ProcessExternalEdges(p: ProcessState, keys: seq<Edge>, env: Env): (r: Result<Processed<ExternalAdvert>, Error>)
    requires forall e :: e in keys ==> e in p.externalInbox
    ensures r.Success? ==>
      r.value.state == p.(externalRib := r.value.state.externalRib, externalInbox := r.value.state.externalInbox)
    ensures r.Success? ==> r.value.state.externalInbox.Keys == p.externalInbox.Keys
    ensures r.Success? ==> forall e :: e in keys ==>
      r.value.state.externalInbox[e] == if SkipsEdge(env, e) then p.externalInbox[e] else []
    ensures r.Success? ==> forall e :: e in p.externalInbox && e !in keys ==>
      r.value.state.externalInbox[e] == p.externalInbox[e]
    ensures r.Success? ==> r.value.state.externalRib == Replay(p.externalRib, r.value.delta)
    ensures r.Success? ==> forall a :: a in r.value.delta && !a.withdrawn ==>
      a.route.admin == p.externalAdmin && a.route.processAsn == p.asn && a.route.nextHop.Some? &&
      !a.route.nonRouting
    ensures r.Success? ==> LearnedExternally(p, env, r.value.delta)
    decreases |keys|
  {
    if keys == [] then Success(Processed(p, []))
    else
      var first :- DrainExternal(p, keys[0], env);
      var rest :- ProcessExternalEdges(first.state, keys[1..], env);
      ReplayConcat(p.externalRib, first.delta, rest.delta);
      LearnedExternallyStep(p, keys[0], env, first, rest.delta);
      Success(Processed(rest.state, first.delta + rest.delta))
  }

  /**
   * The reference for draining the external inboxes of `keys`: the operations every queue
   * asks for, read before anything is drained, concatenated in key order; a skipped edge
   * asks for none.
   */
  function AllExternalOps(p: ProcessState, keys: seq<Edge>, env: Env): Result<seq<ExternalAdvert>, Error>
    requires forall e :: e in keys ==> e in p.externalInbox
    decreases |keys|
  {
    if keys == [] then Success([])
    else
      var first :- ExternalQueueOps(p, keys[0], env);
      var rest :- AllExternalOps(p, keys[1..], env);
      Success(first + rest)
  }

  /** The operations of a queue depend only on its messages, the admin cost and the AS. */
  lemma ExternalQueueOpsFrame(p: ProcessState, p1: ProcessState, e: Edge, env: Env)
    requires e in p.externalInbox && e in p1.externalInbox && p1.externalInbox[e] == p.externalInbox[e]
    requires p1.externalAdmin == p.externalAdmin && p1.asn == p.asn
    ensures ExternalQueueOps(p1, e, env) == ExternalQueueOps(p, e, env)
  {
    var r, r1 := ExternalQueueOps(p, e, env), ExternalQueueOps(p1, e, env);
    if r.Success? && !SkipsEdge(env, e) {
      assert r1.Success? && |r1.value| == |r.value|;
      forall k | 0 <= k < |r.value| ensures r1.value[k] == r.value[k] {
        assert ExternalLearned(p, env, e, p.externalInbox[e][k], r.value[k]);
        assert ExternalLearned(p1, env, e, p.externalInbox[e][k], r1.value[k]);
      }
      assert r1.value == r.value;
    }
  }

  lemma {:induction false} AllExternalOpsFrame(p: ProcessState, p1: ProcessState, keys: seq<Edge>, env: Env)
    requires forall e :: e in keys ==> e in p.externalInbox && e in p1.externalInbox && p1.externalInbox[e] == p.externalInbox[e]
    requires p1.externalAdmin == p.externalAdmin && p1.asn == p.asn
    ensures AllExternalOps(p1, keys, env) == AllExternalOps(p, keys, env)
    decreases |keys|
  {
    if keys != [] {
      ExternalQueueOpsFrame(p, p1, keys[0], env);
      AllExternalOpsFrame(p, p1, keys[1..], env);
    }
  }

  /**
   * Draining the external inboxes of distinct `keys` one after the other is applying, in
   * one run, every queued message's operation in key order and FIFO order within a queue,
   * skipped edges contributing none: it fails exactly when the reference fails, and
   * otherwise ends with the same external RIB and reports the same delta.
   */
  lemma {:induction false} ProcessExternalEdgesIsBatch(p: ProcessState, keys: seq<Edge>, env: Env)
    requires NoDuplicates(keys) && forall e :: e in keys ==> e in p.externalInbox
    ensures ProcessExternalEdges(p, keys, env).Success? <==> AllExternalOps(p, keys, env).Success?
    ensures ProcessExternalEdges(p, keys, env).Success? ==>
      && ProcessExternalEdges(p, keys, env).value.delta ==
         ApplyOps(p.externalRib, AllExternalOps(p, keys, env).value, env.prefer).delta
      && ProcessExternalEdges(p, keys, env).value.state.externalRib ==
         ApplyOps(p.externalRib, AllExternalOps(p, keys, env).value, env.prefer).rib
    decreases |keys|
  {
    if keys != [] {
      var first := DrainExternal(p, keys[0], env);
      if first.Success? {
        var p1 := first.value.state;
        var rest := keys[1..];
        NoDuplicatesRest(keys);
        forall e | e in rest
          ensures e in p1.externalInbox && p1.externalInbox[e] == p.externalInbox[e]
        {
          assert e != keys[0];
        }
        ProcessExternalEdgesIsBatch(p1, rest, env);
        AllExternalOpsFrame(p, p1, rest, env);
        var ops0 := ExternalQueueOps(p, keys[0], env).value;
        if AllExternalOps(p, rest, env).Success? {
          ApplyOpsConcat(p.externalRib, ops0, AllExternalOps(p, rest, env).value, env.prefer);
        }
      }
    }
  }

  /**
   * Drain every external inbox whose edge has EIGRP settings at both ends; the others keep
   * their messages. Only the external RIB and the inboxes change, the delta is an exact
   * record of the external RIB's change, and every route it announces is what some queued
   * message became: same network and destination AS, the external admin cost, this
   * process's AS and a next hop, and routing.
   */
  function ProcessExternal(p: ProcessState, env: Env): (r: Result<Processed<ExternalAdvert>, Error>)
    requires Valid(p)
    ensures r.Success? ==>
      r.value.state == p.(externalRib := r.value.state.externalRib, externalInbox := r.value.state.externalInbox)
    ensures r.Success? ==> r.value.state.externalInbox.Keys == p.externalInbox.Keys
    ensures r.Success? ==> forall e :: e in p.externalInbox ==>
      r.value.state.externalInbox[e] == if SkipsEdge(env, e) then p.externalInbox[e] else []
    ensures r.Success? ==> r.value.state.externalRib == Replay(p.externalRib, r.value.delta)
    ensures r.Success? ==> forall a :: a in r.value.delta && !a.withdrawn ==>
      a.route.admin == p.externalAdmin && a.route.processAsn == p.asn && a.route.nextHop.Some? &&
      !a.route.nonRouting
    ensures r.Success? ==> LearnedExternally(p, env, r.value.delta)
    ensures r.Success? <==> AllExternalOps(p, p.inboxOrder, env).Success?
    ensures r.Success? ==>
      && r.value.delta == ApplyOps(p.externalRib, AllExternalOps(p, p.inboxOrder, env).value, env.prefer).delta
      && r.value.state.externalRib == ApplyOps(p.externalRib, AllExternalOps(p, p.inboxOrder, env).value, env.prefer).rib
  {
    ProcessExternalEdgesIsBatch(p, p.inboxOrder, env);
    ProcessExternalEdges(p, p.inboxOrder, env)
  }

  /** Draining an empty internal inbox changes nothing and reports nothing. */
  lemma DrainQuietInternal(p: ProcessState, e: Edge, env: Env)
    requires e in p.internalInbox && p.internalInbox[e] == []
    ensures DrainInternal(p, e, env).Success? ==> DrainInternal(p, e, env).value == Processed(p, [])
  {
    assert p.internalInbox[e := []] == p.internalInbox;
  }

  /** Draining an empty external inbox changes nothing and reports nothing. */
  lemma DrainQuietExternal(p: ProcessState, e: Edge, env: Env)
    requires e in p.externalInbox && p.externalInbox[e] == []
    ensures DrainExternal(p, e, env).Success? ==> DrainExternal(p, e, env).value == Processed(p, [])
  {
    assert p.externalInbox[e := []] == p.externalInbox;
  }

  /** Draining inboxes that are all empty changes nothing and reports nothing. */
  lemma {:induction false} EmptyInternalInboxesChangeNothing(p: ProcessState, keys: seq<Edge>, env: Env)
    requires forall e :: e in keys ==> e in p.internalInbox && p.internalInbox[e] == []
    ensures ProcessInternalEdges(p, keys, env).Success? ==>
      ProcessInternalEdges(p, keys, env).value == Processed(p, [])
    decreases |keys|
  {
    if keys != [] {
      var first := DrainInternal(p, keys[0], env);
      if first.Success? {
        DrainQuietInternal(p, keys[0], env);
        EmptyInternalInboxesChangeNothing(p, keys[1..], env);
      }
    }
  }

  /** The external counterpart of `EmptyInternalInboxesChangeNothing`. */
  lemma {:induction false} EmptyExternalInboxesChangeNothing(p: ProcessState, keys: seq<Edge>, env: Env)
    requires forall e :: e in keys ==> e in p.externalInbox && p.externalInbox[e] == []
    ensures ProcessExternalEdges(p, keys, env).Success? ==>
      ProcessExternalEdges(p, keys, env).value == Processed(p, [])
    decreases |keys|
  {
    if keys != [] {
      var first := DrainExternal(p, keys[0], env);
      if first.Success? {
        DrainQuietExternal(p, keys[0], env);
        EmptyExternalInboxesChangeNothing(p, keys[1..], env);
      }
    }
  }

  /** The route a single announcement received on `e` becomes, read from the edge's two ends. */
  ghost function LearnedRoute(p: ProcessState, env: Env, e: Edge, m: InternalAdvert): EigrpRoute
    requires env.lookup(e.node1).Some? && env.lookup(e.node1).value.address.Some?
    requires env.lookup(e.node1).value.eigrp.Some?
    requires env.lookup(e.node2).Some? && env.lookup(e.node2).value.eigrp.Some?
  {
    Internal(m.route.network,
             env.accumulate(env.lookup(e.node2).value.eigrp.value.metric,
                            env.lookup(e.node1).value.eigrp.value.metric, m.route.metric),
             p.internalAdmin, p.asn, Some(env.lookup(e.node1).value.address.value.ip))
  }

  /** Draining an inbox that holds one announcement for an unknown network learns that route. */
  lemma DrainSingleAnnouncement(p: ProcessState, env: Env, e: Edge, m: InternalAdvert)
    requires e in p.internalInbox && p.internalInbox[e] == [m] && !m.withdrawn
    requires m.route.network !in p.internalRib
    ensures DrainInternal(p, e, env).Success? ==>
      && env.lookup(e.node1).Some? && env.lookup(e.node1).value.address.Some?
      && env.lookup(e.node1).value.eigrp.Some?
      && env.lookup(e.node2).Some? && env.lookup(e.node2).value.eigrp.Some?
      && DrainInternal(p, e, env).value.delta == [Advert(LearnedRoute(p, env, e, m), false)]
      && DrainInternal(p, e, env).value.state.internalRib == p.internalRib[m.route.network := LearnedRoute(p, env, e, m)]
  {
    var first := DrainInternal(p, e, env);
    if first.Success? {
      var link := InternalLinkOf(e, env).value;
      var route := LearnedRoute(p, env, e, m);
      assert link.connecting == env.lookup(e.node2).value.eigrp.value.metric;
      assert link.nextHop == env.lookup(e.node1).value.address.value.ip;
      assert link.neighbor == Some(env.lookup(e.node1).value.eigrp.value.metric);
      var ops := InternalOps(p, env, link.connecting, link.neighbor.value, link.nextHop, [m]);
      assert [m][1..] == [];
      assert ops == [Advert(route, false)];
      assert ops[1..] == [];
      assert ApplyOps(p.internalRib, ops, env.prefer) ==
        Update(p.internalRib[m.route.network := route], [Advert(route, false)]);
    }
  }

  /** A first inbox that is empty contributes nothing: draining starts with the next one. */
  lemma {:induction false} SkipQuietHead(p: ProcessState, keys: seq<Edge>, env: Env)
    requires keys != [] && forall k :: k in keys ==> k in p.internalInbox
    requires p.internalInbox[keys[0]] == []
    ensures ProcessInternalEdges(p, keys, env).Success? ==>
      ProcessInternalEdges(p, keys, env) == ProcessInternalEdges(p, keys[1..], env)
  {
    var first := DrainInternal(p, keys[0], env);
    if first.Success? {
      assert first.value == Processed(p, []) by {
        DrainQuietInternal(p, keys[0], env);
      }
      var rest := ProcessInternalEdges(p, keys[1..], env);
      if rest.Success? {
        assert ProcessInternalEdges(p, keys, env) == Success(Processed(rest.value.state, [] + rest.value.delta));
        assert [] + rest.value.delta == rest.value.delta;
      }
    }
  }

  /** The single announcement sits in the first inbox drained. */
  lemma SingleAnnouncementAtHead(p: ProcessState, keys: seq<Edge>, env: Env, m: InternalAdvert)
    requires keys != [] && NoDuplicates(keys)
    requires forall k :: k in keys ==> k in p.internalInbox
    requires p.internalInbox[keys[0]] == [m] && !m.withdrawn && m.route.network !in p.internalRib
    requires forall k :: k in keys[1..] ==> p.internalInbox[k] == []
    ensures ProcessInternalEdges(p, keys, env).Success? ==>
      && DrainInternal(p, keys[0], env).Success?
      && ProcessInternalEdges(p, keys, env).value == DrainInternal(p, keys[0], env).value
  {
    var r := ProcessInternalEdges(p, keys, env);
    var first := DrainInternal(p, keys[0], env);
    if r.Success? {
      forall k | k in keys[1..]
        ensures k in first.value.state.internalInbox && first.value.state.internalInbox[k] == []
      {
        assert k != keys[0];
      }
      EmptyInternalInboxesChangeNothing(first.value.state, keys[1..], env);
      assert r.value.delta == first.value.delta + [];
    }
  }

  lemma {:induction false} SingleAnnouncementEdges(p: ProcessState, keys: seq<Edge>, env: Env, e: Edge, m: InternalAdvert)
    requires NoDuplicates(keys) && e in keys
    requires forall k :: k in keys ==> k in p.internalInbox
    requires p.internalInbox[e] == [m] && !m.withdrawn && m.route.network !in p.internalRib
    requires forall k :: k in keys && k != e ==> p.internalInbox[k] == []
    ensures ProcessInternalEdges(p, keys, env).Success? ==>
      && env.lookup(e.node1).Some? && env.lookup(e.node1).value.address.Some?
      && env.lookup(e.node1).value.eigrp.Some?
      && env.lookup(e.node2).Some? && env.lookup(e.node2).value.eigrp.Some?
      && ProcessInternalEdges(p, keys, env).value.delta == [Advert(LearnedRoute(p, env, e, m), false)]
      && ProcessInternalEdges(p, keys, env).value.state.internalRib ==
         p.internalRib[m.route.network := LearnedRoute(p, env, e, m)]
    decreases |keys|
  {
    if ProcessInternalEdges(p, keys, env).Success? {
      if keys[0] == e {
        forall k | k in keys[1..] ensures p.internalInbox[k] == [] {
          assert k != keys[0];
        }
        SingleAnnouncementAtHead(p, keys, env, m);
        DrainSingleAnnouncement(p, env, e, m);
      } else {
        SkipQuietHead(p, keys, env);
        SingleAnnouncementEdges(p, keys[1..], env, e, m);
      }
    }
  }

  /**
   * A process whose only queued message is one announcement, on edge `e`, for a network its
   * internal RIB lacks, learns exactly one route: same network, metric accumulated from the
   * receiving interface's metric, the advertiser's metric and the advertised metric, the
   * internal admin cost, this process's AS and the advertiser's address as next hop.
   */
  lemma SingleAnnouncementLearned(p: ProcessState, env: Env, e: Edge, m: InternalAdvert)
    requires Valid(p) && e in p.internalInbox
    requires p.internalInbox[e] == [m] && !m.withdrawn && m.route.network !in p.internalRib
    requires forall k :: k in p.internalInbox && k != e ==> p.internalInbox[k] == []
    ensures ProcessInternal(p, env).Success? ==>
      && env.lookup(e.node1).Some? && env.lookup(e.node1).value.address.Some?
      && env.lookup(e.node1).value.eigrp.Some?
      && env.lookup(e.node2).Some? && env.lookup(e.node2).value.eigrp.Some?
      && ProcessInternal(p, env).value.delta == [Advert(LearnedRoute(p, env, e, m), false)]
      && ProcessInternal(p, env).value.state.internalRib ==
         p.internalRib[m.route.network := LearnedRoute(p, env, e, m)]
  {
    SingleAnnouncementEdges(p, p.inboxOrder, env, e, m);
  }

  // ---------------------------------------------------------------------------
  // Contribution to the main RIB

  /**
   * Import the round's internal and external deltas into the combined RIB; what that
   * import changed is appended to the change set.
   */
  function RecordChanges(p: ProcessState, internalDelta: Delta, externalDelta: Delta, env: Env): (r: ProcessState)
    ensures r == p.(rib := r.rib, changeSet := r.changeSet)
    ensures |r.changeSet| >= |p.changeSet| && r.changeSet[..|p.changeSet|] == p.changeSet
    ensures Replay(p.rib, r.changeSet[|p.changeSet|..]) == r.rib
    ensures r.rib == ApplyOps(p.rib, internalDelta + externalDelta, env.prefer).rib
    ensures r.changeSet == p.changeSet + ApplyOps(p.rib, internalDelta + externalDelta, env.prefer).delta
  {
    var u1 := ApplyOps(p.rib, internalDelta, env.prefer);
    ApplyOpsConcat(p.rib, internalDelta, externalDelta, env.prefer);
    var u2 := ApplyOps(u1.rib, externalDelta, env.prefer);
    ApplyOpsReplay(p.rib, internalDelta, env.prefer);
    ApplyOpsReplay(u1.rib, externalDelta, env.prefer);
    var d := u1.delta + u2.delta;
    ReplayConcat(p.rib, u1.delta, u2.delta);
    assert Replay(p.rib, d) == u2.rib;
    var changes := p.changeSet + d;
    assert changes[..|p.changeSet|] == p.changeSet;
    assert changes[|p.changeSet|..] == d;
    p.(rib := u2.rib, changeSet := changes)
  }

  /** Importing two empty deltas changes nothing. */
  lemma RecordNothingChangesNothing(p: ProcessState, env: Env)
    ensures RecordChanges(p, [], [], env) == p
  {
    assert p.changeSet + ([] + []) == p.changeSet;
  }

  /** The changes to hand to the main RIB: the change set of the last round. */
  function GetUpdatesForMainRib(p: ProcessState): Delta {
    p.changeSet
  }

  /**
   * Starting a round from an empty change set, the updates handed to the main RIB are exactly
   * what the round changed in the process's RIB: replaying them on the old RIB gives the new one.
   */
  lemma UpdatesReplayRound(p: ProcessState, internalDelta: Delta, externalDelta: Delta, env: Env)
    requires p.changeSet == []
    ensures Replay(p.rib, GetUpdatesForMainRib(RecordChanges(p, internalDelta, externalDelta, env))) ==
      RecordChanges(p, internalDelta, externalDelta, env).rib
    ensures GetUpdatesForMainRib(RecordChanges(p, internalDelta, externalDelta, env)) ==
      ApplyOps(p.rib, internalDelta + externalDelta, env.prefer).delta
  {
    var r := RecordChanges(p, internalDelta, externalDelta, env);
    assert r.changeSet[|p.changeSet|..] == r.changeSet;
  }
}
