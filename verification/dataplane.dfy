/**
 * The EIGRP processes of all routers, and the operations that cross from one process
 * into another: delivering a delta into the neighbours' inboxes, and a whole iteration.
 */
module Dataplane {
  import opened Wrappers
  import opened Collections
  import opened EigrpTypes
  import opened Rib
  import opened EigrpProcess

  /** Where a process lives: router, VRF and AS. */
  datatype ProcKey = ProcKey(hostname: string, vrf: string, asn: Asn)

  /** Every EIGRP process of the snapshot. */
  type Network = map<ProcKey, ProcessState>

  /** The process at the advertising end of `e`, in the sender's AS. */
  function NeighborKey(e: Edge, asn: Asn): ProcKey {
    ProcKey(e.node1.hostname, e.node1.vrf, asn)
  }

  /** `q` differs from `p` at most in the contents of its inboxes. */
  ghost predicate OnlyInboxesChanged(p: ProcessState, q: ProcessState) {
    && q == p.(internalInbox := q.internalInbox, externalInbox := q.externalInbox)
    && q.internalInbox.Keys == p.internalInbox.Keys
    && q.externalInbox.Keys == p.externalInbox.Keys
  }

  /** Every process of `net'` differs from its `net` counterpart at most in inbox contents. */
  ghost predicate OnlyInboxesChangedEverywhere(net: Network, net': Network) {
    net'.Keys == net.Keys && forall k :: k in net ==> OnlyInboxesChanged(net[k], net'[k])
  }

  /** The same processes, with the same AS, inbox order and inbox keys. */
  ghost predicate SameShape(net: Network, net': Network) {
    && net'.Keys == net.Keys
    && forall k :: k in net ==>
      && net'[k].asn == net[k].asn
      && net'[k].inboxOrder == net[k].inboxOrder
      && net'[k].internalInbox.Keys == net[k].internalInbox.Keys
      && net'[k].externalInbox.Keys == net[k].externalInbox.Keys
  }

  /** Every process of the network is valid. */
  ghost predicate AllValid(net: Network) {
    forall k :: k in net ==> Valid(net[k])
  }

  lemma SameShapeKeepsValid(net: Network, net': Network)
    requires SameShape(net, net') && AllValid(net)
    ensures AllValid(net')
  {
    forall k | k in net'
      ensures Valid(net'[k])
    {
      assert Valid(net[k]);
    }
  }

  // ---------------------------------------------------------------------------
  // Delivery

  /** Every key's neighbour process exists and has an internal inbox for the reversed edge. */
  ghost predicate InternalTargetsExist(net: Network, asn: Asn, keys: seq<Edge>) {
    forall i :: 0 <= i < |keys| ==>
      NeighborKey(keys[i], asn) in net && keys[i].Reverse() in net[NeighborKey(keys[i], asn)].internalInbox
  }

  /** Every key's neighbour process exists and has an external inbox for the reversed edge. */
  ghost predicate ExternalTargetsExist(net: Network, asn: Asn, keys: seq<Edge>) {
    forall i :: 0 <= i < |keys| ==>
      NeighborKey(keys[i], asn) in net && keys[i].Reverse() in net[NeighborKey(keys[i], asn)].externalInbox
  }

  /** Inbox `e` of process `k` is the reverse of one of `keys`, whose neighbour is `k`. */
  ghost predicate Targeted(keys: seq<Edge>, asn: Asn, k: ProcKey, e: Edge) {
    exists i :: 0 <= i < |keys| && NeighborKey(keys[i], asn) == k && keys[i].Reverse() == e
  }

  /** Append `msgs` to internal inbox `e` of `p`. */
  function EnqueueInternal(p: ProcessState, e: Edge, msgs: seq<InternalAdvert>): (q: ProcessState)
    requires e in p.internalInbox
    ensures OnlyInboxesChanged(p, q) && q.externalInbox == p.externalInbox
  {
    p.(internalInbox := p.internalInbox[e := p.internalInbox[e] + msgs])
  }

  /** Append `msgs` to external inbox `e` of `p`. */
  function EnqueueExternal(p: ProcessState, e: Edge, msgs: seq<ExternalAdvert>): (q: ProcessState)
    requires e in p.externalInbox
    ensures OnlyInboxesChanged(p, q) && q.internalInbox == p.internalInbox
  {
    p.(externalInbox := p.externalInbox[e := p.externalInbox[e] + msgs])
  }

  /**
   * Send `msgs` over the internal channel: for each key, in order, append them to the
   * neighbour's inbox for the reversed edge. A missing neighbour process or a missing inbox
   * aborts, whatever `msgs` is; otherwise only internal inbox contents change.
   */
  function SendInternal(net: Network, asn: Asn, keys: seq<Edge>, msgs: seq<InternalAdvert>): (r: Result<Network, Error>)
    ensures r.Success? <==> InternalTargetsExist(net, asn, keys)
    ensures r.Success? ==> OnlyInboxesChangedEverywhere(net, r.value)
    ensures r.Success? ==> forall k :: k in net ==> r.value[k].externalInbox == net[k].externalInbox
    decreases |keys|
  {
    if keys == [] then Success(net)
    else
      var nk := NeighborKey(keys[0], asn);
      if nk !in net then Failure(MissingNeighborProcess(keys[0].node1))
      else if keys[0].Reverse() !in net[nk].internalInbox then Failure(MissingInbox(keys[0].Reverse()))
      else
        var net' := net[nk := EnqueueInternal(net[nk], keys[0].Reverse(), msgs)];
        UpdateOneFrame(net, nk, net'[nk]);
        var rest := SendInternal(net', asn, keys[1..], msgs);
        InternalTargetsCons(net, asn, keys);
        InternalTargetsStable(net, net', asn, keys[1..]);
        if rest.Success? then
          OnlyInboxesChangedTransitive(net, net', rest.value);
          rest
        else
          rest
  }

  /** The external-channel counterpart of `SendInternal`. */
  function SendExternal(net: Network, asn: Asn, keys: seq<Edge>, msgs: seq<ExternalAdvert>): (r: Result<Network, Error>)
    ensures r.Success? <==> ExternalTargetsExist(net, asn, keys)
    ensures r.Success? ==> OnlyInboxesChangedEverywhere(net, r.value)
    ensures r.Success? ==> forall k :: k in net ==> r.value[k].internalInbox == net[k].internalInbox
    decreases |keys|
  {
    if keys == [] then Success(net)
    else
      var nk := NeighborKey(keys[0], asn);
      if nk !in net then Failure(MissingNeighborProcess(keys[0].node1))
      else if keys[0].Reverse() !in net[nk].externalInbox then Failure(MissingInbox(keys[0].Reverse()))
      else
        var net' := net[nk := EnqueueExternal(net[nk], keys[0].Reverse(), msgs)];
        UpdateOneFrame(net, nk, net'[nk]);
        var rest := SendExternal(net', asn, keys[1..], msgs);
        ExternalTargetsCons(net, asn, keys);
        ExternalTargetsStable(net, net', asn, keys[1..]);
        if rest.Success? then
          OnlyInboxesChangedTransitive(net, net', rest.value);
          rest
        else
          rest
  }

  /** Changing one process in its inboxes only changes the network in inboxes only. */
  lemma UpdateOneFrame(net: Network, nk: ProcKey, q: ProcessState)
    requires nk in net && OnlyInboxesChanged(net[nk], q)
    ensures OnlyInboxesChangedEverywhere(net, net[nk := q])
    ensures q.internalInbox == net[nk].internalInbox ==>
      forall k :: k in net ==> net[nk := q][k].internalInbox == net[k].internalInbox
    ensures q.externalInbox == net[nk].externalInbox ==>
      forall k :: k in net ==> net[nk := q][k].externalInbox == net[k].externalInbox
  {
  }

  lemma OnlyInboxesChangedTransitive(a: Network, b: Network, c: Network)
    requires OnlyInboxesChangedEverywhere(a, b) && OnlyInboxesChangedEverywhere(b, c)
    ensures OnlyInboxesChangedEverywhere(a, c)
  {
    forall k | k in a
      ensures OnlyInboxesChanged(a[k], c[k])
    {
      assert OnlyInboxesChanged(a[k], b[k]) && OnlyInboxesChanged(b[k], c[k]);
    }
  }

  lemma InternalTargetsCons(net: Network, asn: Asn, keys: seq<Edge>)
    requires keys != []
    ensures InternalTargetsExist(net, asn, keys) <==>
      && NeighborKey(keys[0], asn) in net
      && keys[0].Reverse() in net[NeighborKey(keys[0], asn)].internalInbox
      && InternalTargetsExist(net, asn, keys[1..])
  {
    assert forall i :: 0 < i < |keys| ==> keys[i] == keys[1..][i - 1];
  }

  lemma ExternalTargetsCons(net: Network, asn: Asn, keys: seq<Edge>)
    requires keys != []
    ensures ExternalTargetsExist(net, asn, keys) <==>
      && NeighborKey(keys[0], asn) in net
      && keys[0].Reverse() in net[NeighborKey(keys[0], asn)].externalInbox
      && ExternalTargetsExist(net, asn, keys[1..])
  {
    assert forall i :: 0 < i < |keys| ==> keys[i] == keys[1..][i - 1];
  }

  lemma InternalTargetsStable(net: Network, net': Network, asn: Asn, keys: seq<Edge>)
    requires OnlyInboxesChangedEverywhere(net, net')
    ensures InternalTargetsExist(net, asn, keys) <==> InternalTargetsExist(net', asn, keys)
  {
    forall k | k in net ensures net'[k].internalInbox.Keys == net[k].internalInbox.Keys {
      assert OnlyInboxesChanged(net[k], net'[k]);
    }
  }

  lemma ExternalTargetsStable(net: Network, net': Network, asn: Asn, keys: seq<Edge>)
    requires OnlyInboxesChangedEverywhere(net, net')
    ensures ExternalTargetsExist(net, asn, keys) <==> ExternalTargetsExist(net', asn, keys)
  {
    forall k | k in net ensures net'[k].externalInbox.Keys == net[k].externalInbox.Keys {
      assert OnlyInboxesChanged(net[k], net'[k]);
    }
  }

  lemma TargetedCons(keys: seq<Edge>, asn: Asn, k: ProcKey, e: Edge)
    requires keys != []
    ensures Targeted(keys, asn, k, e) <==>
      (NeighborKey(keys[0], asn) == k && keys[0].Reverse() == e) || Targeted(keys[1..], asn, k, e)
  {
    if Targeted(keys[1..], asn, k, e) {
      var i :| 0 <= i < |keys[1..]| && NeighborKey(keys[1..][i], asn) == k && keys[1..][i].Reverse() == e;
      assert keys[i + 1] == keys[1..][i];
    }
    if Targeted(keys, asn, k, e) && !(NeighborKey(keys[0], asn) == k && keys[0].Reverse() == e) {
      var i :| 0 <= i < |keys| && NeighborKey(keys[i], asn) == k && keys[i].Reverse() == e;
      assert keys[1..][i - 1] == keys[i];
    }
  }

  /** With distinct keys, the inbox the first key targets is not targeted again. */
  lemma TargetedOnce(keys: seq<Edge>, asn: Asn)
    requires keys != [] && NoDuplicates(keys)
    ensures !Targeted(keys[1..], asn, NeighborKey(keys[0], asn), keys[0].Reverse())
  {
  }

  /** Enqueueing at inbox `rev` of `nk` appends `msgs` there and nowhere else. */
  lemma EnqueueInternalEffect(net: Network, nk: ProcKey, rev: Edge, msgs: seq<InternalAdvert>, k: ProcKey, e: Edge)
    requires nk in net && rev in net[nk].internalInbox && k in net && e in net[k].internalInbox
    ensures net[nk := EnqueueInternal(net[nk], rev, msgs)][k].internalInbox[e] ==
      net[k].internalInbox[e] + (if k == nk && e == rev then msgs else [])
  {
    if !(k == nk && e == rev) {
      assert net[k].internalInbox[e] + [] == net[k].internalInbox[e];
    }
  }

  /** Enqueueing at inbox `rev` of `nk` appends `msgs` there and nowhere else. */
  lemma EnqueueExternalEffect(net: Network, nk: ProcKey, rev: Edge, msgs: seq<ExternalAdvert>, k: ProcKey, e: Edge)
    requires nk in net && rev in net[nk].externalInbox && k in net && e in net[k].externalInbox
    ensures net[nk := EnqueueExternal(net[nk], rev, msgs)][k].externalInbox[e] ==
      net[k].externalInbox[e] + (if k == nk && e == rev then msgs else [])
  {
    if !(k == nk && e == rev) {
      assert net[k].externalInbox[e] + [] == net[k].externalInbox[e];
    }
  }

  /** Appending `msgs` at most once, in one of two steps, appends it exactly when either did. */
  lemma AppendOnce<A>(before: seq<A>, mid: seq<A>, after: seq<A>, msgs: seq<A>, first: bool, second: bool, either: bool)
    requires mid == before + (if first then msgs else [])
    requires after == mid + (if second then msgs else [])
    requires either <==> first || second
    requires !(first && second)
    ensures after == before + (if either then msgs else [])
  {
    if !first {
      assert mid == before;
    } else {
      assert after == mid;
    }
  }

  /**
   * Sending over the internal channel with distinct keys appends `msgs`, once and in order, to
   * exactly the inboxes that are the reverse of a key at that key's neighbour; every other
   * internal inbox keeps its contents.
   */
  lemma {:induction false} SendInternalDelivers(net: Network, asn: Asn, keys: seq<Edge>, msgs: seq<InternalAdvert>,
                                                 k: ProcKey, e: Edge)
    requires NoDuplicates(keys)
    requires SendInternal(net, asn, keys, msgs).Success?
    requires k in net && e in net[k].internalInbox
    ensures SendInternal(net, asn, keys, msgs).value[k].internalInbox[e] ==
      net[k].internalInbox[e] + (if Targeted(keys, asn, k, e) then msgs else [])
    decreases |keys|
  {
    if keys == [] {
      assert net[k].internalInbox[e] + [] == net[k].internalInbox[e];
    } else {
      var nk := NeighborKey(keys[0], asn);
      var rev := keys[0].Reverse();
      var net' := net[nk := EnqueueInternal(net[nk], rev, msgs)];
      var r := SendInternal(net', asn, keys[1..], msgs).value;
      assert r == SendInternal(net, asn, keys, msgs).value;
      NoDuplicatesRest(keys);
      TargetedOnce(keys, asn);
      TargetedCons(keys, asn, k, e);
      EnqueueInternalEffect(net, nk, rev, msgs, k, e);
      SendInternalDelivers(net', asn, keys[1..], msgs, k, e);
      AppendOnce(net[k].internalInbox[e], net'[k].internalInbox[e], r[k].internalInbox[e], msgs,
                 k == nk && e == rev, Targeted(keys[1..], asn, k, e), Targeted(keys, asn, k, e));
    }
  }

  /**
   * Sending over the external channel with distinct keys appends `msgs`, once and in order, to
   * exactly the inboxes that are the reverse of a key at that key's neighbour; every other
   * external inbox keeps its contents.
   */
  lemma {:induction false} SendExternalDelivers(net: Network, asn: Asn, keys: seq<Edge>, msgs: seq<ExternalAdvert>,
                                                 k: ProcKey, e: Edge)
    requires NoDuplicates(keys)
    requires SendExternal(net, asn, keys, msgs).Success?
    requires k in net && e in net[k].externalInbox
    ensures SendExternal(net, asn, keys, msgs).value[k].externalInbox[e] ==
      net[k].externalInbox[e] + (if Targeted(keys, asn, k, e) then msgs else [])
    decreases |keys|
  {
    if keys == [] {
      assert net[k].externalInbox[e] + [] == net[k].externalInbox[e];
    } else {
      var nk := NeighborKey(keys[0], asn);
      var rev := keys[0].Reverse();
      var net' := net[nk := EnqueueExternal(net[nk], rev, msgs)];
      var r := SendExternal(net', asn, keys[1..], msgs).value;
      assert r == SendExternal(net, asn, keys, msgs).value;
      NoDuplicatesRest(keys);
      TargetedOnce(keys, asn);
      TargetedCons(keys, asn, k, e);
      EnqueueExternalEffect(net, nk, rev, msgs, k, e);
      SendExternalDelivers(net', asn, keys[1..], msgs, k, e);
      AppendOnce(net[k].externalInbox[e], net'[k].externalInbox[e], r[k].externalInbox[e], msgs,
                 k == nk && e == rev, Targeted(keys[1..], asn, k, e), Targeted(keys, asn, k, e));
    }
  }

  /** Sending nothing changes nothing. */
  lemma {:induction false} SendExternalNothing(net: Network, asn: Asn, keys: seq<Edge>)
    requires SendExternal(net, asn, keys, []).Success?
    ensures SendExternal(net, asn, keys, []).value == net
    decreases |keys|
  {
    if keys != [] {
      ExternalTargetsCons(net, asn, keys);
      var nk := NeighborKey(keys[0], asn);
      var p := net[nk];
      var rev := keys[0].Reverse();
      assert p.externalInbox[rev] + [] == p.externalInbox[rev];
      assert p.externalInbox[rev := p.externalInbox[rev] + []] == p.externalInbox;
      assert net[nk := EnqueueExternal(p, rev, [])] == net;
      SendExternalNothing(net, asn, keys[1..]);
    }
  }

  /** Sending nothing changes nothing. */
  lemma {:induction false} SendInternalNothing(net: Network, asn: Asn, keys: seq<Edge>)
    requires SendInternal(net, asn, keys, []).Success?
    ensures SendInternal(net, asn, keys, []).value == net
    decreases |keys|
  {
    if keys != [] {
      InternalTargetsCons(net, asn, keys);
      var nk := NeighborKey(keys[0], asn);
      var p := net[nk];
      var rev := keys[0].Reverse();
      assert p.internalInbox[rev] + [] == p.internalInbox[rev];
      assert p.internalInbox[rev := p.internalInbox[rev] + []] == p.internalInbox;
      assert net[nk := EnqueueInternal(p, rev, [])] == net;
      SendInternalNothing(net, asn, keys[1..]);
    }
  }

  /**
   * Every internal inbox of a process of `net` outside `except` is still there in `net'`,
   * with `msgs` appended exactly when it is the reverse of one of `keys` at that key's neighbour.
   */
  ghost predicate ReceivedInternal(net: Network, net': Network, except: set<ProcKey>, keys: seq<Edge>, asn: Asn,
                                   msgs: seq<InternalAdvert>) {
    forall k, e :: k in net && k !in except && e in net[k].internalInbox ==>
      && k in net' && e in net'[k].internalInbox
      && net'[k].internalInbox[e] == net[k].internalInbox[e] + (if Targeted(keys, asn, k, e) then msgs else [])
  }

  /** The external-channel counterpart of `ReceivedInternal`. */
  ghost predicate ReceivedExternal(net: Network, net': Network, except: set<ProcKey>, keys: seq<Edge>, asn: Asn,
                                   msgs: seq<ExternalAdvert>) {
    forall k, e :: k in net && k !in except && e in net[k].externalInbox ==>
      && k in net' && e in net'[k].externalInbox
      && net'[k].externalInbox[e] == net[k].externalInbox[e] + (if Targeted(keys, asn, k, e) then msgs else [])
  }

  /** Every process of `net` is in `net'` with the same internal inboxes. */
  ghost predicate InternalInboxesKept(net: Network, net': Network) {
    forall k :: k in net ==> k in net' && net'[k].internalInbox == net[k].internalInbox
  }

  /** Every process of `net` is in `net'` with the same external inboxes. */
  ghost predicate ExternalInboxesKept(net: Network, net': Network) {
    forall k :: k in net ==> k in net' && net'[k].externalInbox == net[k].externalInbox
  }

  lemma InternalInboxesKeptTransitive(a: Network, b: Network, c: Network)
    requires InternalInboxesKept(a, b) && InternalInboxesKept(b, c)
    ensures InternalInboxesKept(a, c)
  {
  }

  lemma ExternalInboxesKeptTransitive(a: Network, b: Network, c: Network)
    requires ExternalInboxesKept(a, b) && ExternalInboxesKept(b, c)
    ensures ExternalInboxesKept(a, c)
  {
  }

  /**
   * Every internal inbox `before` had is in `after` and holds only `msgs`, and only if it is
   * the reverse of one of `keys` at that key's neighbour, which is `self`.
   */
  ghost predicate SelfHoldsInternal(before: ProcessState, after: ProcessState, self: ProcKey, keys: seq<Edge>, asn: Asn,
                                    msgs: seq<InternalAdvert>) {
    forall e :: e in before.internalInbox ==>
      e in after.internalInbox && after.internalInbox[e] == if Targeted(keys, asn, self, e) then msgs else []
  }

  /**
   * Every external inbox `before` had is in `after`: a skipped inbox keeps its messages with
   * `kept` appended where targeted, any other is emptied; then `msgs` is appended where targeted.
   */
  ghost predicate SelfHoldsExternal(before: ProcessState, after: ProcessState, self: ProcKey, env: Env, keys: seq<Edge>,
                                    asn: Asn, kept: seq<ExternalAdvert>, msgs: seq<ExternalAdvert>) {
    forall e :: e in before.externalInbox ==>
      && e in after.externalInbox
      && after.externalInbox[e] ==
         (if SkipsEdge(env, e) then before.externalInbox[e] + (if Targeted(keys, asn, self, e) then kept else []) else []) +
         (if Targeted(keys, asn, self, e) then msgs else [])
  }

  /** Sending over the internal channel with distinct keys delivers to every targeted inbox and no other. */
  lemma SendInternalDeliversAll(net: Network, asn: Asn, keys: seq<Edge>, msgs: seq<InternalAdvert>)
    requires NoDuplicates(keys) && SendInternal(net, asn, keys, msgs).Success?
    ensures ReceivedInternal(net, SendInternal(net, asn, keys, msgs).value, {}, keys, asn, msgs)
  {
    var r := SendInternal(net, asn, keys, msgs).value;
    forall k, e | k in net && e in net[k].internalInbox
      ensures k in r && e in r[k].internalInbox
      ensures r[k].internalInbox[e] == net[k].internalInbox[e] + (if Targeted(keys, asn, k, e) then msgs else [])
    {
      assert OnlyInboxesChanged(net[k], r[k]);
      SendInternalDelivers(net, asn, keys, msgs, k, e);
    }
  }

  /** Sending over the external channel with distinct keys delivers to every targeted inbox and no other. */
  lemma SendExternalDeliversAll(net: Network, asn: Asn, keys: seq<Edge>, msgs: seq<ExternalAdvert>)
    requires NoDuplicates(keys) && SendExternal(net, asn, keys, msgs).Success?
    ensures ReceivedExternal(net, SendExternal(net, asn, keys, msgs).value, {}, keys, asn, msgs)
  {
    var r := SendExternal(net, asn, keys, msgs).value;
    forall k, e | k in net && e in net[k].externalInbox
      ensures k in r && e in r[k].externalInbox
      ensures r[k].externalInbox[e] == net[k].externalInbox[e] + (if Targeted(keys, asn, k, e) then msgs else [])
    {
      assert OnlyInboxesChanged(net[k], r[k]);
      SendExternalDelivers(net, asn, keys, msgs, k, e);
    }
  }

  /** Replacing one process on both sides by states with the same internal inboxes keeps delivery. */
  lemma ReceivedInternalOverride(net: Network, net': Network, keys: seq<Edge>, asn: Asn, msgs: seq<InternalAdvert>,
                                 self: ProcKey, a: ProcessState, b: ProcessState)
    requires ReceivedInternal(net, net', {}, keys, asn, msgs) && self in net && self in net'
    requires a.internalInbox == net[self].internalInbox && b.internalInbox == net'[self].internalInbox
    ensures ReceivedInternal(net[self := a], net'[self := b], {}, keys, asn, msgs)
  {
  }

  /** Replacing one process on both sides by states with the same external inboxes keeps delivery. */
  lemma ReceivedExternalOverride(net: Network, net': Network, keys: seq<Edge>, asn: Asn, msgs: seq<ExternalAdvert>,
                                 self: ProcKey, a: ProcessState, b: ProcessState)
    requires ReceivedExternal(net, net', {}, keys, asn, msgs) && self in net && self in net'
    requires a.externalInbox == net[self].externalInbox && b.externalInbox == net'[self].externalInbox
    ensures ReceivedExternal(net[self := a], net'[self := b], {}, keys, asn, msgs)
  {
  }

  /** Sending, then replacing the sender by a state with the inboxes it ended with, keeps delivery. */
  lemma SendInternalThenReplace(net: Network, asn: Asn, keys: seq<Edge>, msgs: seq<InternalAdvert>,
                                self: ProcKey, b: ProcessState)
    requires self in net && SendInternal(net, asn, keys, msgs).Success?
    requires b.internalInbox == SendInternal(net, asn, keys, msgs).value[self].internalInbox
    ensures NoDuplicates(keys) ==>
      ReceivedInternal(net, SendInternal(net, asn, keys, msgs).value[self := b], {}, keys, asn, msgs)
  {
    if NoDuplicates(keys) {
      var sent := SendInternal(net, asn, keys, msgs).value;
      SendInternalDeliversAll(net, asn, keys, msgs);
      ReceivedInternalOverride(net, sent, keys, asn, msgs, self, net[self], b);
      UpdateToSelf(net, self);
    }
  }

  /** Sending, then replacing the sender by a state with the inboxes it ended with, keeps delivery. */
  lemma SendExternalThenReplace(net: Network, asn: Asn, keys: seq<Edge>, msgs: seq<ExternalAdvert>,
                                self: ProcKey, b: ProcessState)
    requires self in net && SendExternal(net, asn, keys, msgs).Success?
    requires b.externalInbox == SendExternal(net, asn, keys, msgs).value[self].externalInbox
    ensures NoDuplicates(keys) ==>
      ReceivedExternal(net, SendExternal(net, asn, keys, msgs).value[self := b], {}, keys, asn, msgs)
  {
    if NoDuplicates(keys) {
      var sent := SendExternal(net, asn, keys, msgs).value;
      SendExternalDeliversAll(net, asn, keys, msgs);
      ReceivedExternalOverride(net, sent, keys, asn, msgs, self, net[self], b);
      UpdateToSelf(net, self);
    }
  }

  /** A network has received nothing from itself. */
  lemma ReceivedInternalNothing(net: Network, keys: seq<Edge>, asn: Asn)
    ensures ReceivedInternal(net, net, {}, keys, asn, [])
  {
    forall k, e | k in net && e in net[k].internalInbox
      ensures net[k].internalInbox[e] == net[k].internalInbox[e] + []
    {
    }
  }

  /** A network has received nothing from itself. */
  lemma ReceivedExternalNothing(net: Network, keys: seq<Edge>, asn: Asn)
    ensures ReceivedExternal(net, net, {}, keys, asn, [])
  {
    forall k, e | k in net && e in net[k].externalInbox
      ensures net[k].externalInbox[e] == net[k].externalInbox[e] + []
    {
    }
  }

  // ---------------------------------------------------------------------------
  // One iteration

  /** Validity depends only on the inbox order and the inbox keys. */
  lemma OnlyInboxesChangedKeepsValid(p: ProcessState, q: ProcessState)
    requires Valid(p) && OnlyInboxesChanged(p, q)
    ensures Valid(q)
  {
  }

  /** Same shape as `net`, and every process other than `self` changed at most in its inboxes. */
  ghost predicate OthersOnlyReceive(net: Network, net': Network, self: ProcKey) {
    && SameShape(net, net')
    && forall k :: k in net && k != self ==> OnlyInboxesChanged(net[k], net'[k])
  }

  lemma FrameGivesOthersOnlyReceive(net: Network, net': Network, self: ProcKey, x: ProcessState)
    requires self in net && OnlyInboxesChangedEverywhere(net[self := x], net')
    requires x.asn == net[self].asn && x.inboxOrder == net[self].inboxOrder
    requires x.internalInbox.Keys == net[self].internalInbox.Keys
    requires x.externalInbox.Keys == net[self].externalInbox.Keys
    ensures OthersOnlyReceive(net, net', self)
    ensures OnlyInboxesChanged(x, net'[self])
  {
    assert OnlyInboxesChanged(net[self := x][self], net'[self]);
    forall k | k in net
      ensures net'[k].asn == net[k].asn && net'[k].inboxOrder == net[k].inboxOrder
      ensures net'[k].internalInbox.Keys == net[k].internalInbox.Keys
      ensures net'[k].externalInbox.Keys == net[k].externalInbox.Keys
      ensures k != self ==> OnlyInboxesChanged(net[k], net'[k])
    {
      assert OnlyInboxesChanged(net[self := x][k], net'[k]);
    }
  }

  lemma OthersOnlyReceiveTransitive(a: Network, b: Network, c: Network, self: ProcKey)
    requires OthersOnlyReceive(a, b, self) && OthersOnlyReceive(b, c, self)
    ensures OthersOnlyReceive(a, c, self)
  {
    forall k | k in a && k != self
      ensures OnlyInboxesChanged(a[k], c[k])
    {
      assert OnlyInboxesChanged(a[k], b[k]) && OnlyInboxesChanged(b[k], c[k]);
    }
  }

  /** Replacing one process on both sides by states that differ only in inboxes keeps the frame. */
  lemma OverrideKeepsFrame(net: Network, net': Network, self: ProcKey, a: ProcessState, b: ProcessState)
    requires OnlyInboxesChangedEverywhere(net, net') && self in net && OnlyInboxesChanged(a, b)
    ensures OnlyInboxesChangedEverywhere(net[self := a], net'[self := b])
  {
    var m, m' := net[self := a], net'[self := b];
    forall k | k in m
      ensures OnlyInboxesChanged(m[k], m'[k])
    {
      if k != self {
        assert m[k] == net[k] && m'[k] == net'[k];
      }
    }
  }

  /** A network and its processes after one half of an iteration, with the delta it produced. */
  datatype Round<A> = Round(net: Network, delta: seq<A>)

  /**
   * Send the initialization delta to every neighbour, if there is one, and forget it. With
   * nothing to send nothing happens; otherwise sending fails exactly when a target is missing.
   */
  function FlushInit(net: Network, self: ProcKey): (r: Result<Network, Error>)
    requires self in net
    ensures net[self].initDelta == [] ==> r == Success(net)
    ensures r.Success? <==>
      net[self].initDelta == [] || InternalTargetsExist(net, net[self].asn, net[self].inboxOrder)
    ensures r.Success? ==> OnlyInboxesChangedEverywhere(net[self := net[self].(initDelta := [])], r.value)
    ensures r.Success? ==> ExternalInboxesKept(net, r.value)
    ensures r.Success? && Valid(net[self]) ==> Valid(r.value[self])
  {
    var p := net[self];
    if p.initDelta == [] then
      assert net[self := p.(initDelta := [])] == net;
      Success(net)
    else
      var sent :- SendInternal(net, p.asn, p.inboxOrder, p.initDelta);
      var q := sent[self];
      assert OnlyInboxesChanged(p, q);
      assert OnlyInboxesChanged(p.(initDelta := []), q.(initDelta := []));
      OverrideKeepsFrame(net, sent, self, p.(initDelta := []), q.(initDelta := []));
      Success(sent[self := q.(initDelta := [])])
  }

  /**
   * Flushing the initialization delta delivers it, once and in order, to every inbox that is
   * the reverse of one of the sender's inbox keys at that key's neighbour, and to no other.
   */
  lemma FlushInitDelivers(net: Network, self: ProcKey)
    requires self in net && Valid(net[self])
    ensures FlushInit(net, self).Success? ==>
      ReceivedInternal(net, FlushInit(net, self).value, {}, net[self].inboxOrder, net[self].asn, net[self].initDelta)
  {
    var p := net[self];
    if p.initDelta == [] {
      ReceivedInternalNothing(net, p.inboxOrder, p.asn);
    } else if FlushInit(net, self).Success? {
      var sent := SendInternal(net, p.asn, p.inboxOrder, p.initDelta).value;
      SendInternalThenReplace(net, p.asn, p.inboxOrder, p.initDelta, self, sent[self].(initDelta := []));
    }
  }

  /**
   * Send what redistribution queued to every neighbour, even when nothing is queued, and
   * forget it. Sending fails exactly when a target is missing.
   */
  function FlushQueued(net: Network, self: ProcKey): (r: Result<Network, Error>)
    requires self in net
    ensures r.Success? <==> ExternalTargetsExist(net, net[self].asn, net[self].inboxOrder)
    ensures r.Success? ==> OnlyInboxesChangedEverywhere(net[self := net[self].(queued := [])], r.value)
    ensures r.Success? && net[self].queued == [] ==> r.value == net
    ensures r.Success? ==> InternalInboxesKept(net, r.value)
    ensures r.Success? && Valid(net[self]) ==> Valid(r.value[self])
  {
    var p := net[self];
    var sent :- SendExternal(net, p.asn, p.inboxOrder, p.queued);
    var q := sent[self];
    assert OnlyInboxesChanged(p, q);
    assert OnlyInboxesChanged(p.(queued := []), q.(queued := []));
    OverrideKeepsFrame(net, sent, self, p.(queued := []), q.(queued := []));
    if p.queued == [] then
      SendExternalNothing(net, p.asn, p.inboxOrder);
      assert sent[self := q.(queued := [])] == net;
      Success(sent[self := q.(queued := [])])
    else
      Success(sent[self := q.(queued := [])])
  }

  /**
   * Flushing the redistribution queue delivers it, once and in order, to every inbox that is
   * the reverse of one of the sender's inbox keys at that key's neighbour, and to no other.
   */
  lemma FlushQueuedDelivers(net: Network, self: ProcKey)
    requires self in net && Valid(net[self])
    ensures FlushQueued(net, self).Success? ==>
      ReceivedExternal(net, FlushQueued(net, self).value, {}, net[self].inboxOrder, net[self].asn, net[self].queued)
  {
    var p := net[self];
    if FlushQueued(net, self).Success? {
      var sent := SendExternal(net, p.asn, p.inboxOrder, p.queued).value;
      SendExternalThenReplace(net, p.asn, p.inboxOrder, p.queued, self, sent[self].(queued := []));
    }
  }

  /** A process that differed from a valid one only in its inboxes is valid. */
  lemma FrameKeepsValid(net: Network, net': Network, self: ProcKey, a: ProcessState)
    requires self in net && OnlyInboxesChangedEverywhere(net[self := a], net') && Valid(a)
    ensures Valid(net'[self])
  {
    assert OnlyInboxesChanged(net[self := a][self], net'[self]);
    OnlyInboxesChangedKeepsValid(a, net'[self]);
  }

  /** Changing the same RIBs of two states that differ only in inboxes keeps them so. */
  lemma RibStepKeepsFrame(a: ProcessState, q: ProcessState, st: ProcessState, b: ProcessState)
    requires OnlyInboxesChanged(a, q)
    requires st == q.(internalRib := st.internalRib, externalRib := st.externalRib,
                      internalInbox := st.internalInbox, externalInbox := st.externalInbox)
    requires st.internalInbox.Keys == q.internalInbox.Keys
    requires st.externalInbox.Keys == q.externalInbox.Keys
    requires b == a.(internalRib := st.internalRib, externalRib := st.externalRib)
    ensures OnlyInboxesChanged(b, st)
  {
  }

  /** No internal inbox of `p` holds a message. */
  ghost predicate InternalInboxesEmpty(p: ProcessState) {
    forall e :: e in p.internalInbox ==> p.internalInbox[e] == []
  }

  /** No external inbox of `p` holds a message. */
  ghost predicate ExternalInboxesEmpty(p: ProcessState) {
    forall e :: e in p.externalInbox ==> p.externalInbox[e] == []
  }

  /** A step that changed `self` only in inboxes and RIBs, followed by a send, frames as one. */
  lemma SelfStepFrame(net: Network, self: ProcKey, b: ProcessState, st: ProcessState, net3: Network)
    requires self in net && OnlyInboxesChanged(b, st)
    requires OnlyInboxesChangedEverywhere(net[self := st], net3)
    ensures OnlyInboxesChangedEverywhere(net[self := b], net3)
  {
    OnlyInboxesChangedTransitive(net[self := b], net[self := st], net3);
  }

  /** A flush framed up to inboxes, followed by the same RIB change on both sides. */
  lemma FlushThenRibFrame(net: Network, self: ProcKey, a: ProcessState, net1: Network, b: ProcessState)
    requires self in net && OnlyInboxesChangedEverywhere(net[self := a], net1)
    requires b == a.(internalRib := b.internalRib, externalRib := b.externalRib)
    ensures OnlyInboxesChangedEverywhere(
      net[self := b], net1[self := net1[self].(internalRib := b.internalRib, externalRib := b.externalRib)])
  {
    var q := net1[self];
    var st := q.(internalRib := b.internalRib, externalRib := b.externalRib);
    SelfOfFrame(net, self, a, net1);
    RibStepKeepsFrame(a, q, st, b);
    ReplaceOverride(net, self, a, net1, b, st);
  }

  lemma SelfOfFrame(net: Network, self: ProcKey, a: ProcessState, net1: Network)
    requires self in net && OnlyInboxesChangedEverywhere(net[self := a], net1)
    ensures OnlyInboxesChanged(a, net1[self])
  {
    assert OnlyInboxesChanged(net[self := a][self], net1[self]);
  }

  /** Overriding `self` again, on both sides, by states that differ only in inboxes. */
  lemma ReplaceOverride(net: Network, self: ProcKey, a: ProcessState, net1: Network, b: ProcessState,
                        st: ProcessState)
    requires self in net && OnlyInboxesChangedEverywhere(net[self := a], net1) && OnlyInboxesChanged(b, st)
    ensures OnlyInboxesChangedEverywhere(net[self := b], net1[self := st])
  {
    var m, m' := net[self := b], net1[self := st];
    forall k | k in m
      ensures OnlyInboxesChanged(m[k], m'[k])
    {
      if k != self {
        assert OnlyInboxesChanged(net[self := a][k], net1[k]);
        assert m[k] == net[self := a][k] && m'[k] == net1[k];
      }
    }
  }

  /** Two frames in a row, the second after a RIB change at `self`, compose. */
  lemma FlushStepFrame(net: Network, self: ProcKey, a: ProcessState, net1: Network, b: ProcessState,
                       net3: Network)
    requires self in net && OnlyInboxesChangedEverywhere(net[self := a], net1)
    requires b == a.(internalRib := b.internalRib, externalRib := b.externalRib)
    requires OnlyInboxesChangedEverywhere(
      net1[self := net1[self].(internalRib := b.internalRib, externalRib := b.externalRib)], net3)
    ensures OnlyInboxesChangedEverywhere(net[self := b], net3)
  {
    FlushThenRibFrame(net, self, a, net1, b);
    OnlyInboxesChangedTransitive(
      net[self := b], net1[self := net1[self].(internalRib := b.internalRib, externalRib := b.externalRib)], net3);
  }

  /** Whether the targets exist depends on the processes' inbox keys only. */
  lemma InternalTargetsOverride(net: Network, self: ProcKey, st: ProcessState, asn: Asn, keys: seq<Edge>)
    requires self in net && st.internalInbox.Keys == net[self].internalInbox.Keys
    ensures InternalTargetsExist(net[self := st], asn, keys) <==> InternalTargetsExist(net, asn, keys)
  {
  }

  /** Whether the targets exist depends on the processes' inbox keys only. */
  lemma ExternalTargetsOverride(net: Network, self: ProcKey, st: ProcessState, asn: Asn, keys: seq<Edge>)
    requires self in net && st.externalInbox.Keys == net[self].externalInbox.Keys
    ensures ExternalTargetsExist(net[self := st], asn, keys) <==> ExternalTargetsExist(net, asn, keys)
  {
  }

  /**
   * What sending a step's delta does, given only that `st` differs from `self`'s state in its
   * internal RIB and internal inboxes and keeps the inbox keys.
   */
  lemma InternalSendFacts(net: Network, self: ProcKey, st: ProcessState, delta: seq<InternalAdvert>, net3: Network)
    requires self in net && NoDuplicates(net[self].inboxOrder)
    requires st == net[self].(internalRib := st.internalRib, internalInbox := st.internalInbox)
    requires st.internalInbox.Keys == net[self].internalInbox.Keys
    requires SendInternal(net[self := st], net[self].asn, net[self].inboxOrder, delta) == Success(net3)
    ensures net3.Keys == net.Keys
    ensures ExternalInboxesKept(net, net3)
    ensures ReceivedInternal(net[self := st], net3, {}, net[self].inboxOrder, net[self].asn, delta)
    ensures OnlyInboxesChangedEverywhere(net[self := net[self].(internalRib := st.internalRib)], net3)
    ensures net3[self].internalRib == st.internalRib
  {
    var p := net[self];
    assert st.externalInbox == p.externalInbox;
    forall k | k in net
      ensures net3[k].externalInbox == net[k].externalInbox
    {
      assert net[self := st][k].externalInbox == net[k].externalInbox;
    }
    SendInternalDeliversAll(net[self := st], p.asn, p.inboxOrder, delta);
    var b := p.(internalRib := st.internalRib);
    assert OnlyInboxesChanged(b, st);
    SelfStepFrame(net, self, b, st, net3);
    assert OnlyInboxesChanged(net[self := b][self], net3[self]);
  }

  /**
   * What sending a step's delta does, given only that `st` differs from `self`'s state in its
   * external RIB and external inboxes and keeps the inbox keys.
   */
  lemma ExternalSendFacts(net: Network, self: ProcKey, st: ProcessState, delta: seq<ExternalAdvert>, net3: Network)
    requires self in net && NoDuplicates(net[self].inboxOrder)
    requires st == net[self].(externalRib := st.externalRib, externalInbox := st.externalInbox)
    requires st.externalInbox.Keys == net[self].externalInbox.Keys
    requires SendExternal(net[self := st], net[self].asn, net[self].inboxOrder, delta) == Success(net3)
    ensures net3.Keys == net.Keys
    ensures InternalInboxesKept(net, net3)
    ensures ReceivedExternal(net[self := st], net3, {}, net[self].inboxOrder, net[self].asn, delta)
    ensures OnlyInboxesChangedEverywhere(net[self := net[self].(externalRib := st.externalRib)], net3)
    ensures net3[self].externalRib == st.externalRib
  {
    var p := net[self];
    assert st.internalInbox == p.internalInbox;
    forall k | k in net
      ensures net3[k].internalInbox == net[k].internalInbox
    {
      assert net[self := st][k].internalInbox == net[k].internalInbox;
    }
    SendExternalDeliversAll(net[self := st], p.asn, p.inboxOrder, delta);
    var b := p.(externalRib := st.externalRib);
    assert OnlyInboxesChanged(b, st);
    SelfStepFrame(net, self, b, st, net3);
    assert OnlyInboxesChanged(net[self := b][self], net3[self]);
  }

  /** Updating a process to itself is no update. */
  lemma UpdateToSelf(net: Network, self: ProcKey)
    requires self in net
    ensures net[self := net[self]] == net
  {
  }

  /**
   * Drain the internal inboxes of `self` and send what changed. The delta is what applying
   * every queued message's operation, in inbox order and FIFO order within an inbox, does to
   * the internal RIB. It is appended to every inbox the sender's keys target, and the
   * sender's own internal inboxes end empty apart from what it sent itself. Apart from inbox
   * contents, only `self`'s internal RIB changes, by exactly the returned delta; when all
   * its internal inboxes are empty, nothing changes at all.
   */
  method InternalStep(net: Network, self: ProcKey, env: Env) returns (r: Result<Round<InternalAdvert>, Error>)
    requires self in net && Valid(net[self])
    ensures r.Success? ==> r.value.net.Keys == net.Keys
    ensures r.Success? ==> r.value.net[self].internalRib == Replay(net[self].internalRib, r.value.delta)
    ensures r.Success? ==> OnlyInboxesChangedEverywhere(
      net[self := net[self].(internalRib := r.value.net[self].internalRib)], r.value.net)
    ensures r.Success? && InternalInboxesEmpty(net[self]) ==> r.value == Round(net, [])
    ensures r.Success? <==>
      AllInternalOps(net[self], net[self].inboxOrder, env).Success? &&
      InternalTargetsExist(net, net[self].asn, net[self].inboxOrder)
    ensures r.Success? ==>
      r.value.delta == ApplyOps(net[self].internalRib, AllInternalOps(net[self], net[self].inboxOrder, env).value, env.prefer).delta
    ensures r.Success? ==> ReceivedInternal(net, r.value.net, {self}, net[self].inboxOrder, net[self].asn, r.value.delta)
    ensures r.Success? ==> SelfHoldsInternal(net[self], r.value.net[self], self, net[self].inboxOrder, net[self].asn, r.value.delta)
    ensures r.Success? ==> ExternalInboxesKept(net, r.value.net)
  {
    var p := net[self];
    var internal :- ProcessInternal(p, env);
    var st := internal.state;
    InternalTargetsOverride(net, self, st, p.asn, p.inboxOrder);
    var net3 :- SendInternal(net[self := st], p.asn, p.inboxOrder, internal.delta);
    InternalSendFacts(net, self, st, internal.delta, net3);
    DrainThenSendInternal(net, self, st, net3, p.inboxOrder, p.asn, internal.delta);
    if InternalInboxesEmpty(p) {
      EmptyInternalInboxesChangeNothing(p, p.inboxOrder, env);
      UpdateToSelf(net, self);
      SendInternalNothing(net, p.asn, p.inboxOrder);
    }
    return Success(Round(net3, internal.delta));
  }

  /**
   * Drain the external inboxes of `self` and send what changed. The delta is what applying
   * every queued message's operation, in inbox order and FIFO order within an inbox, does to
   * the external RIB, skipped inboxes contributing nothing. It is appended to every inbox the
   * sender's keys target; the sender's own external inboxes end empty, except that a skipped
   * one keeps its messages, followed by what it sent itself. Apart from inbox contents, only
   * `self`'s external RIB changes, by exactly the returned delta; when all its external
   * inboxes are empty, nothing changes at all.
   */
  method ExternalStep(net: Network, self: ProcKey, env: Env) returns (r: Result<Round<ExternalAdvert>, Error>)
    requires self in net && Valid(net[self])
    ensures r.Success? ==> r.value.net.Keys == net.Keys
    ensures r.Success? ==> r.value.net[self].externalRib == Replay(net[self].externalRib, r.value.delta)
    ensures r.Success? ==> OnlyInboxesChangedEverywhere(
      net[self := net[self].(externalRib := r.value.net[self].externalRib)], r.value.net)
    ensures r.Success? && ExternalInboxesEmpty(net[self]) ==> r.value == Round(net, [])
    ensures r.Success? <==>
      AllExternalOps(net[self], net[self].inboxOrder, env).Success? &&
      ExternalTargetsExist(net, net[self].asn, net[self].inboxOrder)
    ensures r.Success? ==>
      r.value.delta == ApplyOps(net[self].externalRib, AllExternalOps(net[self], net[self].inboxOrder, env).value, env.prefer).delta
    ensures r.Success? ==> ReceivedExternal(net, r.value.net, {self}, net[self].inboxOrder, net[self].asn, r.value.delta)
    ensures r.Success? ==>
      SelfHoldsExternal(net[self], r.value.net[self], self, env, net[self].inboxOrder, net[self].asn, [], r.value.delta)
    ensures r.Success? ==> InternalInboxesKept(net, r.value.net)
  {
    var p := net[self];
    var external :- ProcessExternal(p, env);
    var st := external.state;
    ExternalTargetsOverride(net, self, st, p.asn, p.inboxOrder);
    var net3 :- SendExternal(net[self := st], p.asn, p.inboxOrder, external.delta);
    ExternalSendFacts(net, self, st, external.delta, net3);
    DrainThenSendExternal(net, self, st, net3, env, p.inboxOrder, p.asn, external.delta);
    if ExternalInboxesEmpty(p) {
      EmptyExternalInboxesChangeNothing(p, p.inboxOrder, env);
      UpdateToSelf(net, self);
      SendExternalNothing(net, p.asn, p.inboxOrder);
    }
    return Success(Round(net3, external.delta));
  }

  /** `p` after receiving `msgs` from itself: appended to each internal inbox its own keys target at `self`. */
  ghost function AfterOwnInternal(p: ProcessState, self: ProcKey, msgs: seq<InternalAdvert>): (q: ProcessState)
    ensures q == p.(internalInbox := q.internalInbox) && q.internalInbox.Keys == p.internalInbox.Keys
    ensures forall e :: e in p.internalInbox ==>
      q.internalInbox[e] == p.internalInbox[e] + (if Targeted(p.inboxOrder, p.asn, self, e) then msgs else [])
  {
    p.(internalInbox := map e | e in p.internalInbox ::
                          p.internalInbox[e] + (if Targeted(p.inboxOrder, p.asn, self, e) then msgs else []))
  }

  /** `p` after receiving `msgs` from itself: appended to each external inbox its own keys target at `self`. */
  ghost function AfterOwnExternal(p: ProcessState, self: ProcKey, msgs: seq<ExternalAdvert>): (q: ProcessState)
    ensures q == p.(externalInbox := q.externalInbox) && q.externalInbox.Keys == p.externalInbox.Keys
    ensures forall e :: e in p.externalInbox ==>
      q.externalInbox[e] == p.externalInbox[e] + (if Targeted(p.inboxOrder, p.asn, self, e) then msgs else [])
  {
    p.(externalInbox := map e | e in p.externalInbox ::
                          p.externalInbox[e] + (if Targeted(p.inboxOrder, p.asn, self, e) then msgs else []))
  }

  /** The internal operations of the flushed sender are those of the sender after receiving its own delta. */
  lemma FlushedInternalOps(net: Network, self: ProcKey, net1: Network, env: Env)
    requires self in net && Valid(net[self]) && self in net1
    requires ReceivedInternal(net, net1, {}, net[self].inboxOrder, net[self].asn, net[self].initDelta)
    requires net1[self].internalAdmin == net[self].internalAdmin && net1[self].asn == net[self].asn
    requires forall e :: e in net[self].inboxOrder ==> e in net1[self].internalInbox
    ensures AllInternalOps(net1[self], net[self].inboxOrder, env) ==
      AllInternalOps(AfterOwnInternal(net[self], self, net[self].initDelta), net[self].inboxOrder, env)
  {
    var p := net[self];
    AllInternalOpsFrame(AfterOwnInternal(p, self, p.initDelta), net1[self], p.inboxOrder, env);
  }

  /** The external operations of the flushed sender are those of the sender after receiving its own queue. */
  lemma FlushedExternalOps(net: Network, self: ProcKey, net1: Network, env: Env)
    requires self in net && Valid(net[self]) && self in net1
    requires ReceivedExternal(net, net1, {}, net[self].inboxOrder, net[self].asn, net[self].queued)
    requires net1[self].externalAdmin == net[self].externalAdmin && net1[self].asn == net[self].asn
    requires forall e :: e in net[self].inboxOrder ==> e in net1[self].externalInbox
    ensures AllExternalOps(net1[self], net[self].inboxOrder, env) ==
      AllExternalOps(AfterOwnExternal(net[self], self, net[self].queued), net[self].inboxOrder, env)
  {
    var p := net[self];
    AllExternalOpsFrame(AfterOwnExternal(p, self, p.queued), net1[self], p.inboxOrder, env);
  }

  /**
   * The internal half of an iteration: flush the initialization delta, then drain the
   * internal inboxes of `self` and send what changed. The delta is what applying the
   * operations of every queued message, counting what the flush delivered to `self` itself,
   * does to the internal RIB. Every other process receives the initialization delta followed
   * by the delta, where targeted; `self`'s own internal inboxes end holding only what it sent
   * itself in the second send. Apart from inbox contents, the only changes are that `self` no
   * longer holds an initialization delta and that its internal RIB has moved by exactly the
   * returned delta. With nothing to flush and nothing received, nothing changes.
   */
  method InternalRound(net: Network, self: ProcKey, env: Env) returns (r: Result<Round<InternalAdvert>, Error>)
    requires self in net && Valid(net[self])
    ensures r.Success? ==> OthersOnlyReceive(net, r.value.net, self)
    ensures r.Success? ==> r.value.net[self].internalRib == Replay(net[self].internalRib, r.value.delta)
    ensures r.Success? ==>
      OnlyInboxesChanged(net[self].(initDelta := [], internalRib := r.value.net[self].internalRib), r.value.net[self])
    ensures r.Success? && net[self].initDelta == [] && InternalInboxesEmpty(net[self]) ==>
      r.value == Round(net, [])
    ensures r.Success? <==>
      AllInternalOps(AfterOwnInternal(net[self], self, net[self].initDelta), net[self].inboxOrder, env).Success? &&
      InternalTargetsExist(net, net[self].asn, net[self].inboxOrder)
    ensures r.Success? ==>
      r.value.delta == ApplyOps(net[self].internalRib,
                                AllInternalOps(AfterOwnInternal(net[self], self, net[self].initDelta), net[self].inboxOrder, env).value,
                                env.prefer).delta
    ensures r.Success? ==>
      ReceivedInternal(net, r.value.net, {self}, net[self].inboxOrder, net[self].asn, net[self].initDelta + r.value.delta)
    ensures r.Success? ==> SelfHoldsInternal(net[self], r.value.net[self], self, net[self].inboxOrder, net[self].asn, r.value.delta)
    ensures r.Success? ==> ExternalInboxesKept(net, r.value.net)
  {
    var p := net[self];
    var flushed := p.(initDelta := []);
    InternalTargetsOverride(net, self, flushed, p.asn, p.inboxOrder);
    var net1 :- FlushInit(net, self);
    assert self in net1 && Valid(net1[self]) && net1[self] == flushed.(internalInbox := net1[self].internalInbox) &&
           net1[self].internalInbox.Keys == p.internalInbox.Keys by {
      FrameKeepsValid(net, net1, self, flushed);
      assert OnlyInboxesChanged(net[self := flushed][self], net1[self]);
    }
    assert InternalTargetsExist(net1, p.asn, p.inboxOrder) <==> InternalTargetsExist(net, p.asn, p.inboxOrder) by {
      InternalTargetsStable(net[self := flushed], net1, p.asn, p.inboxOrder);
    }
    assert ReceivedInternal(net, net1, {}, p.inboxOrder, p.asn, p.initDelta) by {
      FlushInitDelivers(net, self);
    }
    assert AllInternalOps(net1[self], p.inboxOrder, env) ==
           AllInternalOps(AfterOwnInternal(p, self, p.initDelta), p.inboxOrder, env) by {
      FlushedInternalOps(net, self, net1, env);
    }
    var step :- InternalStep(net1, self, env);
    assert ReceivedInternal(net, step.net, {self}, p.inboxOrder, p.asn, p.initDelta + step.delta) &&
           SelfHoldsInternal(p, step.net[self], self, p.inboxOrder, p.asn, step.delta) by {
      ComposeInternal(net, self, net1, step.net, p.inboxOrder, p.asn, p.initDelta, step.delta);
    }
    assert ExternalInboxesKept(net, step.net) by {
      ExternalInboxesKeptTransitive(net, net1, step.net);
    }
    assert OthersOnlyReceive(net, step.net, self) &&
           OnlyInboxesChanged(flushed.(internalRib := step.net[self].internalRib), step.net[self]) by {
      var b := flushed.(internalRib := step.net[self].internalRib);
      FlushStepFrame(net, self, flushed, net1, b, step.net);
      FrameGivesOthersOnlyReceive(net, step.net, self, b);
    }
    return Success(step);
  }

  /**
   * The external half of an iteration: flush the redistribution queue, then drain the
   * external inboxes of `self` and send what changed. The delta is what applying the
   * operations of every queued message, counting what the flush delivered to `self` itself,
   * does to the external RIB. Every other process receives the queue followed by the delta,
   * where targeted; each of `self`'s own external inboxes ends empty, except that a skipped
   * one keeps its messages and what the flush added, followed by what `self` sent itself in
   * the second send. Apart from inbox contents, the only changes are that `self` has nothing
   * queued and that its external RIB has moved by exactly the returned delta. With nothing
   * queued and nothing received, nothing changes.
   */
  method ExternalRound(net: Network, self: ProcKey, env: Env) returns (r: Result<Round<ExternalAdvert>, Error>)
    requires self in net && Valid(net[self])
    ensures r.Success? ==> OthersOnlyReceive(net, r.value.net, self)
    ensures r.Success? ==> r.value.net[self].externalRib == Replay(net[self].externalRib, r.value.delta)
    ensures r.Success? ==>
      OnlyInboxesChanged(net[self].(queued := [], externalRib := r.value.net[self].externalRib), r.value.net[self])
    ensures r.Success? && net[self].queued == [] && ExternalInboxesEmpty(net[self]) ==>
      r.value == Round(net, [])
    ensures r.Success? <==>
      AllExternalOps(AfterOwnExternal(net[self], self, net[self].queued), net[self].inboxOrder, env).Success? &&
      ExternalTargetsExist(net, net[self].asn, net[self].inboxOrder)
    ensures r.Success? ==>
      r.value.delta == ApplyOps(net[self].externalRib,
                                AllExternalOps(AfterOwnExternal(net[self], self, net[self].queued), net[self].inboxOrder, env).value,
                                env.prefer).delta
    ensures r.Success? ==>
      ReceivedExternal(net, r.value.net, {self}, net[self].inboxOrder, net[self].asn, net[self].queued + r.value.delta)
    ensures r.Success? ==>
      SelfHoldsExternal(net[self], r.value.net[self], self, env, net[self].inboxOrder, net[self].asn, net[self].queued, r.value.delta)
    ensures r.Success? ==> InternalInboxesKept(net, r.value.net)
  {
    var p := net[self];
    var flushed := p.(queued := []);
    ExternalTargetsOverride(net, self, flushed, p.asn, p.inboxOrder);
    var net1 :- FlushQueued(net, self);
    assert self in net1 && Valid(net1[self]) && net1[self] == flushed.(externalInbox := net1[self].externalInbox) &&
           net1[self].externalInbox.Keys == p.externalInbox.Keys by {
      FrameKeepsValid(net, net1, self, flushed);
      assert OnlyInboxesChanged(net[self := flushed][self], net1[self]);
    }
    assert ExternalTargetsExist(net1, p.asn, p.inboxOrder) <==> ExternalTargetsExist(net, p.asn, p.inboxOrder) by {
      ExternalTargetsStable(net[self := flushed], net1, p.asn, p.inboxOrder);
    }
    assert ReceivedExternal(net, net1, {}, p.inboxOrder, p.asn, p.queued) by {
      FlushQueuedDelivers(net, self);
    }
    assert AllExternalOps(net1[self], p.inboxOrder, env) ==
           AllExternalOps(AfterOwnExternal(p, self, p.queued), p.inboxOrder, env) by {
      FlushedExternalOps(net, self, net1, env);
    }
    var step :- ExternalStep(net1, self, env);
    assert ReceivedExternal(net, step.net, {self}, p.inboxOrder, p.asn, p.queued + step.delta) &&
           SelfHoldsExternal(p, step.net[self], self, env, p.inboxOrder, p.asn, p.queued, step.delta) by {
      ComposeExternal(net, self, net1, step.net, env, p.inboxOrder, p.asn, p.queued, step.delta);
    }
    assert InternalInboxesKept(net, step.net) by {
      InternalInboxesKeptTransitive(net, net1, step.net);
    }
    assert OthersOnlyReceive(net, step.net, self) &&
           OnlyInboxesChanged(flushed.(externalRib := step.net[self].externalRib), step.net[self]) by {
      var b := flushed.(externalRib := step.net[self].externalRib);
      FlushStepFrame(net, self, flushed, net1, b, step.net);
      FrameGivesOthersOnlyReceive(net, step.net, self, b);
    }
    return Success(step);
  }

  /** Appending `a` then `b`, both when `t` holds, appends `a + b` when `t` holds. */
  lemma AppendTwice<A>(x: seq<A>, a: seq<A>, b: seq<A>, t: bool)
    ensures (x + (if t then a else [])) + (if t then b else []) == x + (if t then a + b else [])
  {
    if !t {
      assert (x + []) + [] == x + [];
    }
  }

  /**
   * The sender drained all its internal inboxes, then sent `delta`: every other process
   * received it where targeted, and the sender's own inboxes hold only what it sent itself.
   */
  lemma DrainThenSendInternal(net: Network, self: ProcKey, st: ProcessState, net3: Network,
                              keys: seq<Edge>, asn: Asn, delta: seq<InternalAdvert>)
    requires self in net && self in net3
    requires st.internalInbox.Keys == net[self].internalInbox.Keys
    requires forall e :: e in st.internalInbox ==> st.internalInbox[e] == []
    requires ReceivedInternal(net[self := st], net3, {}, keys, asn, delta)
    ensures ReceivedInternal(net, net3, {self}, keys, asn, delta)
    ensures SelfHoldsInternal(net[self], net3[self], self, keys, asn, delta)
  {
    forall k, e | k in net && k != self && e in net[k].internalInbox
      ensures k in net3 && e in net3[k].internalInbox
      ensures net3[k].internalInbox[e] == net[k].internalInbox[e] + (if Targeted(keys, asn, k, e) then delta else [])
    {
      assert net[self := st][k] == net[k];
    }
    forall e | e in net[self].internalInbox
      ensures e in net3[self].internalInbox
      ensures net3[self].internalInbox[e] == if Targeted(keys, asn, self, e) then delta else []
    {
      assert net[self := st][self] == st;
      assert [] + (if Targeted(keys, asn, self, e) then delta else []) == if Targeted(keys, asn, self, e) then delta else [];
    }
  }

  /**
   * The sender drained its external inboxes except the skipped ones, then sent `delta`: every
   * other process received it where targeted, and each of the sender's own inboxes holds what
   * it kept followed by what it sent itself.
   */
  lemma DrainThenSendExternal(net: Network, self: ProcKey, st: ProcessState, net3: Network, env: Env,
                              keys: seq<Edge>, asn: Asn, delta: seq<ExternalAdvert>)
    requires self in net && self in net3
    requires st.externalInbox.Keys == net[self].externalInbox.Keys
    requires forall e :: e in net[self].externalInbox ==>
      st.externalInbox[e] == if SkipsEdge(env, e) then net[self].externalInbox[e] else []
    requires ReceivedExternal(net[self := st], net3, {}, keys, asn, delta)
    ensures ReceivedExternal(net, net3, {self}, keys, asn, delta)
    ensures SelfHoldsExternal(net[self], net3[self], self, env, keys, asn, [], delta)
  {
    forall k, e | k in net && k != self && e in net[k].externalInbox
      ensures k in net3 && e in net3[k].externalInbox
      ensures net3[k].externalInbox[e] == net[k].externalInbox[e] + (if Targeted(keys, asn, k, e) then delta else [])
    {
      assert net[self := st][k] == net[k];
    }
    forall e | e in net[self].externalInbox
      ensures e in net3[self].externalInbox
      ensures net3[self].externalInbox[e] ==
        (if SkipsEdge(env, e) then net[self].externalInbox[e] + (if Targeted(keys, asn, self, e) then [] else []) else []) +
        (if Targeted(keys, asn, self, e) then delta else [])
    {
      assert net[self := st][self] == st;
      assert net[self].externalInbox[e] + (if Targeted(keys, asn, self, e) then [] else []) == net[self].externalInbox[e];
    }
  }

  /**
   * A flush delivering `init`, then a step that delivered `delta` to the others and left the
   * sender holding only what it sent itself: every other process received `init + delta` where
   * targeted, and the sender holds only what it sent itself in the step.
   */
  lemma ComposeInternal(net: Network, self: ProcKey, net1: Network, net3: Network,
                        keys: seq<Edge>, asn: Asn, init: seq<InternalAdvert>, delta: seq<InternalAdvert>)
    requires self in net && self in net1 && self in net3
    requires ReceivedInternal(net, net1, {}, keys, asn, init)
    requires ReceivedInternal(net1, net3, {self}, keys, asn, delta)
    requires SelfHoldsInternal(net1[self], net3[self], self, keys, asn, delta)
    ensures ReceivedInternal(net, net3, {self}, keys, asn, init + delta)
    ensures SelfHoldsInternal(net[self], net3[self], self, keys, asn, delta)
  {
    forall k, e | k in net && k != self && e in net[k].internalInbox
      ensures k in net3 && e in net3[k].internalInbox
      ensures net3[k].internalInbox[e] == net[k].internalInbox[e] + (if Targeted(keys, asn, k, e) then init + delta else [])
    {
      AppendTwice(net[k].internalInbox[e], init, delta, Targeted(keys, asn, k, e));
    }
  }

  /**
   * A flush delivering `queued`, then a step that delivered `delta` to the others and left
   * each of the sender's inboxes holding what it kept followed by what it sent itself: every
   * other process received `queued + delta` where targeted, and each of the sender's inboxes
   * holds, if skipped, its old messages and what the flush added, then what the step sent.
   */
  lemma ComposeExternal(net: Network, self: ProcKey, net1: Network, net3: Network, env: Env,
                        keys: seq<Edge>, asn: Asn, queued: seq<ExternalAdvert>, delta: seq<ExternalAdvert>)
    requires self in net && self in net1 && self in net3
    requires ReceivedExternal(net, net1, {}, keys, asn, queued)
    requires ReceivedExternal(net1, net3, {self}, keys, asn, delta)
    requires SelfHoldsExternal(net1[self], net3[self], self, env, keys, asn, [], delta)
    ensures ReceivedExternal(net, net3, {self}, keys, asn, queued + delta)
    ensures SelfHoldsExternal(net[self], net3[self], self, env, keys, asn, queued, delta)
  {
    forall k, e | k in net && k != self && e in net[k].externalInbox
      ensures k in net3 && e in net3[k].externalInbox
      ensures net3[k].externalInbox[e] == net[k].externalInbox[e] + (if Targeted(keys, asn, k, e) then queued + delta else [])
    {
      AppendTwice(net[k].externalInbox[e], queued, delta, Targeted(keys, asn, k, e));
    }
    forall e | e in net[self].externalInbox
      ensures e in net3[self].externalInbox
      ensures net3[self].externalInbox[e] ==
        (if SkipsEdge(env, e) then net[self].externalInbox[e] + (if Targeted(keys, asn, self, e) then queued else [])
         else []) + (if Targeted(keys, asn, self, e) then delta else [])
    {
      var t := Targeted(keys, asn, self, e);
      assert net1[self].externalInbox[e] + (if t then [] else []) == net1[self].externalInbox[e];
    }
  }

  /** Replacing `self` by a state of the same shape leaves every other process alone. */
  lemma ReplaceSelfOthersOnlyReceive(net: Network, self: ProcKey, last: ProcessState)
    requires self in net && last.asn == net[self].asn && last.inboxOrder == net[self].inboxOrder
    requires last.internalInbox.Keys == net[self].internalInbox.Keys
    requires last.externalInbox.Keys == net[self].externalInbox.Keys
    ensures OthersOnlyReceive(net, net[self := last], self)
  {
    var net' := net[self := last];
    forall k | k in net && k != self
      ensures OnlyInboxesChanged(net[k], net'[k])
    {
      assert net'[k] == net[k];
    }
  }

  /** A valid process that is not dirty has nothing to flush and nothing received. */
  lemma CleanMeansQuiet(p: ProcessState)
    requires Valid(p) && !IsDirty(p)
    ensures InternalInboxesEmpty(p) && ExternalInboxesEmpty(p)
    ensures p.changeSet == [] && p.queued == [] && p.initDelta == []
  {
    IsDirtyExactly(p);
  }

  /**
   * Import the round's deltas into the combined RIB of `self`, whose change set is empty:
   * the combined RIB becomes what applying the internal delta and then the external delta
   * makes of it, the change set records exactly what that application changed, and nothing
   * else in the network changes. Importing nothing changes nothing.
   */
  function RecordAt(net: Network, self: ProcKey, internalDelta: Delta, externalDelta: Delta, env: Env): (r: Network)
    requires self in net && net[self].changeSet == []
    ensures OthersOnlyReceive(net, r, self)
    ensures r == net[self := r[self]]
    ensures r[self] == net[self].(rib := r[self].rib, changeSet := r[self].changeSet)
    ensures r[self].rib == ApplyOps(net[self].rib, internalDelta + externalDelta, env.prefer).rib
    ensures r[self].changeSet == ApplyOps(net[self].rib, internalDelta + externalDelta, env.prefer).delta
    ensures Replay(net[self].rib, r[self].changeSet) == r[self].rib
    ensures internalDelta == [] && externalDelta == [] ==> r == net
  {
    var s := net[self];
    var last := RecordChanges(s, internalDelta, externalDelta, env);
    assert last.changeSet[|s.changeSet|..] == last.changeSet;
    assert last.changeSet == ApplyOps(s.rib, internalDelta + externalDelta, env.prefer).delta by {
      assert [] + ApplyOps(s.rib, internalDelta + externalDelta, env.prefer).delta ==
             ApplyOps(s.rib, internalDelta + externalDelta, env.prefer).delta;
    }
    ReplaceSelfOthersOnlyReceive(net, self, last);
    if internalDelta == [] && externalDelta == [] then
      RecordNothingChangesNothing(s, env);
      UpdateToSelf(net, self);
      net[self := last]
    else
      net[self := last]
  }

  /** A network after one iteration of a process, with the deltas of its two halves. */
  datatype Iteration = Iteration(net: Network, internalDelta: seq<InternalAdvert>, externalDelta: seq<ExternalAdvert>)

  /** Replacing `self` by a state with the same inboxes keeps every inbox. */
  lemma OverrideKeepsInboxes(net: Network, self: ProcKey, x: ProcessState)
    requires self in net && x.internalInbox == net[self].internalInbox && x.externalInbox == net[self].externalInbox
    ensures InternalInboxesKept(net, net[self := x]) && ExternalInboxesKept(net, net[self := x])
  {
  }

  lemma KeptThenReceivedInternal(a: Network, b: Network, c: Network, except: set<ProcKey>, keys: seq<Edge>, asn: Asn,
                                 msgs: seq<InternalAdvert>)
    requires InternalInboxesKept(a, b) && ReceivedInternal(b, c, except, keys, asn, msgs)
    ensures ReceivedInternal(a, c, except, keys, asn, msgs)
  {
  }

  lemma KeptThenReceivedExternal(a: Network, b: Network, c: Network, except: set<ProcKey>, keys: seq<Edge>, asn: Asn,
                                 msgs: seq<ExternalAdvert>)
    requires ExternalInboxesKept(a, b) && ReceivedExternal(b, c, except, keys, asn, msgs)
    ensures ReceivedExternal(a, c, except, keys, asn, msgs)
  {
  }

  lemma ReceivedThenKeptInternal(a: Network, b: Network, c: Network, except: set<ProcKey>, keys: seq<Edge>, asn: Asn,
                                 msgs: seq<InternalAdvert>)
    requires ReceivedInternal(a, b, except, keys, asn, msgs) && InternalInboxesKept(b, c)
    ensures ReceivedInternal(a, c, except, keys, asn, msgs)
  {
  }

  lemma ReceivedThenKeptExternal(a: Network, b: Network, c: Network, except: set<ProcKey>, keys: seq<Edge>, asn: Asn,
                                 msgs: seq<ExternalAdvert>)
    requires ReceivedExternal(a, b, except, keys, asn, msgs) && ExternalInboxesKept(b, c)
    ensures ReceivedExternal(a, c, except, keys, asn, msgs)
  {
  }

  /** What the sender holds depends on its inboxes only. */
  lemma SelfHoldsInternalSameInboxes(b1: ProcessState, a1: ProcessState, b2: ProcessState, a2: ProcessState,
                                     self: ProcKey, keys: seq<Edge>, asn: Asn, msgs: seq<InternalAdvert>)
    requires SelfHoldsInternal(b1, a1, self, keys, asn, msgs)
    requires b2.internalInbox == b1.internalInbox && a2.internalInbox == a1.internalInbox
    ensures SelfHoldsInternal(b2, a2, self, keys, asn, msgs)
  {
  }

  /** What the sender holds depends on its inboxes only. */
  lemma SelfHoldsExternalSameInboxes(b1: ProcessState, a1: ProcessState, b2: ProcessState, a2: ProcessState,
                                     self: ProcKey, env: Env, keys: seq<Edge>, asn: Asn,
                                     kept: seq<ExternalAdvert>, msgs: seq<ExternalAdvert>)
    requires SelfHoldsExternal(b1, a1, self, env, keys, asn, kept, msgs)
    requires b2.externalInbox == b1.externalInbox && a2.externalInbox == a1.externalInbox
    ensures SelfHoldsExternal(b2, a2, self, env, keys, asn, kept, msgs)
  {
  }

  /** Whether the targets exist depends on the processes' internal inbox keys only. */
  lemma InternalTargetsKept(net: Network, net': Network, asn: Asn, keys: seq<Edge>)
    requires InternalInboxesKept(net, net') && net'.Keys == net.Keys
    ensures InternalTargetsExist(net, asn, keys) <==> InternalTargetsExist(net', asn, keys)
  {
  }

  /** Whether the targets exist depends on the processes' external inbox keys only. */
  lemma ExternalTargetsKept(net: Network, net': Network, asn: Asn, keys: seq<Edge>)
    requires ExternalInboxesKept(net, net') && net'.Keys == net.Keys
    ensures ExternalTargetsExist(net, asn, keys) <==> ExternalTargetsExist(net', asn, keys)
  {
  }

  /** The internal operations seen after receiving `msgs` from itself depend on inboxes, admin and AS only. */
  lemma AfterOwnInternalOps(p: ProcessState, q: ProcessState, self: ProcKey, msgs: seq<InternalAdvert>, env: Env)
    requires Valid(p) && q.internalInbox == p.internalInbox && q.inboxOrder == p.inboxOrder
    requires q.internalAdmin == p.internalAdmin && q.asn == p.asn
    ensures AllInternalOps(AfterOwnInternal(q, self, msgs), q.inboxOrder, env) ==
            AllInternalOps(AfterOwnInternal(p, self, msgs), p.inboxOrder, env)
  {
    AllInternalOpsFrame(AfterOwnInternal(p, self, msgs), AfterOwnInternal(q, self, msgs), p.inboxOrder, env);
  }

  /** The external operations seen after receiving `msgs` from itself depend on inboxes, admin and AS only. */
  lemma AfterOwnExternalOps(p: ProcessState, q: ProcessState, self: ProcKey, msgs: seq<ExternalAdvert>, env: Env)
    requires Valid(p) && q.externalInbox == p.externalInbox && q.inboxOrder == p.inboxOrder
    requires q.externalAdmin == p.externalAdmin && q.asn == p.asn
    ensures AllExternalOps(AfterOwnExternal(q, self, msgs), q.inboxOrder, env) ==
            AllExternalOps(AfterOwnExternal(p, self, msgs), p.inboxOrder, env)
  {
    AllExternalOpsFrame(AfterOwnExternal(p, self, msgs), AfterOwnExternal(q, self, msgs), p.inboxOrder, env);
  }

  /**
   * The first part of an iteration: clear the change set of `self`, then run the internal
   * half. Its contract is that of `InternalRound`, stated of the network before clearing.
   */
  method ClearThenInternalRound(net: Network, self: ProcKey, env: Env) returns (r: Result<Round<InternalAdvert>, Error>)
    requires self in net && Valid(net[self])
    ensures r.Success? ==> OthersOnlyReceive(net, r.value.net, self)
    ensures r.Success? ==> r.value.net[self].internalRib == Replay(net[self].internalRib, r.value.delta)
    ensures r.Success? ==>
      OnlyInboxesChanged(net[self].(changeSet := [], initDelta := [], internalRib := r.value.net[self].internalRib),
                         r.value.net[self])
    ensures r.Success? && !IsDirty(net[self]) ==> r.value == Round(net, [])
    ensures r.Success? <==>
      AllInternalOps(AfterOwnInternal(net[self], self, net[self].initDelta), net[self].inboxOrder, env).Success? &&
      InternalTargetsExist(net, net[self].asn, net[self].inboxOrder)
    ensures r.Success? ==>
      r.value.delta == ApplyOps(net[self].internalRib,
                                AllInternalOps(AfterOwnInternal(net[self], self, net[self].initDelta),
                                               net[self].inboxOrder, env).value,
                                env.prefer).delta
    ensures r.Success? ==>
      ReceivedInternal(net, r.value.net, {self}, net[self].inboxOrder, net[self].asn, net[self].initDelta + r.value.delta)
    ensures r.Success? ==> SelfHoldsInternal(net[self], r.value.net[self], self, net[self].inboxOrder, net[self].asn, r.value.delta)
    ensures r.Success? ==> ExternalInboxesKept(net, r.value.net)
  {
    var p := net[self];
    var p0 := p.(changeSet := []);
    var net0 := net[self := p0];
    ReplaceSelfOthersOnlyReceive(net, self, p0);
    assert InternalInboxesKept(net, net0) && ExternalInboxesKept(net, net0) by {
      OverrideKeepsInboxes(net, self, p0);
    }
    assert AllInternalOps(AfterOwnInternal(p0, self, p.initDelta), p.inboxOrder, env) ==
           AllInternalOps(AfterOwnInternal(p, self, p.initDelta), p.inboxOrder, env) by {
      AfterOwnInternalOps(p, p0, self, p.initDelta, env);
    }
    assert InternalTargetsExist(net0, p.asn, p.inboxOrder) <==> InternalTargetsExist(net, p.asn, p.inboxOrder) by {
      InternalTargetsKept(net, net0, p.asn, p.inboxOrder);
    }
    var internal :- InternalRound(net0, self, env);
    assert ReceivedInternal(net, internal.net, {self}, p.inboxOrder, p.asn, p.initDelta + internal.delta) by {
      KeptThenReceivedInternal(net, net0, internal.net, {self}, p.inboxOrder, p.asn, p.initDelta + internal.delta);
    }
    assert SelfHoldsInternal(p, internal.net[self], self, p.inboxOrder, p.asn, internal.delta) by {
      SelfHoldsInternalSameInboxes(p0, internal.net[self], p, internal.net[self], self, p.inboxOrder, p.asn, internal.delta);
    }
    ExternalInboxesKeptTransitive(net, net0, internal.net);
    OthersOnlyReceiveTransitive(net, net0, internal.net, self);
    if !IsDirty(p) {
      CleanMeansQuiet(p);
      assert p0 == p;
      UpdateToSelf(net, self);
    }
    return Success(internal);
  }

  /**
   * One iteration of process `self`: clear the change set, run the internal half, run the
   * external half, and import both deltas into the combined RIB.
   *
   * The iteration succeeds exactly when both halves' operations can be computed and their
   * targets exist. Each half's delta is what applying its operations, in inbox order and
   * counting what `self` sent itself, does to the matching RIB; the combined RIB becomes what
   * applying both deltas makes of it, and the updates for the main RIB record exactly that
   * change. Every other process receives, where targeted, the initialization delta and the
   * internal delta on its internal inboxes, and the redistribution queue and the external
   * delta on its external inboxes; `self`'s own inboxes end empty, except for skipped external
   * inboxes and what it sent itself. Nothing from initialization or redistribution is pending
   * afterwards, and a process that was not dirty leaves the whole network unchanged.
   */
  method ExecuteIteration(net: Network, self: ProcKey, env: Env) returns (r: Result<Iteration, Error>)
    requires self in net && Valid(net[self])
    ensures r.Success? ==> SameShape(net, r.value.net)
    ensures r.Success? ==> forall k :: k in net && k != self ==> OnlyInboxesChanged(net[k], r.value.net[k])
    ensures r.Success? ==> r.value.net[self].initDelta == [] && r.value.net[self].queued == []
    ensures r.Success? ==>
      OnlyInboxesChanged(net[self].(changeSet := r.value.net[self].changeSet, initDelta := [], queued := [],
                                    internalRib := r.value.net[self].internalRib,
                                    externalRib := r.value.net[self].externalRib,
                                    rib := r.value.net[self].rib),
                         r.value.net[self])
    ensures r.Success? ==> Replay(net[self].rib, GetUpdatesForMainRib(r.value.net[self])) == r.value.net[self].rib
    ensures r.Success? && !IsDirty(net[self]) ==> r.value == Iteration(net, [], [])
    ensures r.Success? <==>
      && AllInternalOps(AfterOwnInternal(net[self], self, net[self].initDelta), net[self].inboxOrder, env).Success?
      && InternalTargetsExist(net, net[self].asn, net[self].inboxOrder)
      && AllExternalOps(AfterOwnExternal(net[self], self, net[self].queued), net[self].inboxOrder, env).Success?
      && ExternalTargetsExist(net, net[self].asn, net[self].inboxOrder)
    ensures r.Success? ==>
      r.value.internalDelta == ApplyOps(net[self].internalRib,
                                        AllInternalOps(AfterOwnInternal(net[self], self, net[self].initDelta),
                                                       net[self].inboxOrder, env).value,
                                        env.prefer).delta
    ensures r.Success? ==>
      r.value.externalDelta == ApplyOps(net[self].externalRib,
                                        AllExternalOps(AfterOwnExternal(net[self], self, net[self].queued),
                                                       net[self].inboxOrder, env).value,
                                        env.prefer).delta
    ensures r.Success? ==> r.value.net[self].internalRib == Replay(net[self].internalRib, r.value.internalDelta)
    ensures r.Success? ==> r.value.net[self].externalRib == Replay(net[self].externalRib, r.value.externalDelta)
    ensures r.Success? ==>
      r.value.net[self].rib == ApplyOps(net[self].rib, r.value.internalDelta + r.value.externalDelta, env.prefer).rib
    ensures r.Success? ==>
      GetUpdatesForMainRib(r.value.net[self]) ==
      ApplyOps(net[self].rib, r.value.internalDelta + r.value.externalDelta, env.prefer).delta
    ensures r.Success? ==>
      ReceivedInternal(net, r.value.net, {self}, net[self].inboxOrder, net[self].asn,
                       net[self].initDelta + r.value.internalDelta)
    ensures r.Success? ==>
      ReceivedExternal(net, r.value.net, {self}, net[self].inboxOrder, net[self].asn,
                       net[self].queued + r.value.externalDelta)
    ensures r.Success? ==>
      SelfHoldsInternal(net[self], r.value.net[self], self, net[self].inboxOrder, net[self].asn, r.value.internalDelta)
    ensures r.Success? ==>
      SelfHoldsExternal(net[self], r.value.net[self], self, env, net[self].inboxOrder, net[self].asn,
                        net[self].queued, r.value.externalDelta)
  {
    var p := net[self];
    var internal :- ClearThenInternalRound(net, self, env);
    var q := internal.net[self];
    assert Valid(q) && q.queued == p.queued && q.externalRib == p.externalRib && q.rib == p.rib by {
      OnlyInboxesChangedKeepsValid(p.(changeSet := [], initDelta := [], internalRib := q.internalRib), q);
    }
    assert AllExternalOps(AfterOwnExternal(q, self, p.queued), p.inboxOrder, env) ==
           AllExternalOps(AfterOwnExternal(p, self, p.queued), p.inboxOrder, env) by {
      AfterOwnExternalOps(p, q, self, p.queued, env);
    }
    assert ExternalTargetsExist(internal.net, p.asn, p.inboxOrder) <==> ExternalTargetsExist(net, p.asn, p.inboxOrder) by {
      ExternalTargetsKept(net, internal.net, p.asn, p.inboxOrder);
    }
    var external :- ExternalRound(internal.net, self, env);
    var s := external.net[self];
    assert s.changeSet == [] && s.rib == p.rib && s.initDelta == [] && s.queued == [];
    var final := RecordAt(external.net, self, internal.delta, external.delta, env);
    assert InternalInboxesKept(external.net, final) && ExternalInboxesKept(external.net, final) by {
      OverrideKeepsInboxes(external.net, self, final[self]);
    }
    assert ReceivedInternal(net, final, {self}, p.inboxOrder, p.asn, p.initDelta + internal.delta) by {
      InternalInboxesKeptTransitive(internal.net, external.net, final);
      ReceivedThenKeptInternal(net, internal.net, final, {self}, p.inboxOrder, p.asn, p.initDelta + internal.delta);
    }
    assert ReceivedExternal(net, final, {self}, p.inboxOrder, p.asn, p.queued + external.delta) by {
      KeptThenReceivedExternal(net, internal.net, external.net, {self}, p.inboxOrder, p.asn, p.queued + external.delta);
      ReceivedThenKeptExternal(net, external.net, final, {self}, p.inboxOrder, p.asn, p.queued + external.delta);
    }
    assert SelfHoldsInternal(p, final[self], self, p.inboxOrder, p.asn, internal.delta) by {
      InternalInboxesKeptTransitive(internal.net, external.net, final);
      SelfHoldsInternalSameInboxes(p, q, p, final[self], self, p.inboxOrder, p.asn, internal.delta);
    }
    assert SelfHoldsExternal(p, final[self], self, env, p.inboxOrder, p.asn, p.queued, external.delta) by {
      SelfHoldsExternalSameInboxes(q, s, p, final[self], self, env, p.inboxOrder, p.asn, p.queued, external.delta);
    }
    OthersOnlyReceiveTransitive(net, internal.net, external.net, self);
    OthersOnlyReceiveTransitive(net, external.net, final, self);
    return Success(Iteration(final, internal.delta, external.delta));
  }
}
