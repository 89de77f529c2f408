/**
 * The RIB collaborator. The source's RIB classes are not part of this model; they are
 * represented by an ASSUMED contract: a RIB keeps one best route per network, `prefer`
 * (an uninterpreted tie-break) decides whether a new route displaces the current one,
 * and merge/remove report the change they made as an ordered delta.
 */
module Rib {
  import opened EigrpTypes

  /** A RIB indexes each route under its own network. */
  type Rib = m: map<Prefix, EigrpRoute> | forall n :: n in m ==> m[n].network == n
    witness map[]

  /** A RIB after an operation, with the delta that operation produced. */
  datatype Update = Update(rib: Rib, delta: Delta)

  /** The routes a sequence of advertisements carries. */
  function Routes(d: Delta): set<EigrpRoute> {
    set a | a in d :: a.route
  }

  /** Merge `r`; the delta withdraws the displaced best route, if any, then announces `r`. */
  function MergeRoute(rib: Rib, r: EigrpRoute, prefer: (EigrpRoute, EigrpRoute) -> bool): (u: Update)
    ensures r.network in u.rib
    ensures u.rib == rib || u.rib == rib[r.network := r]
    ensures u.delta == [] <==> u.rib == rib
    ensures r.network !in rib ==> u.delta == [Advert(r, false)]
    ensures Routes(u.delta) <= rib.Values + {r}
  {
    if r.network !in rib then
      Update(rib[r.network := r], [Advert(r, false)])
    else if rib[r.network] == r || !prefer(r, rib[r.network]) then
      Update(rib, [])
    else
      Update(rib[r.network := r], [Advert(rib[r.network], true), Advert(r, false)])
  }

  /** Remove `r` if it is the installed route for its network; otherwise nothing changes. */
  function RemoveRoute(rib: Rib, r: EigrpRoute): (u: Update)
    ensures r.network !in rib ==> u == Update(rib, [])
    ensures r.network in u.rib ==> u.rib[r.network] != r
    ensures u.rib.Keys <= rib.Keys
    ensures u.rib.Values <= rib.Values
    ensures Routes(u.delta) <= {r}
  {
    if r.network in rib && rib[r.network] == r then
      Update(rib - {r.network}, [Advert(r, true)])
    else
      Update(rib, [])
  }

  /** Apply one advertisement: remove when withdrawn, merge otherwise. */
  function ApplyOp(rib: Rib, a: Advert, prefer: (EigrpRoute, EigrpRoute) -> bool): Update {
    if a.withdrawn then RemoveRoute(rib, a.route) else MergeRoute(rib, a.route, prefer)
  }

  /**
   * Apply a sequence of advertisements in order, concatenating the deltas. Every route the
   * result mentions was already in the RIB or is carried by one of the advertisements, and
   * every announcement in the delta is one of the given announcements.
   */
  function ApplyOps(rib: Rib, ops: Delta, prefer: (EigrpRoute, EigrpRoute) -> bool): (u: Update)
    ensures u.rib.Values <= rib.Values + Routes(ops)
    ensures Routes(u.delta) <= rib.Values + Routes(ops)
    ensures forall a :: a in u.delta && !a.withdrawn ==> a in ops
    decreases |ops|
  {
    if ops == [] then Update(rib, [])
    else
      var u := ApplyOp(rib, ops[0], prefer);
      var v := ApplyOps(u.rib, ops[1..], prefer);
      assert ops == [ops[0]] + ops[1..];
      RoutesConcat(u.delta, v.delta);
      RoutesConcat([ops[0]], ops[1..]);
      Update(v.rib, u.delta + v.delta)
  }

  lemma RoutesConcat(d1: Delta, d2: Delta)
    ensures Routes(d1 + d2) == Routes(d1) + Routes(d2)
  {
    assert forall a :: a in d1 + d2 <==> a in d1 || a in d2;
  }

  /**
   * The operations keep a RIB of one kind of route (all internal or all external) of that
   * kind, and so is every route their delta mentions.
   */
  lemma ApplyOpsKeepsKind(rib: Rib, ops: Delta, prefer: (EigrpRoute, EigrpRoute) -> bool, internal: bool)
    requires forall n :: n in rib ==> rib[n].Internal? == internal
    requires forall a :: a in ops ==> a.route.Internal? == internal
    ensures forall n :: n in ApplyOps(rib, ops, prefer).rib ==> ApplyOps(rib, ops, prefer).rib[n].Internal? == internal
    ensures forall a :: a in ApplyOps(rib, ops, prefer).delta ==> a.route.Internal? == internal
  {
    var u := ApplyOps(rib, ops, prefer);
    forall n | n in u.rib
      ensures u.rib[n].Internal? == internal
    {
      assert u.rib[n] in u.rib.Values;
    }
    forall a | a in u.delta
      ensures a.route.Internal? == internal
    {
      assert a.route in Routes(u.delta);
    }
  }

  /** Replay one advertisement of a delta onto a RIB. */
  function ReplayOne(rib: Rib, a: Advert): Rib {
    if !a.withdrawn then rib[a.route.network := a.route]
    else if a.route.network in rib && rib[a.route.network] == a.route then rib - {a.route.network}
    else rib
  }

  /** The RIB a delta turns `rib` into, replaying it front to back. */
  function Replay(rib: Rib, d: Delta): Rib
    decreases |d|
  {
    if d == [] then rib else Replay(ReplayOne(rib, d[0]), d[1..])
  }

  /** Deltas compose by concatenation. */
  lemma {:induction false} ReplayConcat(rib: Rib, d1: Delta, d2: Delta)
    ensures Replay(rib, d1 + d2) == Replay(Replay(rib, d1), d2)
    decreases |d1|
  {
    if d1 != [] {
      assert (d1 + d2)[0] == d1[0];
      assert (d1 + d2)[1..] == d1[1..] + d2;
      ReplayConcat(ReplayOne(rib, d1[0]), d1[1..], d2);
    } else {
      assert d1 + d2 == d2;
    }
  }

  /** The delta of a single merge or remove is an exact record of the change it made. */
  lemma ApplyOpReplay(rib: Rib, a: Advert, prefer: (EigrpRoute, EigrpRoute) -> bool)
    ensures Replay(rib, ApplyOp(rib, a, prefer).delta) == ApplyOp(rib, a, prefer).rib
  {
    var u := ApplyOp(rib, a, prefer);
    var n := a.route.network;
    if !a.withdrawn && n in rib && rib[n] != a.route && prefer(a.route, rib[n]) {
      var mid := ReplayOne(rib, u.delta[0]);
      assert mid == rib - {n};
      assert u.delta[1..] == [u.delta[1]];
      assert Replay(mid, [u.delta[1]]) == Replay(ReplayOne(mid, u.delta[1]), []);
      assert ReplayOne(mid, u.delta[1]) == u.rib;
    }
  }

  /**
   * Replaying the delta of a sequence of RIB operations onto the starting RIB yields
   * exactly the RIB those operations produced.
   */
  lemma {:induction false} ApplyOpsReplay(rib: Rib, ops: Delta, prefer: (EigrpRoute, EigrpRoute) -> bool)
    ensures Replay(rib, ApplyOps(rib, ops, prefer).delta) == ApplyOps(rib, ops, prefer).rib
    decreases |ops|
  {
    if ops != [] {
      var u := ApplyOp(rib, ops[0], prefer);
      var v := ApplyOps(u.rib, ops[1..], prefer);
      ApplyOpReplay(rib, ops[0], prefer);
      ApplyOpsReplay(u.rib, ops[1..], prefer);
      ReplayConcat(rib, u.delta, v.delta);
    }
  }

  /** Every network of `ops` is announced, and no two of them share a network. */
  predicate FreshAnnouncements(rib: Rib, ops: Delta) {
    && (forall i :: 0 <= i < |ops| ==> !ops[i].withdrawn && ops[i].route.network !in rib)
    && (forall i, j :: 0 <= i < j < |ops| ==> ops[i].route.network != ops[j].route.network)
  }

  /** Dropping the first announcement keeps the rest fresh for the RIB that installed it. */
  lemma FreshTail(rib: Rib, ops: Delta, prefer: (EigrpRoute, EigrpRoute) -> bool)
    requires FreshAnnouncements(rib, ops) && ops != []
    ensures FreshAnnouncements(ApplyOp(rib, ops[0], prefer).rib, ops[1..])
    ensures forall j :: 0 <= j < |ops[1..]| ==> ops[1..][j].route.network != ops[0].route.network
  {
    var rest := ops[1..];
    forall i | 0 <= i < |rest|
      ensures !rest[i].withdrawn && rest[i].route.network != ops[0].route.network
    {
      assert rest[i] == ops[i + 1];
    }
    forall i, j | 0 <= i < j < |rest|
      ensures rest[i].route.network != rest[j].route.network
    {
      assert rest[i] == ops[i + 1] && rest[j] == ops[j + 1];
    }
  }

  /**
   * Announcements of pairwise distinct networks that the RIB does not hold are all
   * installed, and the delta is exactly those announcements, in order.
   */
  lemma {:induction false} FreshAnnouncementsInstalled(rib: Rib, ops: Delta, prefer: (EigrpRoute, EigrpRoute) -> bool)
    requires FreshAnnouncements(rib, ops)
    ensures ApplyOps(rib, ops, prefer).delta == ops
    ensures forall i :: 0 <= i < |ops| ==>
      ops[i].route.network in ApplyOps(rib, ops, prefer).rib &&
      ApplyOps(rib, ops, prefer).rib[ops[i].route.network] == ops[i].route
    decreases |ops|
  {
    if ops != [] {
      var u := ApplyOp(rib, ops[0], prefer);
      var rest := ops[1..];
      FreshTail(rib, ops, prefer);
      FreshAnnouncementsInstalled(u.rib, rest, prefer);
      ApplyOpsKeepsUntouched(u.rib, rest, prefer, ops[0].route.network);
      var v := ApplyOps(u.rib, rest, prefer);
      assert ops == [ops[0]] + rest;
      forall i | 0 <= i < |ops|
        ensures ops[i].route.network in v.rib && v.rib[ops[i].route.network] == ops[i].route
      {
        if i > 0 {
          assert ops[i] == rest[i - 1];
        }
      }
    }
  }

  lemma ConcatTail<T>(s1: seq<T>, s2: seq<T>)
    requires s1 != []
    ensures (s1 + s2)[0] == s1[0] && (s1 + s2)[1..] == s1[1..] + s2
  {
  }

  /** A non-empty run of operations is its first operation followed by the rest. */
  lemma ApplyOpsUnfold(rib: Rib, ops: Delta, prefer: (EigrpRoute, EigrpRoute) -> bool)
    requires ops != []
    ensures ApplyOps(rib, ops, prefer) ==
      Update(ApplyOps(ApplyOp(rib, ops[0], prefer).rib, ops[1..], prefer).rib,
             ApplyOp(rib, ops[0], prefer).delta + ApplyOps(ApplyOp(rib, ops[0], prefer).rib, ops[1..], prefer).delta)
  {
  }

  /**
   * Applying `o1 + o2` is applying `o1`, then applying `o2` to the RIB that left, with the
   * two deltas concatenated.
   */
  lemma {:induction false} ApplyOpsConcat(rib: Rib, o1: Delta, o2: Delta, prefer: (EigrpRoute, EigrpRoute) -> bool)
    ensures ApplyOps(rib, o1 + o2, prefer).rib == ApplyOps(ApplyOps(rib, o1, prefer).rib, o2, prefer).rib
    ensures ApplyOps(rib, o1 + o2, prefer).delta ==
      ApplyOps(rib, o1, prefer).delta + ApplyOps(ApplyOps(rib, o1, prefer).rib, o2, prefer).delta
    decreases |o1|
  {
    if o1 == [] {
      assert o1 + o2 == o2;
      assert [] + ApplyOps(rib, o2, prefer).delta == ApplyOps(rib, o2, prefer).delta;
    } else {
      var u := ApplyOp(rib, o1[0], prefer);
      var a := ApplyOps(u.rib, o1[1..], prefer);
      var b := ApplyOps(a.rib, o2, prefer);
      var v := ApplyOps(u.rib, o1[1..] + o2, prefer);
      ApplyOpsConcat(u.rib, o1[1..], o2, prefer);
      ConcatTail(o1, o2);
      ApplyOpsUnfold(rib, o1 + o2, prefer);
      ApplyOpsUnfold(rib, o1, prefer);
      ConcatStep(u.delta, a.delta, b.delta, v.delta, ApplyOps(rib, o1 + o2, prefer).delta, ApplyOps(rib, o1, prefer).delta);
    }
  }

  /** The delta bookkeeping of one step of `ApplyOpsConcat`. */
  lemma ConcatStep(du: Delta, da: Delta, db: Delta, dv: Delta, whole: Delta, first: Delta)
    requires dv == da + db && whole == du + dv && first == du + da
    ensures whole == first + db
  {
  }

  /**
   * A run of announcements keeps every network the RIB had and installs a route for each
   * announced network, whatever the preference decides.
   */
  lemma {:induction false} AnnouncementsCoverNetworks(rib: Rib, ops: Delta, prefer: (EigrpRoute, EigrpRoute) -> bool)
    requires forall i :: 0 <= i < |ops| ==> !ops[i].withdrawn
    ensures rib.Keys <= ApplyOps(rib, ops, prefer).rib.Keys
    ensures forall i :: 0 <= i < |ops| ==> ops[i].route.network in ApplyOps(rib, ops, prefer).rib
    decreases |ops|
  {
    if ops != [] {
      var u := ApplyOp(rib, ops[0], prefer);
      var rest := ops[1..];
      forall i | 0 <= i < |rest| ensures !rest[i].withdrawn {
        assert rest[i] == ops[i + 1];
      }
      AnnouncementsCoverNetworks(u.rib, rest, prefer);
      forall i | 0 <= i < |ops|
        ensures ops[i].route.network in ApplyOps(rib, ops, prefer).rib
      {
        if i > 0 {
          assert ops[i] == rest[i - 1];
        }
      }
    }
  }

  /** A network none of the operations mention keeps its entry. */
  lemma {:induction false} ApplyOpsKeepsUntouched(rib: Rib, ops: Delta, prefer: (EigrpRoute, EigrpRoute) -> bool, n: Prefix)
    requires forall j :: 0 <= j < |ops| ==> ops[j].route.network != n
    ensures (n in ApplyOps(rib, ops, prefer).rib <==> n in rib)
    ensures n in rib ==> ApplyOps(rib, ops, prefer).rib[n] == rib[n]
    decreases |ops|
  {
    if ops != [] {
      var u := ApplyOp(rib, ops[0], prefer);
      assert (n in u.rib <==> n in rib) && (n in rib ==> u.rib[n] == rib[n]);
      ApplyOpsKeepsUntouched(u.rib, ops[1..], prefer, n);
    }
  }
}
