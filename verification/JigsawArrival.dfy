/**
  * What a history of deliveries leaves behind, read off the history itself: the
  * self-parent chain of each column, the parents asked for, the witnesses, their
  * slots, the newcomers of each round and the node's own new events.
  */
module JigsawArrival {
  import opened Basics
  import opened Jigsaw
  import opened JigsawOrder

  /** The vertices of column a, in the order of their arrival. */
  ghost function Arrivals(o: seq<Delivery>, a: Address): (ids: seq<Id>)
  {
    if o == [] then [] else
      Arrivals(o[..|o| - 1], a) + if o[|o| - 1].e.addr == a then [IdOf(o[|o| - 1].e)] else []
  }

  /** The parent of the last delivery is already there, in the column it names. */
  ghost predicate Found(o: seq<Delivery>)
    requires o != []
  {
    exists j :: 0 <= j < |o| && o[j].e.selfHash == o[|o| - 1].e.otherPartH && Names(o[|o| - 1].e, o[j].e)
  }

  /** The last delivery becomes a witness: it was sent as one, or opens its column. */
  ghost predicate Wins(o: seq<Delivery>)
    requires o != []
  {
    o[|o| - 1].ty == WITNESS || Arrivals(o[..|o| - 1], o[|o| - 1].e.addr) == []
  }

  ghost function RoleOf(o: seq<Delivery>): (role: int)
    requires o != []
  {
    if Wins(o) then WITNESS else o[|o| - 1].ty
  }

  /** One request for each parent that was not found. */
  ghost function Asked(o: seq<Delivery>): (rs: seq<Request>)
  {
    if o == [] then [] else
      Asked(o[..|o| - 1]) + if Found(o) then [] else [Request(o[|o| - 1].e.otherPartH, o[|o| - 1].e.addr)]
  }

  /** The newcomers of the round at position k. */
  ghost function Newcomers(q: seq<Round>, o: seq<Delivery>, k: nat): (rs: seq<Request>)
    requires |q| > 0
  {
    if o == [] then [] else
      Newcomers(q, o[..|o| - 1], k) +
      if Resolve(q, o[|o| - 1].e.roundId) == k then [Request(o[|o| - 1].e.selfHash, o[|o| - 1].e.addr)] else []
  }

  /** The latest witness of column a in the round at position k. */
  ghost function LastWitness(q: seq<Round>, o: seq<Delivery>, k: nat, a: Address): (w: Option<Id>)
    requires |q| > 0
  {
    if o == [] then None
    else if o[|o| - 1].e.addr == a && Resolve(q, o[|o| - 1].e.roundId) == k && Wins(o) then Some(IdOf(o[|o| - 1].e))
    else LastWitness(q, o[..|o| - 1], k, a)
  }

  /** The node's own normal events. */
  ghost function Created(o: seq<Delivery>, coinbase: Address): (ids: seq<Id>)
  {
    if o == [] then [] else
      Created(o[..|o| - 1], coinbase) +
      if o[|o| - 1].e.addr == coinbase && RoleOf(o) == NORMAL then [IdOf(o[|o| - 1].e)] else []
  }

  /** Following self-parents from p meets ids, last first, and ends. */
  ghost predicate SelfChain(verts: map<Id, Vertex>, p: Option<Id>, ids: seq<Id>)
    decreases |ids|
  {
    if ids == [] then p.None?
    else
      && p == Some(ids[|ids| - 1]) && p.value in verts
      && SelfChain(verts, verts[p.value].selfPt, ids[..|ids| - 1])
  }

  ghost predicate ColumnsRead(g: Graph, o: seq<Delivery>)
  {
    forall a | a in g.columns ::
      && SelfChain(g.verts, g.columns[a].verTop, Arrivals(o, a))
      && forall h :: h in g.columns[a].chain <==> Id(a, h) in Arrivals(o, a)
  }

  ghost predicate RolesRead(g: Graph, o: seq<Delivery>)
  {
    forall i | 0 <= i < |o| :: IdOf(o[i].e) in g.verts && g.verts[IdOf(o[i].e)].role == RoleOf(o[..i + 1])
  }

  ghost predicate RoundsRead(q: seq<Round>, g: Graph, o: seq<Delivery>)
    requires |q| > 0
  {
    && SameIndices(q, g.queue)
    && (forall k | 0 <= k < |q| :: g.queue[k].newComer == Newcomers(q, o, k))
    && (forall k, a | 0 <= k < |q| && a in g.columns :: SlotRead(q, g, o, k, a))
  }

  ghost predicate SlotRead(q: seq<Round>, g: Graph, o: seq<Delivery>, k: nat, a: Address)
    requires k < |q| && SameIndices(q, g.queue) && a in g.columns
  {
    g.columns[a].seqNum < |g.queue[k].witnesses| && g.queue[k].witnesses[g.columns[a].seqNum] == LastWitness(q, o, k, a)
  }

  /** The graph says what the history says. */
  ghost predicate Read(g0: Graph, g: Graph, o: seq<Delivery>)
    requires |g0.queue| > 0
  {
    && ColumnsRead(g, o) && RolesRead(g, o) && RoundsRead(g0.queue, g, o)
    && g.requests == g0.requests + Asked(o)
    && g.coinbase == g0.coinbase && g.selfEventCreated == g0.selfEventCreated + Created(o, g0.coinbase)
    && g.roundTrigger == g0.roundTrigger
  }

  // ---------------------------------------------------------------------------
  // Histories
  // ---------------------------------------------------------------------------

  lemma Snoc(o: seq<Delivery>, x: Delivery)
    ensures (o + [x])[..|o + [x]| - 1] == o && (o + [x])[|o|] == x && o + [x] != []
  {}

  lemma {:induction false} ArrivalsDelivered(o: seq<Delivery>, a: Address, id: Id)
    ensures id in Arrivals(o, a) <==> Delivered(o, id) && id.addr == a
  {
    if o != [] {
      var before, x := o[..|o| - 1], o[|o| - 1];
      ArrivalsDelivered(before, a, id);
      DeliveredSnoc(before, x, id);
      assert o == before + [x];
    }
  }

  lemma DeliveredSnoc(o: seq<Delivery>, x: Delivery, id: Id)
    ensures Delivered(o + [x], id) <==> Delivered(o, id) || id == IdOf(x.e)
  {
    var p := o + [x];
    if Delivered(o, id) {
      var i :| 0 <= i < |o| && IdOf(o[i].e) == id;
      assert p[i] == o[i];
    }
    if id == IdOf(x.e) { assert p[|o|] == x; }
    if Delivered(p, id) {
      var i :| 0 <= i < |p| && IdOf(p[i].e) == id;
      if i < |o| { assert o[i] == p[i]; }
    }
  }

  lemma {:induction false} WitnessArrived(q: seq<Round>, o: seq<Delivery>, k: nat, a: Address)
    requires |q| > 0
    ensures Arrivals(o, a) == [] ==> LastWitness(q, o, k, a).None?
  {
    hide Resolve;
    if o != [] { WitnessArrived(q, o[..|o| - 1], k, a); }
  }

  lemma {:induction false} NewcomerDelivered(q: seq<Round>, o: seq<Delivery>, k: nat, i: nat)
    requires |q| > 0 && i < |Newcomers(q, o, k)|
    ensures exists j :: 0 <= j < |o| && o[j].e.selfHash == Newcomers(q, o, k)[i].targetHash
  {
    hide Resolve;
    var before := o[..|o| - 1];
    if i < |Newcomers(q, before, k)| {
      NewcomerDelivered(q, before, k, i);
      var j :| 0 <= j < |before| && before[j].e.selfHash == Newcomers(q, before, k)[i].targetHash;
      assert o[j] == before[j];
    }
  }

  lemma {:induction false} SelfChainKept(verts: map<Id, Vertex>, more: map<Id, Vertex>, p: Option<Id>, ids: seq<Id>)
    requires SelfChain(verts, p, ids) && forall id | id in verts :: id in more && more[id].selfPt == verts[id].selfPt
    ensures SelfChain(more, p, ids)
    decreases |ids|
  {
    if ids != [] { SelfChainKept(verts, more, verts[p.value].selfPt, ids[..|ids| - 1]); }
  }

  // ---------------------------------------------------------------------------
  // One more delivery
  // ---------------------------------------------------------------------------

  /** Only columns of the graph are delivered to. */
  lemma SomebodyThere(g: Graph, o: seq<Delivery>, a: Address)
    requires Wf(g) && Stored(g.verts, o) && Arrivals(o, a) != []
    ensures a in g.columns
  {
    hide Numbered, VertsOk, LostOnce, QueueOk, RoundsOk, Arrivals;
    var id := Arrivals(o, a)[0];
    ArrivalsDelivered(o, a, id);
    assert id in g.verts;
  }

  lemma SlotNumber(g: Graph, k: nat, n: nat)
    requires Wf(g) && k < |g.queue| && n < MAX_NODE_COUNT
    ensures |g.queue[k].witnesses| == MAX_NODE_COUNT && (g.queue[k].witnesses[n].Some? ==> n < |g.columns|)
  {
    hide LostOnce, Chains;
    assert RoundOk(g.queue[k], g.verts);
    if g.queue[k].witnesses[n].Some? {
      assert VertexOk(g.columns, g.verts, g.queue[k].witnesses[n].value);
    }
  }

  lemma ReadColumn(g0: Graph, g: Graph, o: seq<Delivery>, a: Address)
    requires |g0.queue| > 0 && Read(g0, g, o) && Wf(g) && Stored(g.verts, o)
    requires a in g.columns || |g.columns| < MAX_NODE_COUNT
    ensures Read(g0, AddNodeStep(g, a), o)
  {
    hide Wf, Resolve, Stored, RolesRead, Arrivals, LastWitness, Newcomers, SelfChain;
    if a !in g.columns {
      var r := AddNodeStep(g, a);
      if Arrivals(o, a) != [] { SomebodyThere(g, o, a); }
      NoChain(g.verts);
      assert forall h :: Id(a, h) !in Arrivals(o, a);
      RolesSame(g, r, o);
      forall k, b | 0 <= k < |g0.queue| && b in r.columns ensures SlotRead(g0.queue, r, o, k, b) {
        if b == a {
          SlotNumber(g, k, |g.columns|);
          WitnessArrived(g0.queue, o, k, a);
        } else {
          assert SlotRead(g0.queue, g, o, k, b);
        }
      }
    }
  }

  lemma NoChain(verts: map<Id, Vertex>)
    ensures SelfChain(verts, None, [])
  {}

  lemma RolesSame(g: Graph, r: Graph, o: seq<Delivery>)
    requires RolesRead(g, o) && r.verts == g.verts
    ensures RolesRead(r, o)
  {}

  lemma ReadWithColumns(g0: Graph, g: Graph, o: seq<Delivery>, x: Delivery)
    requires |g0.queue| > 0 && Read(g0, g, o) && Wf(g) && Stored(g.verts, o) && Fits(g, x.e)
    ensures Read(g0, WithColumns(g, x.e), o)
  {
    hide Wf, Read, Stored;
    var g1 := AddNodeStep(g, x.e.addr);
    RoomForColumns(g, x.e);
    ReadColumn(g0, g, o, x.e.addr);
    AddNodeWf(g, x.e.addr);
    if x.e.otherPartA != NO_ADDRESS { ReadColumn(g0, g1, o, x.e.otherPartA); }
  }

  lemma RoomForColumns(g: Graph, e: Event)
    requires Fits(g, e)
    ensures e.addr in g.columns || |g.columns| < MAX_NODE_COUNT
    ensures var g1 := AddNodeStep(g, e.addr);
      e.otherPartA != NO_ADDRESS ==> e.otherPartA in g1.columns || |g1.columns| < MAX_NODE_COUNT
  {
    hide AddNodeStep;
    var g1 := AddNodeStep(g, e.addr);
    WithColumnsGrow(g, e.addr);
    WithColumnsGrow(g1, e.otherPartA);
  }

  /** A delivery into a graph that has its columns. */
  ghost predicate Inserting(g0: Graph, g: Graph, o: seq<Delivery>, x: Delivery, first: bool, r: Graph)
  {
    && |g0.queue| > 0 && Next(g, o, x) && r == InsertStep(g, x.e, x.ty, first)
    && (first ==> Arrivals(o, x.e.addr) == [])
    && SameIndices(g0.queue, g.queue)
  }

  lemma WinsIff(g0: Graph, g: Graph, o: seq<Delivery>, x: Delivery, first: bool, r: Graph)
    requires Inserting(g0, g, o, x, first, r) && ColumnsRead(g, o)
    ensures x.e.addr in g.columns
    ensures MakesWitness(Chained(g.columns[x.e.addr], IdOf(x.e)), first, x.ty) == Wins(o + [x])
  {
    hide Wf, InsertStep, Inv, Arrivals, SelfChain, Distinct;
    Snoc(o, x);
    var old', a := g.columns[x.e.addr].chain, Arrivals(o, x.e.addr);
    assert x.e.selfHash !in old';
    assert |old' + {x.e.selfHash}| == |old'| + 1;
    if a == [] {
      assert old' == {};
    } else {
      var id := a[0];
      assert id in a;
      ArrivalsDelivered(o, x.e.addr, id);
      assert id == Id(x.e.addr, id.hash);
      assert id.hash in old';
    }
  }

  lemma FoundIff(g0: Graph, g: Graph, o: seq<Delivery>, x: Delivery, first: bool, r: Graph)
    requires Inserting(g0, g, o, x, first, r)
    ensures x.e.addr in g.columns
    ensures NewVertex(g, x.e, x.ty, first).anotherPt.Some? == Found(o + [x])
  {
    hide InsertStep, Arrivals, LinksOk, LostExact, Resolve, Distinct, Numbered, LostOnce, QueueOk, RoundsOk, Chains, ParentOf;
    Snoc(o, x);
    var p, id := o + [x], IdOf(x.e);
    InsertVerts(g, x.e, x.ty, first, r);
    InsertVertsOk(g, x.e, x.ty, first, r);
    StoredNext(g, o, x, first, r);
    forall j: nat | j <= |o| ensures r.verts[id].anotherPt == Some(IdOf(p[j].e)) <==> p[j].e.selfHash == x.e.otherPartH && Names(x.e, p[j].e) {
      ParentNext(g, o, x, first, r, j);
    }
    if r.verts[id].anotherPt.Some? {
      assert VertexOk(r.columns, r.verts, id);
      assert Delivered(p, r.verts[id].anotherPt.value);
      var j :| 0 <= j < |p| && IdOf(p[j].e) == r.verts[id].anotherPt.value;
    }
  }

  lemma ColumnsNext(g0: Graph, g: Graph, o: seq<Delivery>, x: Delivery, first: bool, r: Graph)
    requires Inserting(g0, g, o, x, first, r) && ColumnsRead(g, o)
    ensures ColumnsRead(r, o + [x])
  {
    hide Wf, InsertStep, Inv, Distinct, Resolve, ParentOf, SelfChain, Arrivals;
    var p := o + [x];
    InsertVerts(g, x.e, x.ty, first, r);
    InsertColumns(g, x.e, x.ty, first, r);
    forall a | a in r.columns
      ensures SelfChain(r.verts, r.columns[a].verTop, Arrivals(p, a))
      ensures forall h :: h in r.columns[a].chain <==> Id(a, h) in Arrivals(p, a)
    {
      ArrivalsNext(o, x, a);
      SelfChainKept(g.verts, r.verts, g.columns[a].verTop, Arrivals(o, a));
      if a == x.e.addr {
        ChainNext(r.verts, g.columns[a].verTop, Arrivals(o, a), IdOf(x.e));
      }
    }
  }

  lemma ArrivalsNext(o: seq<Delivery>, x: Delivery, a: Address)
    ensures Arrivals(o + [x], a) == if x.e.addr == a then Arrivals(o, a) + [IdOf(x.e)] else Arrivals(o, a)
  {
    Snoc(o, x);
  }

  lemma ChainNext(verts: map<Id, Vertex>, p: Option<Id>, ids: seq<Id>, id: Id)
    requires SelfChain(verts, p, ids) && id in verts && verts[id].selfPt == p
    ensures SelfChain(verts, Some(id), ids + [id])
  {
    assert (ids + [id])[..|ids|] == ids;
  }

  lemma RolesNext(g0: Graph, g: Graph, o: seq<Delivery>, x: Delivery, first: bool, r: Graph)
    requires Inserting(g0, g, o, x, first, r) && ColumnsRead(g, o) && RolesRead(g, o)
    ensures RolesRead(r, o + [x])
  {
    hide Wf, InsertStep, Inv, Distinct, Resolve, ParentOf, SelfChain, Arrivals, Wins, ColumnsRead;
    Snoc(o, x);
    var p := o + [x];
    InsertVerts(g, x.e, x.ty, first, r);
    WinsIff(g0, g, o, x, first, r);
    forall i | 0 <= i < |p| ensures IdOf(p[i].e) in r.verts && r.verts[IdOf(p[i].e)].role == RoleOf(p[..i + 1]) {
      if i < |o| {
        assert p[i] == o[i] && p[..i + 1] == o[..i + 1];
      } else {
        assert p[..i + 1] == p;
      }
    }
  }

  lemma NewcomersNext(q: seq<Round>, o: seq<Delivery>, x: Delivery, k: nat)
    requires |q| > 0 && Distinct(o + [x])
    ensures Newcomers(q, o + [x], k) ==
      if Resolve(q, x.e.roundId) == k then Comers(Newcomers(q, o, k), Request(x.e.selfHash, x.e.addr)) else Newcomers(q, o, k)
  {
    hide Resolve, Distinct;
    Snoc(o, x);
    var c := Newcomers(q, o, k);
    forall i | 0 <= i < |c| ensures c[i].targetHash != x.e.selfHash {
      NewcomerDelivered(q, o, k, i);
      var j :| 0 <= j < |o| && o[j].e.selfHash == c[i].targetHash;
      DistinctLast(o, x, j);
    }
  }

  lemma RoundsNext(g0: Graph, g: Graph, o: seq<Delivery>, x: Delivery, first: bool, r: Graph)
    requires Inserting(g0, g, o, x, first, r) && ColumnsRead(g, o) && RoundsRead(g0.queue, g, o)
    ensures RoundsRead(g0.queue, r, o + [x])
  {
    hide Wf, InsertStep, Inv, Distinct, Resolve, ParentOf, Newcomers, LastWitness, ColumnsRead, Comers, Wins;
    var q, p := g0.queue, o + [x];
    var k := FiledHere(g, x, first, r);
    ResolveSame(q, g.queue, x.e.roundId);
    WinsIff(g0, g, o, x, first, r);
    InsertColumns(g, x.e, x.ty, first, r);
    forall j | 0 <= j < |q| ensures r.queue[j].newComer == Newcomers(q, p, j) {
      NewcomersNext(q, o, x, j);
    }
    forall j, a | 0 <= j < |q| && a in r.columns ensures SlotRead(q, r, p, j, a) {
      assert SlotRead(q, g, o, j, a);
      LastWitnessNext(q, o, x, j, a);
      SlotsApart(g, a, x.e.addr);
    }
  }

  lemma LastWitnessNext(q: seq<Round>, o: seq<Delivery>, x: Delivery, k: nat, a: Address)
    requires |q| > 0
    ensures LastWitness(q, o + [x], k, a) ==
      if x.e.addr == a && Resolve(q, x.e.roundId) == k && Wins(o + [x]) then Some(IdOf(x.e)) else LastWitness(q, o, k, a)
  {
    hide Resolve, Wins;
    Snoc(o, x);
  }

  lemma SlotsApart(g: Graph, a: Address, b: Address)
    requires (exists o, x :: Next(g, o, x)) && a in g.columns && b in g.columns
    ensures g.columns[a].seqNum == g.columns[b].seqNum ==> a == b
  {
    hide LinksOk, LostExact, Stored, Distinct, LostOnce, RoundsOk, VertsOk, Chains;
  }

  lemma ReadNext(g0: Graph, g: Graph, o: seq<Delivery>, x: Delivery, first: bool, r: Graph)
    requires Inserting(g0, g, o, x, first, r) && Read(g0, g, o)
    ensures Read(g0, r, o + [x])
  {
    hide Wf, Inv, Distinct, Resolve, ColumnsRead, RolesRead, RoundsRead, Wins, Found, LinkAll, Filed;
    Snoc(o, x);
    ColumnsNext(g0, g, o, x, first, r);
    RolesNext(g0, g, o, x, first, r);
    RoundsNext(g0, g, o, x, first, r);
    WinsIff(g0, g, o, x, first, r);
    FoundIff(g0, g, o, x, first, r);
  }

  // ---------------------------------------------------------------------------
  // The whole history
  // ---------------------------------------------------------------------------

  /** No event has arrived and no newcomer is listed. */
  ghost predicate Untouched(g: Graph)
  {
    Fresh(g) && forall k | 0 <= k < |g.queue| :: g.queue[k].newComer == []
  }

  /** The graph the program starts with. */
  lemma NewGraphUntouched(coinbase: Address, broadness: nat)
    ensures Untouched(NewGraph(coinbase, broadness))
  {
    hide Wf;
    NewGraphWf(coinbase, broadness);
  }

  lemma NothingRead(g: Graph)
    requires Untouched(g)
    ensures |g.queue| > 0 && Read(g, g, [])
  {
    hide Resolve;
    forall k, a | 0 <= k < |g.queue| && a in g.columns ensures SlotRead(g.queue, g, [], k, a) {
      assert RoundOk(g.queue[k], g.verts);
    }
  }

  /**
    * After any history of distinct deliveries: self-parents lead from the top of each column through all its
    * events, latest first; exactly the parents that were missing on arrival have been asked for; a delivery is
    * a witness exactly if it was sent as one or opened its column; each slot holds the latest witness of its
    * column in that round; and newcomers and own events are listed in order.
    */
  lemma {:induction false} DeliverRead(g: Graph, o: seq<Delivery>)
    requires Untouched(g) && Room(g, o) && Distinct(o)
    ensures |g.queue| > 0 && Read(g, Deliver(g, o), o)
  {
    hide Wf, Room, Fresh, Distinct, Read, Inv, AddEventStep, After;
    RoundsExist(g);
    NothingRead(g);
    if |o| == 0 {
      assert o == [];
    } else {
      var before, x := o[..|o| - 1], o[|o| - 1];
      assert o == before + [x];
      RoomBefore(g, o);
      DistinctBefore(o);
      DeliverRead(g, before);
      DeliverInv(g, before);
      var h := Deliver(g, before);
      NextDelivery(g, o, h);
      AddRead(g, h, before, x);
    }
  }

  lemma AddRead(g: Graph, h: Graph, o: seq<Delivery>, x: Delivery)
    requires |g.queue| > 0 && Read(g, h, o) && Inv(h, o) && Wf(h) && Fits(h, x.e) && Distinct(o + [x])
    ensures Read(g, AddEventStep(h, x.e, x.ty, x.e.selfHash), o + [x])
  {
    hide Wf, Fits, Distinct, InsertStep, WithColumns, Next, Read, Inv, Arrivals, AddEventStep;
    NextReady(h, o, x);
    NextNew(h, o, x);
    InvStored(h, o);
    ReadWithColumns(g, h, o, x);
    var first := x.e.addr !in h.columns;
    if first && Arrivals(o, x.e.addr) != [] { SomebodyThere(h, o, x.e.addr); }
    WithColumnsWf(h, x.e);
    ReadIndices(g, h, o);
    ReadNext(g, WithColumns(h, x.e), o, x, first, AddEventStep(h, x.e, x.ty, x.e.selfHash));
  }

  lemma ReadIndices(g: Graph, h: Graph, o: seq<Delivery>)
    requires |g.queue| > 0 && Read(g, h, o)
    ensures SameIndices(g.queue, h.queue)
  {}

  lemma InvStored(g: Graph, o: seq<Delivery>)
    requires Inv(g, o)
    ensures Wf(g) && Stored(g.verts, o)
  {}
}
