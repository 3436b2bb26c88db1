/**
  * Delivery order: what the other-parent links and the lists of waiting
  * vertices are after any order of deliveries, and when they do not depend on
  * the order.
  */
module JigsawOrder {
  import opened Basics
  import opened Jigsaw

  datatype Delivery = Delivery(e: Event, ty: int)

  ghost predicate Distinct(o: seq<Delivery>)
  {
    forall i, j | 0 <= i < j < |o| :: o[i].e.selfHash != o[j].e.selfHash
  }

  /** The columns the deliveries name. */
  ghost function Addresses(o: seq<Delivery>): (s: set<Address>)
  {
    (set i | 0 <= i < |o| :: o[i].e.addr) +
    (set i | 0 <= i < |o| && o[i].e.otherPartA != NO_ADDRESS :: o[i].e.otherPartA)
  }

  ghost predicate Room(g: Graph, o: seq<Delivery>)
  {
    |g.columns.Keys + Addresses(o)| <= MAX_NODE_COUNT
  }

  ghost predicate SameIndices(q: seq<Round>, r: seq<Round>)
  {
    |q| == |r| && forall k | 0 <= k < |q| :: q[k].index == r[k].index
  }

  /** What holds of the graph after some deliveries to g. */
  ghost predicate After(g: Graph, o: seq<Delivery>, r: Graph)
  {
    Wf(r) && r.columns.Keys == g.columns.Keys + Addresses(o) && SameIndices(g.queue, r.queue)
  }

  /** All deliveries in turn, each with the hash of its content. */
  ghost function Deliver(g: Graph, o: seq<Delivery>): (r: Graph)
    requires Wf(g) && Room(g, o)
    ensures After(g, o, r)
  {
    if |o| == 0 then AfterNone(g); assert o == []; g
    else
      RoomBefore(g, o);
      var h := Deliver(g, o[..|o| - 1]);
      NextDelivery(g, o, h);
      AddEventStep(h, o[|o| - 1].e, o[|o| - 1].ty, o[|o| - 1].e.selfHash)
  }

  lemma NextDelivery(g: Graph, o: seq<Delivery>, h: Graph)
    requires |o| > 0 && Room(g, o) && After(g, o[..|o| - 1], h)
    ensures Wf(h) && Fits(h, o[|o| - 1].e)
    ensures After(g, o, AddEventStep(h, o[|o| - 1].e, o[|o| - 1].ty, o[|o| - 1].e.selfHash))
  {
    hide Wf, Fits, AddEventStep, Addresses, Room;
    var last := o[|o| - 1];
    FitsLast(g, o, h);
    AddEventWf(h, last.e, last.ty, last.e.selfHash);
    DeliverOne(h, last);
    AddressesLast(o);
  }

  lemma AfterNone(g: Graph)
    requires Wf(g)
    ensures After(g, [], g)
  {}

  lemma AddressesLast(o: seq<Delivery>)
    requires |o| > 0
    ensures Addresses(o) == Addresses(o[..|o| - 1]) + Addresses([o[|o| - 1]])
  {
    var before, last := o[..|o| - 1], o[|o| - 1];
    forall a | a in Addresses(o) ensures a in Addresses(before) + Addresses([last]) {
      var i :| 0 <= i < |o| && (a == o[i].e.addr || (o[i].e.otherPartA != NO_ADDRESS && a == o[i].e.otherPartA));
      if i < |o| - 1 { assert before[i] == o[i]; } else { assert [last][0] == o[i]; }
    }
    forall a | a in Addresses(before) + Addresses([last]) ensures a in Addresses(o) {
      if a in Addresses(before) {
        var i :| 0 <= i < |before| && (a == before[i].e.addr || (before[i].e.otherPartA != NO_ADDRESS && a == before[i].e.otherPartA));
        assert o[i] == before[i];
      } else {
        assert o[|o| - 1] == last;
      }
    }
  }

  lemma RoomBefore(g: Graph, o: seq<Delivery>)
    requires Room(g, o) && |o| > 0
    ensures Room(g, o[..|o| - 1])
  {
    AddressesLast(o);
    SubsetSize(g.columns.Keys + Addresses(o[..|o| - 1]), g.columns.Keys + Addresses(o));
  }

  lemma NamedColumns(g: Graph, d: Delivery)
    ensures WithColumns(g, d.e).columns.Keys == g.columns.Keys + Addresses([d])
  {
    hide Addresses, AddNodeStep;
    AddressesOne(d);
    AddNodeKeys(g, d.e.addr);
    AddNodeKeys(AddNodeStep(g, d.e.addr), d.e.otherPartA);
  }

  lemma AddNodeKeys(g: Graph, a: Address)
    ensures AddNodeStep(g, a).columns.Keys == g.columns.Keys + {a}
  {}

  lemma AddressesOne(d: Delivery)
    ensures Addresses([d]) == {d.e.addr} + (if d.e.otherPartA != NO_ADDRESS then {d.e.otherPartA} else {})
  {
    assert [d][0] == d;
  }

  lemma FitsLast(g: Graph, o: seq<Delivery>, h: Graph)
    requires Room(g, o) && |o| > 0
    requires h.columns.Keys == g.columns.Keys + Addresses(o[..|o| - 1])
    ensures Fits(h, o[|o| - 1].e)
  {
    hide Addresses, WithColumns;
    var before, last := o[..|o| - 1], o[|o| - 1];
    AddressesLast(o);
    NamedColumns(h, last);
    var c := WithColumns(h, last.e).columns;
    SetAssoc(g.columns.Keys, Addresses(before), Addresses([last]));
    KeyCount(c);
  }

  lemma SetAssoc(a: set<Address>, b: set<Address>, c: set<Address>)
    ensures a + b + c == a + (b + c)
  {}

  lemma DeliverOne(g: Graph, d: Delivery)
    requires Wf(g) && Fits(g, d.e)
    ensures AddEventStep(g, d.e, d.ty, d.e.selfHash).columns.Keys == g.columns.Keys + Addresses([d])
    ensures SameIndices(g.queue, AddEventStep(g, d.e, d.ty, d.e.selfHash).queue)
  {
    hide Wf, WithColumns, InsertStep, Addresses, Filed, Resolve, ParentOf, MakesWitness;
    NamedColumns(g, d);
    WithColumnsWf(g, d.e);
    var g2, first := WithColumns(g, d.e), d.e.addr !in g.columns;
    if !Known(g2, d.e) {
      var r := InsertStep(g2, d.e, d.ty, first);
      InsertColumns(g2, d.e, d.ty, first, r);
      InsertQueue(g2, d.e, d.ty, first, r);
      FiledSlots(g2.queue[Resolve(g2.queue, d.e.roundId)], NewVertex(g2, d.e, d.ty, first), MakesWitness(Chained(g2.columns[d.e.addr], IdOf(d.e)), first, d.ty));
    }
  }

  // ---------------------------------------------------------------------------
  // Which parent a delivery gets
  // ---------------------------------------------------------------------------

  /** The event names the column of p as its other parent's. */
  predicate Names(e: Event, p: Event)
  {
    e.otherPartA == p.addr && e.otherPartA != NO_ADDRESS
  }

  /** Both are filed under the same round of the queue. */
  predicate SameRound(q: seq<Round>, e: Event, p: Event)
    requires |q| > 0
  {
    Resolve(q, e.roundId) == Resolve(q, p.roundId)
  }

  /**
    * Delivery j becomes the other parent of delivery i: it has the right hash, and if it came first it is
    * found in the column i names, and if it came later it finds i waiting in its own round.
    */
  predicate LinksAt(q: seq<Round>, o: seq<Delivery>, i: nat, j: nat)
    requires |q| > 0 && i < |o| && j < |o|
  {
    && o[j].e.selfHash == o[i].e.otherPartH
    && if j <= i then Names(o[i].e, o[j].e) else SameRound(q, o[i].e, o[j].e)
  }

  ghost predicate Delivered(o: seq<Delivery>, id: Id)
  {
    exists i :: 0 <= i < |o| && IdOf(o[i].e) == id
  }

  /** The vertices are the deliveries. */
  ghost predicate Stored(verts: map<Id, Vertex>, o: seq<Delivery>)
  {
    && (forall i | 0 <= i < |o| :: IdOf(o[i].e) in verts && verts[IdOf(o[i].e)].event == o[i].e)
    && (forall id | id in verts :: Delivered(o, id))
  }

  ghost predicate LinksOk(q: seq<Round>, verts: map<Id, Vertex>, o: seq<Delivery>)
    requires |q| > 0 && Stored(verts, o)
  {
    forall i: nat, j: nat | i < |o| && j < |o| ::
      LinksAt(q, o, i, j) <==> verts[IdOf(o[i].e)].anotherPt == Some(IdOf(o[j].e))
  }

  ghost predicate NoRepeats(s: seq<Id>)
  {
    forall i, j | 0 <= i < j < |s| :: s[i] != s[j]
  }

  /** A vertex waits, once, exactly where it was filed and exactly as long as it has no other parent. */
  ghost predicate LostExact(q: seq<Round>, verts: map<Id, Vertex>)
    requires |q| > 0
  {
    && (forall id | id in verts && verts[id].anotherPt.None? ::
          id in Waiting(q[Resolve(q, verts[id].event.roundId)], verts[id].event.otherPartH))
    && (forall k | 0 <= k < |q| :: RoundExact(q, verts, k))
  }

  ghost predicate RoundExact(q: seq<Round>, verts: map<Id, Vertex>, k: nat)
    requires k < |q|
  {
    forall h | h in q[k].lostDict ::
      && q[k].lostDict[h] != [] && NoRepeats(q[k].lostDict[h])
      && forall id | id in q[k].lostDict[h] :: id in verts && Resolve(q, verts[id].event.roundId) == k
  }

  /** No event has arrived yet. */
  ghost predicate Fresh(g: Graph)
  {
    Wf(g) && g.verts == map[] && forall k | 0 <= k < |g.queue| :: g.queue[k].lostDict == map[]
  }

  lemma {:induction false} ResolveSame(q: seq<Round>, r: seq<Round>, roundId: int)
    requires |q| > 0 && SameIndices(q, r)
    ensures Resolve(q, roundId) == Resolve(r, roundId)
  {
    if |q| > 1 { ResolveSame(q[1..], r[1..], roundId); }
  }

  // ---------------------------------------------------------------------------
  // One more delivery
  // ---------------------------------------------------------------------------

  /** The state of the links after the deliveries o. */
  ghost predicate Inv(g: Graph, o: seq<Delivery>)
  {
    Wf(g) && |g.queue| > 0 && Stored(g.verts, o) && LinksOk(g.queue, g.verts, o) && LostExact(g.queue, g.verts)
  }

  ghost predicate Next(g: Graph, o: seq<Delivery>, x: Delivery)
  {
    Inv(g, o) && Insertable(g, x.e) && Distinct(o + [x])
  }

  lemma DistinctLast(o: seq<Delivery>, x: Delivery, i: nat)
    requires Distinct(o + [x]) && i < |o|
    ensures o[i].e.selfHash != x.e.selfHash
  {
    assert (o + [x])[i] == o[i] && (o + [x])[|o|] == x;
  }

  lemma StoredNext(g: Graph, o: seq<Delivery>, x: Delivery, first: bool, r: Graph)
    requires Next(g, o, x) && r == InsertStep(g, x.e, x.ty, first)
    ensures Stored(r.verts, o + [x])
  {
    hide Wf, InsertStep, LinksOk, LostExact, Distinct, Resolve;
    InsertVerts(g, x.e, x.ty, first, r);
    var p := o + [x];
    forall i | 0 <= i < |p| ensures IdOf(p[i].e) in r.verts && r.verts[IdOf(p[i].e)].event == p[i].e {
      if i < |o| { assert p[i] == o[i]; DistinctLast(o, x, i); }
    }
    forall id | id in r.verts ensures Delivered(p, id) {
      if id == IdOf(x.e) { assert IdOf(p[|o|].e) == id; } else {
        assert Delivered(o, id);
        var i :| 0 <= i < |o| && IdOf(o[i].e) == id;
        assert IdOf(p[i].e) == id;
      }
    }
  }

  /** The newcomer finds its parent exactly if it names the parent's column. */
  lemma ParentNext(g: Graph, o: seq<Delivery>, x: Delivery, first: bool, r: Graph, j: nat)
    requires Next(g, o, x) && r == InsertStep(g, x.e, x.ty, first) && j <= |o|
    ensures IdOf(x.e) in r.verts
    ensures r.verts[IdOf(x.e)].anotherPt == Some(IdOf((o + [x])[j].e))
       <==> (o + [x])[j].e.selfHash == x.e.otherPartH && x.e.otherPartA == (o + [x])[j].e.addr && x.e.otherPartA != 0
  {
    hide InsertStep, LinksOk, LostExact, Resolve, Numbered, VertsOk, RoundsOk, LostOnce, QueueOk;
    InsertVerts(g, x.e, x.ty, first, r);
    InsertChains(g, x.e, x.ty, first, r);
    InsertColumns(g, x.e, x.ty, first, r);
    StoredNext(g, o, x, first, r);
    assert IdOf((o + [x])[j].e) in r.verts;
  }

  /** An earlier delivery is linked to the newcomer exactly if it waited for it in the newcomer's round. */
  lemma EarlierNext(g: Graph, o: seq<Delivery>, x: Delivery, first: bool, r: Graph, i: nat)
    requires Next(g, o, x) && r == InsertStep(g, x.e, x.ty, first) && i < |o|
    ensures IdOf(o[i].e) in r.verts
    ensures r.verts[IdOf(o[i].e)].anotherPt ==
      if x.e.selfHash == o[i].e.otherPartH && SameRound(g.queue, o[i].e, x.e) then Some(IdOf(x.e))
      else g.verts[IdOf(o[i].e)].anotherPt
  {
    hide InsertStep, LinksOk, Resolve, Numbered, LostOnce, QueueOk, Chains, NoRepeats;
    InsertVerts(g, x.e, x.ty, first, r);
    var id, k := IdOf(o[i].e), Resolve(g.queue, x.e.roundId);
    assert RoundOk(g.queue[k], g.verts) && RoundExact(g.queue, g.verts, k);
    assert VertexOk(g.columns, g.verts, id);
    if x.e.selfHash == o[i].e.otherPartH { NoParentYet(g, o, x, id); }
  }

  lemma NoParentYet(g: Graph, o: seq<Delivery>, x: Delivery, id: Id)
    requires Next(g, o, x) && id in g.verts && g.verts[id].event.otherPartH == x.e.selfHash
    ensures g.verts[id].anotherPt.None?
  {
    hide LinksOk, LostExact, Numbered, LostOnce, QueueOk, Chains, RoundsOk, Distinct;
    assert VertexOk(g.columns, g.verts, id);
    if g.verts[id].anotherPt.Some? {
      var p := g.verts[id].anotherPt.value;
      assert Delivered(o, p);
      var i :| 0 <= i < |o| && IdOf(o[i].e) == p;
      DistinctLast(o, x, i);
      assert false;
    }
  }

  lemma LinksNext(g: Graph, o: seq<Delivery>, x: Delivery, first: bool, r: Graph)
    requires Next(g, o, x) && r == InsertStep(g, x.e, x.ty, first)
    ensures Stored(r.verts, o + [x])
    ensures LinksOk(g.queue, r.verts, o + [x])
  {
    hide InsertStep, Wf, Resolve, LostExact, Distinct;
    StoredNext(g, o, x, first, r);
    var p := o + [x];
    forall i: nat, j: nat | i < |p| && j < |p|
      ensures LinksAt(g.queue, p, i, j) <==> r.verts[IdOf(p[i].e)].anotherPt == Some(IdOf(p[j].e))
    {
      if i == |o| {
        ParentNext(g, o, x, first, r, j);
      } else {
        EarlierNext(g, o, x, first, r, i);
        DistinctLast(o, x, i);
        EarlierPair(g, o, x, i, j);
      }
    }
  }

  lemma EarlierPair(g: Graph, o: seq<Delivery>, x: Delivery, i: nat, j: nat)
    requires Next(g, o, x) && i < |o| && j <= |o|
    ensures j < |o| ==> LinksAt(g.queue, o + [x], i, j) == (g.verts[IdOf(o[i].e)].anotherPt == Some(IdOf(o[j].e)))
    ensures j < |o| && x.e.selfHash == o[i].e.otherPartH ==> !LinksAt(g.queue, o + [x], i, j)
    ensures g.verts[IdOf(o[i].e)].anotherPt != Some(IdOf(x.e))
    ensures j < |o| ==> IdOf(o[j].e) != IdOf(x.e)
  {
    hide Wf, Resolve, LostExact, Distinct;
    assert (o + [x])[i] == o[i];
    if j < |o| {
      DistinctLast(o, x, j);
      assert (o + [x])[j] == o[j];
      assert LinksAt(g.queue, o, i, j) == (g.verts[IdOf(o[i].e)].anotherPt == Some(IdOf(o[j].e)));
    }
    NotYetParent(g, o, x, IdOf(o[i].e));
  }

  lemma NotYetParent(g: Graph, o: seq<Delivery>, x: Delivery, id: Id)
    requires Next(g, o, x) && id in g.verts
    ensures g.verts[id].anotherPt != Some(IdOf(x.e))
  {
    hide LinksOk, LostExact, Numbered, LostOnce, QueueOk, RoundsOk, Distinct;
    InsertableReady(g, x.e);
    assert VertexOk(g.columns, g.verts, id);
  }

  /** The queue the newcomer leaves: its round has filed it, the others are as before. */
  ghost predicate FiledAt(g: Graph, x: Delivery, first: bool, r: Graph, k: nat)
    requires x.e.addr in g.columns
  {
    && |r.queue| == |g.queue| && k < |g.queue| && k == Resolve(g.queue, x.e.roundId)
    && g.columns[x.e.addr].seqNum < |g.queue[k].witnesses|
    && r.queue == g.queue[k := Filed(g.queue[k], NewVertex(g, x.e, x.ty, first), MakesWitness(Chained(g.columns[x.e.addr], IdOf(x.e)), first, x.ty))]
    && SameIndices(g.queue, r.queue)
  }

  lemma FiledHere(g: Graph, x: Delivery, first: bool, r: Graph) returns (k: nat)
    requires Insertable(g, x.e) && r == InsertStep(g, x.e, x.ty, first)
    ensures FiledAt(g, x, first, r, k)
  {
    hide Wf, InsertStep;
    InsertQueue(g, x.e, x.ty, first, r);
    k := Resolve(g.queue, x.e.roundId);
    FiledSlots(g.queue[k], NewVertex(g, x.e, x.ty, first), MakesWitness(Chained(g.columns[x.e.addr], IdOf(x.e)), first, x.ty));
  }

  lemma FiledWaiting(r: Round, v: Vertex, wins: bool, h: Hash)
    requires v.seqNum < |r.witnesses|
    ensures Waiting(Filed(r, v, wins), h) ==
      (if h == v.event.selfHash then [] else Waiting(r, h)) +
      (if v.anotherPt.None? && h == v.event.otherPartH then [IdOf(v.event)] else [])
    ensures h in Filed(r, v, wins).lostDict <==>
      (h in r.lostDict && h != v.event.selfHash) || (v.anotherPt.None? && h == v.event.otherPartH)
  {}

  lemma WaitersKept(g: Graph, o: seq<Delivery>, x: Delivery, first: bool, r: Graph, id: Id)
    requires Next(g, o, x) && r == InsertStep(g, x.e, x.ty, first)
    requires id in r.verts && r.verts[id].anotherPt.None? && |r.queue| > 0
    ensures id in Waiting(r.queue[Resolve(r.queue, r.verts[id].event.roundId)], r.verts[id].event.otherPartH)
  {
    hide Wf, InsertStep, LinksOk, Resolve, Distinct, Filed, Stored;
    var k := FiledHere(g, x, first, r);
    InsertVerts(g, x.e, x.ty, first, r);
    var v := r.verts[id];
    ResolveSame(g.queue, r.queue, v.event.roundId);
    FiledWaiting(g.queue[k], NewVertex(g, x.e, x.ty, first), MakesWitness(Chained(g.columns[x.e.addr], IdOf(x.e)), first, x.ty), v.event.otherPartH);
  }

  lemma ListNext(g: Graph, o: seq<Delivery>, x: Delivery, first: bool, r: Graph, n: nat, h: Hash)
    requires Next(g, o, x) && r == InsertStep(g, x.e, x.ty, first)
    requires |g.queue| == |r.queue| && n < |r.queue| && h in r.queue[n].lostDict
    ensures r.queue[n].lostDict[h] != [] && NoRepeats(r.queue[n].lostDict[h])
    ensures forall id | id in r.queue[n].lostDict[h] :: id in r.verts && Resolve(r.queue, r.verts[id].event.roundId) == n
  {
    hide Wf, InsertStep, LinksOk, Resolve, Distinct, Filed, Stored;
    var k := FiledHere(g, x, first, r);
    InsertVerts(g, x.e, x.ty, first, r);
    InsertableReady(g, x.e);
    assert RoundExact(g.queue, g.verts, n);
    FiledWaiting(g.queue[k], NewVertex(g, x.e, x.ty, first), MakesWitness(Chained(g.columns[x.e.addr], IdOf(x.e)), first, x.ty), h);
    forall id | id in r.queue[n].lostDict[h] ensures id in r.verts && Resolve(r.queue, r.verts[id].event.roundId) == n {
      assert id == IdOf(x.e) || id in Waiting(g.queue[n], h);
      ResolveSame(g.queue, r.queue, r.verts[id].event.roundId);
    }
  }

  lemma LostNext(g: Graph, o: seq<Delivery>, x: Delivery, first: bool, r: Graph)
    requires Next(g, o, x) && r == InsertStep(g, x.e, x.ty, first) && |r.queue| == |g.queue|
    ensures LostExact(r.queue, r.verts)
  {
    hide Wf, InsertStep, LinksOk, Resolve, Distinct, Stored;
    forall id | id in r.verts && r.verts[id].anotherPt.None?
      ensures id in Waiting(r.queue[Resolve(r.queue, r.verts[id].event.roundId)], r.verts[id].event.otherPartH)
    {
      WaitersKept(g, o, x, first, r, id);
    }
    forall k | 0 <= k < |r.queue| ensures RoundExact(r.queue, r.verts, k) {
      forall h | h in r.queue[k].lostDict
        ensures r.queue[k].lostDict[h] != [] && NoRepeats(r.queue[k].lostDict[h])
        ensures forall id | id in r.queue[k].lostDict[h] :: id in r.verts && Resolve(r.queue, r.verts[id].event.roundId) == k
      {
        ListNext(g, o, x, first, r, k, h);
      }
    }
  }

  lemma LinksSameIndices(q: seq<Round>, r: seq<Round>, verts: map<Id, Vertex>, o: seq<Delivery>)
    requires |q| > 0 && SameIndices(q, r) && Stored(verts, o) && LinksOk(q, verts, o)
    ensures LinksOk(r, verts, o)
  {
    hide Resolve;
    forall i: nat, j: nat | i < |o| && j < |o|
      ensures LinksAt(r, o, i, j) <==> verts[IdOf(o[i].e)].anotherPt == Some(IdOf(o[j].e))
    {
      ResolveSame(q, r, o[i].e.roundId);
      ResolveSame(q, r, o[j].e.roundId);
      assert LinksAt(q, o, i, j) == LinksAt(r, o, i, j);
    }
  }

  lemma InsertInv(g: Graph, o: seq<Delivery>, x: Delivery, first: bool, r: Graph)
    requires Next(g, o, x) && r == InsertStep(g, x.e, x.ty, first)
    ensures Inv(r, o + [x])
  {
    hide Wf, InsertStep, Resolve, Distinct, Stored, LinksOk, LostExact;
    var k := FiledHere(g, x, first, r);
    InsertWf(g, x.e, x.ty, first, r);
    LinksNext(g, o, x, first, r);
    LostNext(g, o, x, first, r);
    LinksSameIndices(g.queue, r.queue, r.verts, o + [x]);
  }

  lemma NextReady(g: Graph, o: seq<Delivery>, x: Delivery)
    requires Inv(g, o) && Fits(g, x.e) && Distinct(o + [x])
    ensures Next(WithColumns(g, x.e), o, x)
  {
    hide Resolve, LinksOk, LostExact, Numbered, VertsOk, RoundsOk, LostOnce, QueueOk, WithColumns, Distinct;
    WithColumnsWf(g, x.e);
    if Known(g, x.e) {
      assert Delivered(o, IdOf(x.e));
      var i :| 0 <= i < |o| && IdOf(o[i].e) == IdOf(x.e);
      DistinctLast(o, x, i);
      assert false;
    }
  }

  /** After any order of distinct deliveries the links and the waiting lists are as described. */
  lemma {:induction false} DeliverInv(g: Graph, o: seq<Delivery>)
    requires Fresh(g) && Room(g, o) && Distinct(o)
    ensures Inv(Deliver(g, o), o)
  {
    hide Wf, Room, Stored, LinksOk, LostExact, Distinct, InsertStep, WithColumns, Next;
    if |o| == 0 {
      NoneDelivered(g);
      assert o == [];
    } else {
      var before, x := o[..|o| - 1], o[|o| - 1];
      assert o == before + [x];
      RoomBefore(g, o);
      DistinctBefore(o);
      DeliverInv(g, before);
      var h := Deliver(g, before);
      NextDelivery(g, o, h);
      NextReady(h, before, x);
      NextNew(h, before, x);
      InsertInv(WithColumns(h, x.e), before, x, x.e.addr !in h.columns, Deliver(g, o));
    }
  }

  lemma NextNew(h: Graph, o: seq<Delivery>, x: Delivery)
    requires Wf(h) && Fits(h, x.e) && Next(WithColumns(h, x.e), o, x)
    ensures AddEventStep(h, x.e, x.ty, x.e.selfHash) == InsertStep(WithColumns(h, x.e), x.e, x.ty, x.e.addr !in h.columns)
  {
    hide Wf, Inv, Distinct, InsertStep, WithColumns;
  }

  lemma DistinctBefore(o: seq<Delivery>)
    requires Distinct(o) && |o| > 0
    ensures Distinct(o[..|o| - 1])
  {}

  lemma NoneDelivered(g: Graph)
    requires Fresh(g)
    ensures Inv(g, [])
  {
    hide Resolve, Numbered, VertsOk, RoundsOk, LostOnce, Chains;
  }

  // ---------------------------------------------------------------------------
  // Independence of the order
  // ---------------------------------------------------------------------------

  /** The same vertices with the same other parents, and the same vertices waiting, up to their order in a list. */
  ghost predicate SameOutcome(g: Graph, h: Graph)
  {
    && g.verts.Keys == h.verts.Keys
    && (forall id | id in g.verts :: g.verts[id].anotherPt == h.verts[id].anotherPt)
    && |g.queue| == |h.queue|
    && (forall k | 0 <= k < |g.queue| :: SameWaiting(g.queue[k], h.queue[k]))
  }

  ghost predicate SameWaiting(q: Round, r: Round)
  {
    && q.lostDict.Keys == r.lostDict.Keys
    && forall h | h in q.lostDict :: multiset(q.lostDict[h]) == multiset(r.lostDict[h])
  }

  /** Every order of the same deliveries has the same outcome. */
  ghost predicate OrderFree(g: Graph, o: seq<Delivery>)
    requires Wf(g) && Room(g, o)
  {
    forall p | Room(g, p) && multiset(p) == multiset(o) :: SameOutcome(Deliver(g, o), Deliver(g, p))
  }

  /** A delivery names the column of its parent exactly if the two are filed under the same round. */
  ghost predicate Consistent(q: seq<Round>, o: seq<Delivery>)
    requires |q| > 0
  {
    forall i, j | 0 <= i < |o| && 0 <= j < |o| && i != j && o[j].e.selfHash == o[i].e.otherPartH ::
      Names(o[i].e, o[j].e) == SameRound(q, o[i].e, o[j].e)
  }

  /** A position of p that holds the delivery at position i of o. */
  lemma Elsewhere(o: seq<Delivery>, p: seq<Delivery>, i: nat) returns (k: nat)
    requires multiset(p) == multiset(o) && i < |o|
    ensures k < |p| && p[k] == o[i]
  {
    assert o[i] in multiset(o);
    assert o[i] in p;
    k :| 0 <= k < |p| && p[k] == o[i];
  }

  lemma Multiplicity(o: seq<Delivery>, i: nat, j: nat)
    requires i < j < |o| && o[i] == o[j]
    ensures multiset(o)[o[i]] >= 2
  {
    assert o == o[..j] + o[j..];
    assert o[..j][i] == o[i] && o[j..][0] == o[i];
    assert o[i] in multiset(o[..j]) && o[i] in multiset(o[j..]);
  }

  lemma {:induction false} Once(o: seq<Delivery>, d: Delivery)
    requires Distinct(o)
    ensures multiset(o)[d] <= 1
  {
    if |o| > 0 {
      var before := o[..|o| - 1];
      assert o == before + [o[|o| - 1]];
      DistinctBefore(o);
      Once(before, d);
      LastNew(o);
    }
  }

  lemma LastNew(o: seq<Delivery>)
    requires Distinct(o) && |o| > 0
    ensures o[|o| - 1] !in o[..|o| - 1]
  {
    var before := o[..|o| - 1];
    forall i | 0 <= i < |before| ensures before[i] != o[|o| - 1] {
      assert o[i].e.selfHash != o[|o| - 1].e.selfHash;
    }
  }

  lemma DistinctPerm(o: seq<Delivery>, p: seq<Delivery>)
    requires Distinct(o) && multiset(p) == multiset(o)
    ensures Distinct(p)
  {
    forall i, j | 0 <= i < j < |p| ensures p[i].e.selfHash != p[j].e.selfHash {
      if p[i].e.selfHash == p[j].e.selfHash {
        var a := Elsewhere(p, o, i);
        var b := Elsewhere(p, o, j);
        assert a == b;
        Multiplicity(p, i, j);
        Once(o, p[i]);
        assert false;
      }
    }
  }

  lemma RoomPerm(g: Graph, o: seq<Delivery>, p: seq<Delivery>)
    requires Room(g, o) && multiset(p) == multiset(o)
    ensures Room(g, p)
  {
    assert Addresses(p) <= Addresses(o) by {
      forall a | a in Addresses(p) ensures a in Addresses(o) {
        var i :| 0 <= i < |p| && (a == p[i].e.addr || (p[i].e.otherPartA != NO_ADDRESS && a == p[i].e.otherPartA));
        var k := Elsewhere(p, o, i);
      }
    }
    SubsetSize(g.columns.Keys + Addresses(p), g.columns.Keys + Addresses(o));
  }

  lemma ConsistentPerm(q: seq<Round>, o: seq<Delivery>, p: seq<Delivery>)
    requires |q| > 0 && Consistent(q, o) && multiset(p) == multiset(o)
    requires Distinct(p)
    ensures Consistent(q, p)
  {
    hide Names, SameRound;
    forall i, j | 0 <= i < |p| && 0 <= j < |p| && i != j && p[j].e.selfHash == p[i].e.otherPartH
      ensures Names(p[i].e, p[j].e) == SameRound(q, p[i].e, p[j].e)
    {
      var a := Elsewhere(p, o, i);
      var b := Elsewhere(p, o, j);
      assert a != b;
    }
  }

  /** Whether i is linked to j does not depend on their positions. */
  lemma LinksAnywhere(q: seq<Round>, o: seq<Delivery>, p: seq<Delivery>, i: nat, j: nat, i': nat, j': nat)
    requires |q| > 0 && Consistent(q, o) && Distinct(o) && Distinct(p)
    requires i < |o| && j < |o| && i' < |p| && j' < |p| && p[i'] == o[i] && p[j'] == o[j]
    ensures LinksAt(q, o, i, j) == LinksAt(q, p, i', j')
  {
    hide Resolve;
    if i == j { assert i' == j'; } else { assert i' != j'; }
  }

  ghost predicate Outcome(g: Graph, o: seq<Delivery>, r: Graph)
  {
    Fresh(g) && Distinct(o) && SameIndices(g.queue, r.queue) && Inv(r, o)
  }

  lemma ConsistentIs(q: seq<Round>, o: seq<Delivery>)
    requires |q| > 0
    ensures Consistent(q, o) <==>
      forall i, j | 0 <= i < |o| && 0 <= j < |o| && i != j && o[j].e.selfHash == o[i].e.otherPartH ::
        (o[i].e.otherPartA == o[j].e.addr && o[i].e.otherPartA != 0) <==> Resolve(q, o[i].e.roundId) == Resolve(q, o[j].e.roundId)
  {
    hide Resolve;
  }

  /** After any order of distinct deliveries: j is i's other parent exactly if it came first, in the column named, or later, in the same round. */
  lemma DeliverLinks(g: Graph, o: seq<Delivery>, i: nat, j: nat)
    requires Fresh(g) && Room(g, o) && Distinct(o) && i < |o| && j < |o| && |g.queue| > 0
    ensures var r, x, y := Deliver(g, o), o[i].e, o[j].e;
      && IdOf(x) in r.verts && r.verts[IdOf(x)].event == x
      && (r.verts[IdOf(x)].anotherPt == Some(IdOf(y)) <==>
            && y.selfHash == x.otherPartH
            && if j <= i then x.otherPartA == y.addr && x.otherPartA != 0 else Resolve(g.queue, x.roundId) == Resolve(g.queue, y.roundId))
  {
    hide Wf, Room, LostExact, Distinct, Resolve, Addresses;
    DeliverInv(g, o);
    var r := Deliver(g, o);
    ResolveSame(g.queue, r.queue, o[i].e.roundId);
    ResolveSame(g.queue, r.queue, o[j].e.roundId);
    assert LinksAt(r.queue, o, i, j) <==> r.verts[IdOf(o[i].e)].anotherPt == Some(IdOf(o[j].e));
  }

  lemma DeliverOutcome(g: Graph, o: seq<Delivery>)
    requires Fresh(g) && Room(g, o) && Distinct(o)
    ensures Outcome(g, o, Deliver(g, o))
  {
    hide Wf, Room, Inv, Addresses, Distinct;
    DeliverInv(g, o);
  }

  lemma SameParent(g: Graph, o: seq<Delivery>, p: seq<Delivery>, r: Graph, t: Graph, id: Id)
    requires Outcome(g, o, r) && Outcome(g, p, t) && multiset(p) == multiset(o)
    requires Consistent(r.queue, o) && SameIndices(r.queue, t.queue)
    requires id in r.verts
    ensures id in t.verts && t.verts[id].event == r.verts[id].event
    ensures r.verts[id].anotherPt.Some? ==> t.verts[id].anotherPt == r.verts[id].anotherPt
  {
    hide Distinct, Resolve, LostExact, Consistent, SameIndices, LinksAt, Numbered, RoundsOk, LostOnce, QueueOk, Chains;
    assert Delivered(o, id);
    var i :| 0 <= i < |o| && IdOf(o[i].e) == id;
    var i' := Elsewhere(o, p, i);
    assert VertexOk(r.columns, r.verts, id);
    if r.verts[id].anotherPt.Some? {
      var pid := r.verts[id].anotherPt.value;
      assert Delivered(o, pid);
      var j :| 0 <= j < |o| && IdOf(o[j].e) == pid;
      var j' := Elsewhere(o, p, j);
      assert LinksAt(r.queue, o, i, j);
      LinksAnywhere(r.queue, o, p, i, j, i', j');
      LinksSameIndices(t.queue, r.queue, t.verts, p) by { hide *; SameIndicesSym(r.queue, t.queue); }
      assert LinksAt(r.queue, p, i', j');
    }
  }

  lemma SameIndicesSym(q: seq<Round>, r: seq<Round>)
    requires SameIndices(q, r)
    ensures SameIndices(r, q)
  {}

  /** Who waits where: the vertices without a parent, under the parent's hash, in the round they are filed under. */
  lemma WaitingIff(r: Graph, o: seq<Delivery>, k: nat, h: Hash, id: Id)
    requires Inv(r, o) && k < |r.queue|
    ensures id in Waiting(r.queue[k], h) <==>
      (id in r.verts && r.verts[id].anotherPt.None? && r.verts[id].event.otherPartH == h && Resolve(r.queue, r.verts[id].event.roundId) == k)
    ensures h in r.queue[k].lostDict <==> Waiting(r.queue[k], h) != []
    ensures NoRepeats(Waiting(r.queue[k], h))
  {
    hide Stored, LinksOk, Resolve, Numbered, VertsOk, Chains, LostOnce, QueueOk;
    assert RoundOk(r.queue[k], r.verts) && RoundExact(r.queue, r.verts, k);
  }

  lemma {:induction false} SameMembers(s: seq<Id>, t: seq<Id>)
    requires NoRepeats(s) && NoRepeats(t) && forall x :: x in s <==> x in t
    ensures multiset(s) == multiset(t)
  {
    forall x ensures multiset(s)[x] == multiset(t)[x] {
      OnceIn(s, x);
      OnceIn(t, x);
    }
  }

  lemma {:induction false} OnceIn(s: seq<Id>, x: Id)
    requires NoRepeats(s)
    ensures multiset(s)[x] == if x in s then 1 else 0
  {
    if |s| > 0 {
      var before := s[..|s| - 1];
      assert s == before + [s[|s| - 1]];
      OnceIn(before, x);
    }
  }

  lemma SameLists(g: Graph, o: seq<Delivery>, p: seq<Delivery>, r: Graph, t: Graph, k: nat)
    requires Outcome(g, o, r) && Outcome(g, p, t) && k < |r.queue| == |t.queue| && SameIndices(r.queue, t.queue)
    requires r.verts.Keys == t.verts.Keys
    requires forall id | id in r.verts :: r.verts[id].event == t.verts[id].event && r.verts[id].anotherPt == t.verts[id].anotherPt
    ensures SameWaiting(r.queue[k], t.queue[k])
  {
    hide Inv, Resolve, Distinct, NoRepeats, Fresh, SameIndices;
    forall h: Hash, id
      ensures id in Waiting(r.queue[k], h) <==> id in Waiting(t.queue[k], h)
    {
      WaitingIff(r, o, k, h, id);
      WaitingIff(t, p, k, h, id);
      if id in r.verts { ResolveSame(r.queue, t.queue, r.verts[id].event.roundId); }
    }
    forall h: Hash
      ensures h in r.queue[k].lostDict <==> h in t.queue[k].lostDict
      ensures multiset(Waiting(r.queue[k], h)) == multiset(Waiting(t.queue[k], h))
    {
      WaitingIff(r, o, k, h, Id(0, 0));
      WaitingIff(t, p, k, h, Id(0, 0));
      var a, b := Waiting(r.queue[k], h), Waiting(t.queue[k], h);
      SameMembers(a, b);
      assert |a| == |multiset(a)| && |b| == |multiset(b)|;
    }
    SameKeys(r.queue[k].lostDict, t.queue[k].lostDict);
  }

  lemma SameKeys(a: map<Hash, seq<Id>>, b: map<Hash, seq<Id>>)
    requires forall h: Hash :: h in a <==> h in b
    ensures a.Keys == b.Keys
  {}

  lemma ConsistentIndices(q: seq<Round>, r: seq<Round>, o: seq<Delivery>)
    requires |q| > 0 && SameIndices(q, r) && Consistent(q, o)
    ensures Consistent(r, o)
  {
    hide Resolve;
    forall i, j | 0 <= i < |o| && 0 <= j < |o| && i != j && o[j].e.selfHash == o[i].e.otherPartH
      ensures Names(o[i].e, o[j].e) == SameRound(r, o[i].e, o[j].e)
    {
      ResolveSame(q, r, o[i].e.roundId);
      ResolveSame(q, r, o[j].e.roundId);
    }
  }

  lemma Sufficient(g: Graph, o: seq<Delivery>, p: seq<Delivery>, r: Graph, t: Graph)
    requires Outcome(g, o, r) && Outcome(g, p, t) && multiset(p) == multiset(o)
    requires |g.queue| > 0 && Consistent(g.queue, o)
    ensures SameOutcome(r, t)
  {
    hide Inv, Resolve, Distinct, Fresh, Consistent, SameWaiting;
    assert SameIndices(r.queue, t.queue) && SameIndices(t.queue, r.queue);
    ConsistentPerm(g.queue, o, p);
    ConsistentIndices(g.queue, r.queue, o);
    ConsistentIndices(g.queue, t.queue, p);
    forall id | id in r.verts ensures id in t.verts && t.verts[id].event == r.verts[id].event {
      SameParent(g, o, p, r, t, id);
    }
    forall id | id in t.verts ensures id in r.verts {
      SameParent(g, p, o, t, r, id);
    }
    forall id | id in r.verts ensures r.verts[id].anotherPt == t.verts[id].anotherPt {
      SameParent(g, o, p, r, t, id);
      SameParent(g, p, o, t, r, id);
    }
    forall k | 0 <= k < |r.queue| ensures SameWaiting(r.queue[k], t.queue[k]) {
      SameLists(g, o, p, r, t, k);
    }
  }

  /** The order with the deliveries at i and j exchanged. */
  ghost function Exchanged(o: seq<Delivery>, i: nat, j: nat): (p: seq<Delivery>)
    requires i < |o| && j < |o|
  {
    o[i := o[j]][j := o[i]]
  }

  /** Exchanging a delivery and an inconsistent parent turns the link on or off. */
  lemma Necessary(g: Graph, o: seq<Delivery>, r: Graph, t: Graph, i: nat, j: nat)
    requires i < |o| && j < |o| && i != j && o[j].e.selfHash == o[i].e.otherPartH && |g.queue| > 0
    requires Outcome(g, o, r) && Outcome(g, Exchanged(o, i, j), t)
    requires Names(o[i].e, o[j].e) != SameRound(g.queue, o[i].e, o[j].e)
    ensures !SameOutcome(r, t)
  {
    hide Wf, Resolve, LostExact, Distinct, Fresh, SameWaiting;
    var p := Exchanged(o, i, j);
    assert p[i] == o[j] && p[j] == o[i];
    LinksSameIndices(r.queue, g.queue, r.verts, o);
    LinksSameIndices(t.queue, g.queue, t.verts, p);
    assert LinksAt(g.queue, o, i, j) != LinksAt(g.queue, p, j, i);
  }

  lemma OrderFreeIff(g: Graph, o: seq<Delivery>)
    requires Fresh(g) && Room(g, o) && Distinct(o)
    ensures |g.queue| > 0
    ensures OrderFree(g, o) <==> Consistent(g.queue, o)
  {
    hide Room, Wf, Distinct, Inv, SameOutcome, Outcome, Names, SameRound, Deliver;
    RoundsExist(g);
    DeliverOutcome(g, o);
    if Consistent(g.queue, o) {
      forall p | Room(g, p) && multiset(p) == multiset(o) ensures SameOutcome(Deliver(g, o), Deliver(g, p)) {
        DistinctPerm(o, p);
        DeliverOutcome(g, p);
        Sufficient(g, o, p, Deliver(g, o), Deliver(g, p));
      }
    } else {
      var i, j :| 0 <= i < |o| && 0 <= j < |o| && i != j && o[j].e.selfHash == o[i].e.otherPartH
        && Names(o[i].e, o[j].e) != SameRound(g.queue, o[i].e, o[j].e);
      var p := Exchanged(o, i, j);
      assert multiset(p) == multiset(o);
      RoomPerm(g, o, p);
      DistinctPerm(o, p);
      DeliverOutcome(g, p);
      Necessary(g, o, Deliver(g, o), Deliver(g, p), i, j);
    }
  }

  /**
    * Exactly when order does not matter: the outcome is the same for every order if and only if each delivery
    * whose parent is among the others names the parent's column just when both are filed under one round.
    */
  lemma OrderIndependence(g: Graph, o: seq<Delivery>)
    requires Fresh(g) && Room(g, o) && Distinct(o)
    ensures |g.queue| > 0
    ensures OrderFree(g, o) <==>
      forall i, j | 0 <= i < |o| && 0 <= j < |o| && i != j && o[j].e.selfHash == o[i].e.otherPartH ::
        (o[i].e.otherPartA == o[j].e.addr && o[i].e.otherPartA != 0) <==>
        Resolve(g.queue, o[i].e.roundId) == Resolve(g.queue, o[j].e.roundId)
  {
    hide Room, Wf, Distinct, OrderFree, Consistent, Resolve;
    OrderFreeIff(g, o);
    ConsistentIs(g.queue, o);
  }

  lemma RoundsExist(g: Graph)
    requires Fresh(g)
    ensures Wf(g) && |g.queue| > 0
  {}

  /**
    * Deliveries of one round whose other part names the parent's column: every order has the same outcome,
    * each delivery is linked to its parent, and the waiting lists hold exactly those whose parent is absent.
    */
  lemma OneRound(g: Graph, o: seq<Delivery>, r: Graph)
    requires Fresh(g) && Room(g, o) && Distinct(o) && |g.queue| > 0 && r == Deliver(g, o)
    requires forall i, j | 0 <= i < |o| && 0 <= j < |o| :: SameRound(g.queue, o[i].e, o[j].e)
    requires forall i, j | 0 <= i < |o| && 0 <= j < |o| && o[j].e.selfHash == o[i].e.otherPartH :: Names(o[i].e, o[j].e)
    ensures OrderFree(g, o)
    ensures forall i | 0 <= i < |o| :: IdOf(o[i].e) in r.verts
    ensures forall i, j | 0 <= i < |o| && 0 <= j < |o| ::
      r.verts[IdOf(o[i].e)].anotherPt == Some(IdOf(o[j].e)) <==> o[j].e.selfHash == o[i].e.otherPartH
    ensures |r.queue| == |g.queue|
    ensures forall i, k | 0 <= i < |o| && 0 <= k < |g.queue| ::
      IdOf(o[i].e) in Waiting(r.queue[k], o[i].e.otherPartH) <==>
        (k == Resolve(g.queue, o[i].e.roundId) && forall j | 0 <= j < |o| :: o[j].e.selfHash != o[i].e.otherPartH)
  {
    hide Room, Wf, Distinct, Resolve, Deliver, OrderFree, LostExact, LinksOk, Fresh;
    RoundsExist(g);
    OrderIndependence(g, o);
    DeliverOutcome(g, o);
    forall i: nat, j: nat | i < |o| && j < |o|
      ensures r.verts[IdOf(o[i].e)].anotherPt == Some(IdOf(o[j].e)) <==> o[j].e.selfHash == o[i].e.otherPartH
    {
      LinkOf(g, o, r, i, j);
    }
    forall i: nat, k: nat | i < |o| && k < |g.queue|
      ensures IdOf(o[i].e) in Waiting(r.queue[k], o[i].e.otherPartH) <==>
        (k == Resolve(g.queue, o[i].e.roundId) && forall j | 0 <= j < |o| :: o[j].e.selfHash != o[i].e.otherPartH)
    {
      WaitingIff(r, o, k, o[i].e.otherPartH, IdOf(o[i].e));
      ResolveSame(g.queue, r.queue, o[i].e.roundId);
      UnlinkedIff(g, o, r, i);
    }
  }

  /** The parent of address 1, and a child that names column 3 for it. */
  const PARENT := Delivery(Event(1, 0, 10, 1, 0, NO_ADDRESS, 0), NORMAL)
  const CHILD := Delivery(Event(2, 0, 20, 2, 10, 3, 0), NORMAL)

  /** A wrong column makes the order matter: the child is linked only if it comes first. */
  lemma WrongColumnMatters()
    ensures var g := NewGraph(1, 2);
      && Fresh(g) && Room(g, [PARENT, CHILD]) && Room(g, [CHILD, PARENT])
      && IdOf(CHILD.e) in Deliver(g, [PARENT, CHILD]).verts && IdOf(CHILD.e) in Deliver(g, [CHILD, PARENT]).verts
      && Deliver(g, [PARENT, CHILD]).verts[IdOf(CHILD.e)].anotherPt == None
      && Deliver(g, [CHILD, PARENT]).verts[IdOf(CHILD.e)].anotherPt == Some(IdOf(PARENT.e))
  {
    hide Wf, Room, Deliver, NewGraph, Fresh;
    var g := NewGraph(1, 2);
    NewGraphFresh(1, 2);
    SmallRoom(g, [PARENT, CHILD]);
    SmallRoom(g, [CHILD, PARENT]);
    ParentFirst(g);
    ChildFirst(g);
  }

  lemma ParentFirst(g: Graph)
    requires Fresh(g) && Room(g, [PARENT, CHILD])
    ensures var r := Deliver(g, [PARENT, CHILD]); IdOf(CHILD.e) in r.verts && r.verts[IdOf(CHILD.e)].anotherPt == None
  {
    hide Wf, Room, Deliver, Resolve, Inv, Fresh, Outcome;
    var o := [PARENT, CHILD];
    RoundsExist(g);
    DeliverOutcome(g, o);
    UnlinkedIff(g, o, Deliver(g, o), 1);
  }

  lemma ChildFirst(g: Graph)
    requires Fresh(g) && Room(g, [CHILD, PARENT])
    ensures var r := Deliver(g, [CHILD, PARENT]); IdOf(CHILD.e) in r.verts && r.verts[IdOf(CHILD.e)].anotherPt == Some(IdOf(PARENT.e))
  {
    hide Wf, Room, Deliver, Resolve, Fresh;
    RoundsExist(g);
    DeliverLinks(g, [CHILD, PARENT], 0, 1);
  }

  lemma NewGraphFresh(coinbase: Address, broadness: nat)
    ensures Fresh(NewGraph(coinbase, broadness)) && NewGraph(coinbase, broadness).columns.Keys == {coinbase}
  {
    hide Wf;
    NewGraphWf(coinbase, broadness);
  }

  lemma SmallRoom(g: Graph, o: seq<Delivery>)
    requires g.columns.Keys == {1} && |o| == 2 && (forall d | d in o :: d == PARENT || d == CHILD)
    ensures Room(g, o)
  {
    forall a | a in Addresses(o) ensures a in {1, 2, 3} {
      var i :| 0 <= i < |o| && (a == o[i].e.addr || (o[i].e.otherPartA != NO_ADDRESS && a == o[i].e.otherPartA));
      assert o[i] in o;
    }
    assert g.columns.Keys + Addresses(o) <= {1, 2, 3};
    assert |{1, 2, 3}| == 3;
    SubsetSize(g.columns.Keys + Addresses(o), {1, 2, 3});
  }

  lemma LinkOf(g: Graph, o: seq<Delivery>, r: Graph, i: nat, j: nat)
    requires Outcome(g, o, r) && i < |o| && j < |o| && |g.queue| > 0
    ensures IdOf(o[i].e) in r.verts
    ensures r.verts[IdOf(o[i].e)].anotherPt == Some(IdOf(o[j].e)) <==> LinksAt(g.queue, o, i, j)
  {
    hide Wf, Resolve, LostExact, Distinct, Fresh;
    LinksSameIndices(r.queue, g.queue, r.verts, o);
  }

  lemma UnlinkedIff(g: Graph, o: seq<Delivery>, r: Graph, i: nat)
    requires Outcome(g, o, r) && i < |o| && |g.queue| > 0
    ensures IdOf(o[i].e) in r.verts
    ensures r.verts[IdOf(o[i].e)].anotherPt.None? <==> forall j: nat | j < |o| :: !LinksAt(g.queue, o, i, j)
  {
    hide LinksAt, LinksOk, Resolve, LostExact, Distinct, Fresh, Numbered, RoundsOk, LostOnce, QueueOk, Chains;
    var id := IdOf(o[i].e);
    forall j: nat | j < |o| ensures LinksAt(g.queue, o, i, j) ==> r.verts[id].anotherPt.Some? {
      LinkOf(g, o, r, i, j);
    }
    if r.verts[id].anotherPt.Some? {
      assert VertexOk(r.columns, r.verts, id);
      assert Delivered(o, r.verts[id].anotherPt.value);
      var j :| 0 <= j < |o| && IdOf(o[j].e) == r.verts[id].anotherPt.value;
      LinkOf(g, o, r, i, j);
    }
  }
}
