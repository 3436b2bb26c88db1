/**
  * The jigsaw-puzzle graph: columns of events, their parent links, the
  * dictionary of vertices still waiting for a parent, and the queue of rounds.
  *
  * A vertex pointer is the pair of its column's address and its hash; the
  * vertices behind those pointers are one map, the state of all of them.
  */
module Jigsaw {
  import opened Basics

  // Addresses and hashes matter only up to equality; address 0 is the all-zero address.
  type Address = nat
  type Hash = nat

  const NO_ADDRESS: Address := 0

  const NORMAL := 1
  const WITNESS := 2
  const WITNESS_LOCAL := 3

  const MAX_NODE_COUNT := 128

  datatype Event = Event(
    timeStamp: int, selfPart: Hash, selfHash: Hash, addr: Address,
    otherPartH: Hash, otherPartA: Address, roundId: int)

  datatype Id = Id(addr: Address, hash: Hash)

  datatype Vertex = Vertex(event: Event, role: int, anotherPt: Option<Id>, selfPt: Option<Id>, seqNum: nat)

  // The hash chain of a column is the set of its keys: the vertex of hash h in column a is Id(a, h).
  datatype Column = Column(chain: set<Hash>, verTop: Option<Id>, seqNum: nat)

  datatype Request = Request(targetHash: Hash, targetAddr: Address)

  datatype Round = Round(
    index: int, broadness: nat, witnesses: seq<Option<Id>>,
    lostDict: map<Hash, seq<Id>>, newComer: seq<Request>)

  datatype Graph = Graph(
    coinbase: Address, broadness: nat,
    columns: map<Address, Column>, superMajority: int,
    verts: map<Id, Vertex>,
    queue: seq<Round>, currentIdx: int,
    // what was sent on the channels
    requests: seq<Request>, roundTrigger: seq<Id>, selfEventCreated: seq<Id>, consensusTrigger: seq<int>,
    witnessL: seq<Event>)

  function IdOf(e: Event): (id: Id) { Id(e.addr, e.selfHash) }

  // ---------------------------------------------------------------------------
  // Steps
  // ---------------------------------------------------------------------------

  function NewRound(broadness: nat, index: int): (r: Round)
  {
    Round(index, broadness, seq(MAX_NODE_COUNT, _ => None), map[], [])
  }

  function AddNodeStep(g: Graph, a: Address): (r: Graph)
  {
    if a in g.columns then g
    else g.(columns := g.columns[a := Column({}, None, |g.columns|)],
            superMajority := (|g.columns| + 1) * 2 / 3)
  }

  function NewGraph(coinbase: Address, broadness: nat): (g: Graph)
  {
    AddNodeStep(Graph(coinbase, broadness, map[], 0, map[], [NewRound(broadness, 0)], 0, [], [], [], [], []), coinbase)
  }

  /** The queue position AddEvent files an event under: its round, or the oldest one if no round matches. */
  function Resolve(q: seq<Round>, roundId: int): (k: nat)
    requires |q| > 0
    ensures k < |q|
    ensures q[k].index == roundId || (k == |q| - 1 && forall j | 0 <= j < |q| :: q[j].index != roundId)
    ensures forall j | 0 <= j < k :: q[j].index != roundId
  {
    if q[0].index == roundId || |q| == 1 then 0 else 1 + Resolve(q[1..], roundId)
  }

  /** Every listed vertex gets `to` as its other parent. */
  function LinkAll(verts: map<Id, Vertex>, ids: seq<Id>, to: Id): (r: map<Id, Vertex>)
  {
    map v | v in verts :: if v in ids then verts[v].(anotherPt := Some(to)) else verts[v]
  }

  /** addComer: afterwards the hash is listed, and a list without repetitions stays one. */
  function Comers(c: seq<Request>, r: Request): (s: seq<Request>)
    ensures s == c || s == c + [r]
    ensures s == c <==> exists i :: 0 <= i < |c| && c[i].targetHash == r.targetHash
    ensures exists i :: 0 <= i < |s| && s[i].targetHash == r.targetHash
    ensures (forall i, j | 0 <= i < j < |c| :: c[i].targetHash != c[j].targetHash)
        ==> (forall i, j | 0 <= i < j < |s| :: s[i].targetHash != s[j].targetHash)
  {
    assert (c + [r])[|c|] == r;
    if exists i | 0 <= i < |c| :: c[i].targetHash == r.targetHash then c else c + [r]
  }

  /** The columns an event names exist afterwards. */
  function WithColumns(g: Graph, e: Event): (r: Graph)
  {
    var g1 := AddNodeStep(g, e.addr);
    if e.otherPartA != NO_ADDRESS then AddNodeStep(g1, e.otherPartA) else g1
  }

  predicate Known(g: Graph, e: Event)
  {
    e.addr in g.columns && e.selfHash in g.columns[e.addr].chain
  }

  /** Whether the other parent is in the column the event names for it. */
  predicate ParentKnown(columns: map<Address, Column>, e: Event)
  {
    && e.otherPartA != NO_ADDRESS && e.otherPartA in columns
    && e.otherPartH in columns[e.otherPartA].chain
  }

  function ParentOf(columns: map<Address, Column>, e: Event): (p: Option<Id>)
  {
    if ParentKnown(columns, e) then Some(Id(e.otherPartA, e.otherPartH)) else None
  }

  function Chained(c: Column, id: Id): (r: Column)
  {
    c.(chain := c.chain + {id.hash}, verTop := Some(id))
  }

  predicate MakesWitness(c: Column, first: bool, ty: int)
  {
    first || ty == WITNESS || |c.chain| == 1
  }

  function Waiting(r: Round, h: Hash): (ids: seq<Id>)
  {
    if h in r.lostDict then r.lostDict[h] else []
  }

  function Lose(d: map<Hash, seq<Id>>, h: Hash, id: Id): (r: map<Hash, seq<Id>>)
  {
    d[h := (if h in d then d[h] else []) + [id]]
  }

  /** What filing a new vertex does to its round. */
  function Filed(r: Round, v: Vertex, wins: bool): (s: Round)
    requires v.seqNum < |r.witnesses|
  {
    var id := IdOf(v.event);
    var rest := r.lostDict - {id.hash};
    Round(r.index, r.broadness,
      if wins then r.witnesses[v.seqNum := Some(id)] else r.witnesses,
      if v.anotherPt.None? then Lose(rest, v.event.otherPartH, id) else rest,
      Comers(r.newComer, Request(id.hash, id.addr)))
  }

  ghost predicate Fits(g: Graph, e: Event)
  {
    |WithColumns(g, e).columns| <= MAX_NODE_COUNT
  }

  /** What InsertStep needs of the graph. */
  ghost predicate Insertable(g: Graph, e: Event)
  {
    && Wf(g) && !Known(g, e) && e.addr in g.columns
    && (e.otherPartA != NO_ADDRESS ==> e.otherPartA in g.columns)
  }

  /** The vertex a new event becomes. */
  function NewVertex(g: Graph, e: Event, ty: int, first: bool): (v: Vertex)
    requires e.addr in g.columns
  {
    var col := Chained(g.columns[e.addr], IdOf(e));
    Vertex(e, if MakesWitness(col, first, ty) then WITNESS else ty,
      ParentOf(g.columns[e.addr := col], e), g.columns[e.addr].verTop, col.seqNum)
  }

  /** A new vertex, in a graph that has the columns it names. */
  function InsertStep(g: Graph, e: Event, ty: int, first: bool): (r: Graph)
    requires Insertable(g, e)
  {
    InsertableReady(g, e);
    var id := IdOf(e);
    var col := Chained(g.columns[e.addr], id);
    var v := NewVertex(g, e, ty, first);
    var k := Resolve(g.queue, e.roundId);
    g.(columns := g.columns[e.addr := col],
       verts := LinkAll(g.verts[id := v], Waiting(g.queue[k], id.hash), id),
       queue := g.queue[k := Filed(g.queue[k], v, MakesWitness(col, first, ty))],
       requests := if v.anotherPt.None? then g.requests + [Request(e.otherPartH, e.addr)] else g.requests,
       selfEventCreated := if e.addr == g.coinbase && v.role == NORMAL then g.selfEventCreated + [id] else g.selfEventCreated)
  }

  /** AddEvent, given the hash recomputed from the event's content. */
  function AddEventStep(g: Graph, e: Event, ty: int, hash: Hash): (r: Graph)
    requires Wf(g) && Fits(g, e)
  {
    if hash != e.selfHash then g
    else
      WithColumnsWf(g, e);
      var g2 := WithColumns(g, e);
      if !Known(g2, e) then InsertStep(g2, e, ty, e.addr !in g.columns)
      else if ty == WITNESS then
        g2.(verts := g2.verts[IdOf(e) := g2.verts[IdOf(e)].(role := WITNESS)],
            roundTrigger := g2.roundTrigger + [IdOf(e)])
      else g2
  }

  // ---------------------------------------------------------------------------
  // What every step keeps
  // ---------------------------------------------------------------------------

  ghost predicate HasNumber(columns: map<Address, Column>, i: nat)
  {
    exists a :: a in columns && columns[a].seqNum == i
  }

  /** The columns are numbered bijectively from 0. */
  ghost predicate Numbered(columns: map<Address, Column>)
  {
    Apart(columns) && Onto(columns)
  }

  ghost predicate Apart(columns: map<Address, Column>)
  {
    && (forall a | a in columns :: columns[a].seqNum < |columns|)
    && (forall a, b | a in columns && b in columns && columns[a].seqNum == columns[b].seqNum :: a == b)
  }

  ghost predicate Onto(columns: map<Address, Column>)
  {
    forall i: nat | i < |columns| :: HasNumber(columns, i)
  }

  ghost predicate Chains(columns: map<Address, Column>, verts: map<Id, Vertex>)
  {
    && (forall a, h | a in columns && h in columns[a].chain :: Id(a, h) in verts)
    && (forall id | id in verts :: id.addr in columns && id.hash in columns[id.addr].chain)
    && (forall a | a in columns && columns[a].verTop.Some? ::
          columns[a].verTop.value.addr == a && columns[a].verTop.value in verts)
  }

  ghost predicate VertexOk(columns: map<Address, Column>, verts: map<Id, Vertex>, id: Id)
    requires id in verts
  {
    var v := verts[id];
    && IdOf(v.event) == id
    && id.addr in columns && v.seqNum == columns[id.addr].seqNum
    && (v.selfPt.Some? ==> v.selfPt.value in verts && v.selfPt.value.addr == id.addr)
    && (v.anotherPt.Some? ==> v.anotherPt.value in verts && v.anotherPt.value.hash == v.event.otherPartH)
  }

  ghost predicate VertsOk(columns: map<Address, Column>, verts: map<Id, Vertex>)
  {
    forall id | id in verts :: VertexOk(columns, verts, id)
  }

  /** From the front the rounds are numbered currentIdx down to 0. */
  ghost predicate QueueOk(q: seq<Round>, currentIdx: int)
  {
    && |q| == currentIdx + 1 && |q| > 0
    && (forall k | 0 <= k < |q| :: q[k].index == currentIdx - k)
    && (forall k | 0 <= k < |q| :: |q[k].witnesses| == MAX_NODE_COUNT)
  }

  /** Slot i holds a vertex of the column numbered i. */
  ghost predicate SlotsOk(r: Round, verts: map<Id, Vertex>)
  {
    forall i | 0 <= i < |r.witnesses| && r.witnesses[i].Some? ::
      r.witnesses[i].value in verts && verts[r.witnesses[i].value].seqNum == i
  }

  /** A vertex waits under the hash of the parent it lacks. */
  ghost predicate LostOk(r: Round, verts: map<Id, Vertex>)
  {
    forall h, id | h in r.lostDict && id in r.lostDict[h] ::
      id in verts && verts[id].anotherPt.None? && verts[id].event.otherPartH == h
  }

  ghost predicate RoundOk(r: Round, verts: map<Id, Vertex>)
  {
    SlotsOk(r, verts) && LostOk(r, verts)
  }

  ghost predicate RoundsOk(q: seq<Round>, verts: map<Id, Vertex>)
  {
    forall k | 0 <= k < |q| :: RoundOk(q[k], verts)
  }

  /** No vertex waits in two rounds. */
  ghost predicate LostOnce(q: seq<Round>)
  {
    forall j, k, h, id | 0 <= j < k < |q| && h in q[j].lostDict && h in q[k].lostDict && id in q[j].lostDict[h] ::
      id !in q[k].lostDict[h]
  }

  ghost predicate Wf(g: Graph)
  {
    && Numbered(g.columns) && |g.columns| <= MAX_NODE_COUNT
    && g.superMajority == |g.columns| * 2 / 3
    && Chains(g.columns, g.verts)
    && VertsOk(g.columns, g.verts)
    && QueueOk(g.queue, g.currentIdx)
    && RoundsOk(g.queue, g.verts)
    && LostOnce(g.queue)
  }

  /** AddNode keeps the numbering bijective and superMajority at two thirds of the columns. */
  lemma AddNodeWf(g: Graph, a: Address)
    requires Wf(g) && (a in g.columns || |g.columns| < MAX_NODE_COUNT)
    ensures Wf(AddNodeStep(g, a))
    ensures a in AddNodeStep(g, a).columns
    ensures AddNodeStep(g, a).superMajority == |AddNodeStep(g, a).columns| * 2 / 3
    ensures a !in g.columns ==> AddNodeStep(g, a).columns == g.columns[a := Column({}, None, |g.columns|)]
    ensures a in g.columns ==> AddNodeStep(g, a) == g
  {
    hide RoundsOk, QueueOk, Numbered, LostOnce, Chains, VertsOk;
    if a !in g.columns {
      NumberedGrows(g.columns, a, Column({}, None, |g.columns|));
      EmptyColumn(g.columns, g.verts, a, Column({}, None, |g.columns|));
    }
  }

  lemma EmptyColumn(columns: map<Address, Column>, verts: map<Id, Vertex>, a: Address, c: Column)
    requires Chains(columns, verts) && VertsOk(columns, verts) && a !in columns && c.chain == {} && c.verTop == None
    ensures Chains(columns[a := c], verts) && VertsOk(columns[a := c], verts)
  {
    var d := columns[a := c];
    forall id | id in verts ensures VertexOk(d, verts, id) {
      assert VertexOk(columns, verts, id);
    }
  }

  lemma StillNumbered(columns: map<Address, Column>, d: map<Address, Column>, i: nat)
    requires HasNumber(columns, i) && forall b | b in columns :: b in d && d[b].seqNum == columns[b].seqNum
    ensures HasNumber(d, i)
  {
    var b :| b in columns && columns[b].seqNum == i;
    assert b in d && d[b].seqNum == i;
  }

  lemma KeyCount(columns: map<Address, Column>)
    ensures |columns| == |columns.Keys|
  {}

  lemma NumberedGrows(columns: map<Address, Column>, a: Address, c: Column)
    requires Numbered(columns) && a !in columns && c.seqNum == |columns|
    ensures |columns[a := c]| == |columns| + 1
    ensures Numbered(columns[a := c])
  {
    hide Onto;
    OntoGrows(columns, a, c);
  }

  lemma OntoGrows(columns: map<Address, Column>, a: Address, c: Column)
    requires Onto(columns) && a !in columns && c.seqNum == |columns|
    ensures Onto(columns[a := c])
  {
    hide HasNumber;
    var d := columns[a := c];
    forall i: nat | i < |d| ensures HasNumber(d, i) {
      if i < |columns| { StillNumbered(columns, d, i); } else { NumberOf(d, a); }
    }
  }

  lemma NumberOf(d: map<Address, Column>, a: Address)
    requires a in d
    ensures HasNumber(d, d[a].seqNum)
  {}

  /** A changed column keeps the numbering if it keeps its number. */
  lemma NumberedKept(columns: map<Address, Column>, a: Address, c: Column)
    requires Numbered(columns) && a in columns && c.seqNum == columns[a].seqNum
    ensures |columns[a := c]| == |columns|
    ensures Numbered(columns[a := c])
  {
    hide HasNumber;
    var d := columns[a := c];
    forall i: nat | i < |d| ensures HasNumber(d, i) {
      StillNumbered(columns, d, i);
    }
  }

  lemma WithColumnsGrow(g: Graph, a: Address)
    ensures |g.columns| <= |AddNodeStep(g, a).columns|
    ensures a !in g.columns ==> |AddNodeStep(g, a).columns| == |g.columns| + 1
  {
  }

  lemma WithColumnsWf(g: Graph, e: Event)
    requires Wf(g) && Fits(g, e)
    ensures Wf(WithColumns(g, e))
    ensures e.addr in WithColumns(g, e).columns
    ensures e.otherPartA != NO_ADDRESS ==> e.otherPartA in WithColumns(g, e).columns
    ensures WithColumns(g, e).verts == g.verts && WithColumns(g, e).queue == g.queue
    ensures Known(WithColumns(g, e), e) == Known(g, e)
    ensures Known(g, e) ==> IdOf(e) in g.verts
    ensures WithColumns(g, e).columns[e.addr].seqNum < |g.queue[Resolve(g.queue, e.roundId)].witnesses|
  {
    hide RoundsOk, VertsOk, Resolve;
    var g1 := AddNodeStep(g, e.addr);
    WithColumnsGrow(g, e.addr);
    WithColumnsGrow(g1, e.otherPartA);
    AddNodeWf(g, e.addr);
    if e.otherPartA != NO_ADDRESS { AddNodeWf(g1, e.otherPartA); }
  }

  // ---------------------------------------------------------------------------
  // A new vertex
  // ---------------------------------------------------------------------------

  lemma InsertableReady(g: Graph, e: Event)
    requires Insertable(g, e)
    ensures |g.queue| > 0
    ensures g.columns[e.addr].seqNum < MAX_NODE_COUNT == |g.queue[Resolve(g.queue, e.roundId)].witnesses|
    ensures IdOf(e) !in g.verts
  {
    hide RoundsOk, VertsOk, Resolve, LostOnce;
  }

  /** An older vertex after e arrived: linked to e if it waited for it. */
  ghost function Relinked(g: Graph, e: Event, id: Id): (v: Vertex)
    requires |g.queue| > 0 && id in g.verts
  {
    if id in Waiting(g.queue[Resolve(g.queue, e.roundId)], e.selfHash) then g.verts[id].(anotherPt := Some(IdOf(e)))
    else g.verts[id]
  }

  /** The vertices afterwards: the new one, and the waiting ones linked to it. */
  lemma InsertVerts(g: Graph, e: Event, ty: int, first: bool, r: Graph)
    requires Insertable(g, e)
    requires r == InsertStep(g, e, ty, first)
    ensures r.verts.Keys == g.verts.Keys + {IdOf(e)}
    ensures r.verts[IdOf(e)] == NewVertex(g, e, ty, first)
    ensures |g.queue| > 0
    ensures forall id | id in g.verts :: r.verts[id] == Relinked(g, e, id)
  {
    hide Wf, Resolve, Filed, Chained, NewVertex;
    InsertableReady(g, e);
    WaitersPresent(g, e);
  }

  lemma WaitersPresent(g: Graph, e: Event)
    requires Insertable(g, e)
    ensures |g.queue| > 0
    ensures forall id | id in Waiting(g.queue[Resolve(g.queue, e.roundId)], e.selfHash) :: id in g.verts
  {
    hide Resolve, Numbered, VertsOk, Chains, LostOnce;
    assert RoundOk(g.queue[Resolve(g.queue, e.roundId)], g.verts);
  }

  lemma InsertChains(g: Graph, e: Event, ty: int, first: bool, r: Graph)
    requires Insertable(g, e)
    requires r == InsertStep(g, e, ty, first)
    ensures Numbered(r.columns) && |r.columns| == |g.columns|
    ensures Chains(r.columns, r.verts)
  {
    hide Resolve, VertsOk, Numbered, LostOnce, RoundsOk, QueueOk, Chains, InsertStep, NewVertex, Relinked;
    InsertVerts(g, e, ty, first, r);
    InsertColumns(g, e, ty, first, r);
    NumberedKept(g.columns, e.addr, Chained(g.columns[e.addr], IdOf(e)));
    ChainsNext(g.columns, g.verts, r.verts, IdOf(e));
  }

  lemma ChainsNext(columns: map<Address, Column>, verts: map<Id, Vertex>, more: map<Id, Vertex>, id: Id)
    requires Chains(columns, verts) && id.addr in columns && more.Keys == verts.Keys + {id}
    ensures Chains(columns[id.addr := Chained(columns[id.addr], id)], more)
  {}

  lemma InsertVertsOk(g: Graph, e: Event, ty: int, first: bool, r: Graph)
    requires Insertable(g, e)
    requires r == InsertStep(g, e, ty, first)
    ensures VertsOk(r.columns, r.verts)
  {
    hide Resolve, Numbered, LostOnce, QueueOk, InsertStep, MakesWitness;
    InsertVerts(g, e, ty, first, r);
    InsertColumns(g, e, ty, first, r);
    InsertChains(g, e, ty, first, r);
    assert RoundOk(g.queue[Resolve(g.queue, e.roundId)], g.verts);
    forall id | id in r.verts ensures VertexOk(r.columns, r.verts, id) {
      if id != IdOf(e) { assert VertexOk(g.columns, g.verts, id); }
    }
  }

  /** The queue afterwards: one round has filed the vertex. */
  lemma InsertQueue(g: Graph, e: Event, ty: int, first: bool, r: Graph)
    requires Insertable(g, e)
    requires r == InsertStep(g, e, ty, first)
    ensures r.currentIdx == g.currentIdx && |r.queue| == |g.queue| > 0
    ensures g.columns[e.addr].seqNum < |g.queue[Resolve(g.queue, e.roundId)].witnesses|
    ensures r.queue == g.queue[Resolve(g.queue, e.roundId) := Filed(g.queue[Resolve(g.queue, e.roundId)],
      NewVertex(g, e, ty, first), MakesWitness(Chained(g.columns[e.addr], IdOf(e)), first, ty))]
  {
    hide Resolve, Numbered, LinkAll, VertsOk, Chains, LostOnce, RoundsOk, Filed;
    InsertableReady(g, e);
  }

  lemma FiledLost(r: Round, v: Vertex, wins: bool, h: Hash, id: Id)
    requires v.seqNum < |r.witnesses|
    requires h in Filed(r, v, wins).lostDict && id in Filed(r, v, wins).lostDict[h]
    ensures (id == IdOf(v.event) && h == v.event.otherPartH && v.anotherPt.None?)
      || (h != v.event.selfHash && h in r.lostDict && id in r.lostDict[h])
  {}

  lemma FiledRoundOk(g: Graph, e: Event, ty: int, first: bool, r: Graph)
    requires Insertable(g, e)
    requires r == InsertStep(g, e, ty, first)
    ensures |g.queue| == |r.queue| > 0
    ensures RoundOk(r.queue[Resolve(g.queue, e.roundId)], r.verts)
  {
    hide Resolve, Numbered, LinkAll, VertsOk, Chains, LostOnce, InsertStep, QueueOk, Filed;
    InsertQueue(g, e, ty, first, r);
    InsertVerts(g, e, ty, first, r);
    var k, v, wins := Resolve(g.queue, e.roundId), NewVertex(g, e, ty, first), MakesWitness(Chained(g.columns[e.addr], IdOf(e)), first, ty);
    assert RoundOk(g.queue[k], g.verts);
    FiledSlots(g.queue[k], v, wins);
    forall h, id | h in r.queue[k].lostDict && id in r.queue[k].lostDict[h]
      ensures id in r.verts && r.verts[id].anotherPt.None? && r.verts[id].event.otherPartH == h
    {
      FiledLost(g.queue[k], v, wins, h, id);
    }
  }

  lemma FiledSlots(r: Round, v: Vertex, wins: bool)
    requires v.seqNum < |r.witnesses|
    ensures Filed(r, v, wins).witnesses == if wins then r.witnesses[v.seqNum := Some(IdOf(v.event))] else r.witnesses
    ensures RoundGrown(r, Filed(r, v, wins))
  {}

  lemma OtherRoundOk(g: Graph, e: Event, ty: int, first: bool, r: Graph, j: nat)
    requires Insertable(g, e)
    requires r == InsertStep(g, e, ty, first)
    requires j < |g.queue| && j != Resolve(g.queue, e.roundId)
    ensures RoundOk(g.queue[j], r.verts)
  {
    hide Resolve, Numbered, LinkAll, VertsOk, Chains, InsertStep, QueueOk, Filed;
    InsertVerts(g, e, ty, first, r);
    assert RoundOk(g.queue[j], g.verts);
    assert RoundOk(g.queue[Resolve(g.queue, e.roundId)], g.verts);
  }

  lemma InsertLostOnce(g: Graph, e: Event, ty: int, first: bool, r: Graph)
    requires Insertable(g, e)
    requires r == InsertStep(g, e, ty, first)
    ensures LostOnce(r.queue)
  {
    hide Resolve, Numbered, LinkAll, VertsOk, Chains, InsertStep, QueueOk, Filed;
    InsertQueue(g, e, ty, first, r);
    InsertableReady(g, e);
    var n, v, wins := Resolve(g.queue, e.roundId), NewVertex(g, e, ty, first), MakesWitness(Chained(g.columns[e.addr], IdOf(e)), first, ty);
    forall j, k, h, id | 0 <= j < k < |r.queue| && h in r.queue[j].lostDict && h in r.queue[k].lostDict && id in r.queue[j].lostDict[h]
      ensures id !in r.queue[k].lostDict[h]
    {
      assert RoundOk(g.queue[j], g.verts) && RoundOk(g.queue[k], g.verts);
      if id in r.queue[k].lostDict[h] {
        if j == n { FiledLost(g.queue[n], v, wins, h, id); }
        if k == n { FiledLost(g.queue[n], v, wins, h, id); }
        assert false;
      }
    }
  }

  lemma InsertRoundsOk(g: Graph, e: Event, ty: int, first: bool, r: Graph)
    requires Insertable(g, e)
    requires r == InsertStep(g, e, ty, first)
    ensures QueueOk(r.queue, r.currentIdx)
    ensures RoundsOk(r.queue, r.verts)
  {
    hide Resolve, Numbered, LinkAll, VertsOk, Chains, InsertStep, Filed, RoundOk, LostOnce, ParentOf, MakesWitness;
    InsertQueue(g, e, ty, first, r);
    FiledRoundOk(g, e, ty, first, r);
    var n := Resolve(g.queue, e.roundId);
    FiledSlots(g.queue[n], NewVertex(g, e, ty, first), MakesWitness(Chained(g.columns[e.addr], IdOf(e)), first, ty));
    forall j | 0 <= j < |r.queue| ensures RoundOk(r.queue[j], r.verts) {
      if j != n { OtherRoundOk(g, e, ty, first, r, j); }
    }
  }

  lemma InsertWf(g: Graph, e: Event, ty: int, first: bool, r: Graph)
    requires Insertable(g, e)
    requires r == InsertStep(g, e, ty, first)
    ensures Wf(r)
  {
    hide Resolve, Numbered, LinkAll, VertsOk, Chains, LostOnce, RoundsOk, QueueOk, Filed;
    InsertableReady(g, e);
    InsertChains(g, e, ty, first, r);
    InsertVertsOk(g, e, ty, first, r);
    InsertRoundsOk(g, e, ty, first, r);
    InsertLostOnce(g, e, ty, first, r);
  }

  /** Nothing already linked or filled changes, apart from witness marks. */
  ghost predicate Grown(g: Graph, r: Graph)
  {
    && r.broadness == g.broadness
    && g.columns.Keys <= r.columns.Keys
    && (forall a | a in g.columns :: r.columns[a].seqNum == g.columns[a].seqNum && g.columns[a].chain <= r.columns[a].chain)
    && g.verts.Keys <= r.verts.Keys
    && (forall id | id in g.verts :: VertexGrown(g.verts[id], r.verts[id]))
    && |g.queue| <= |r.queue|
    && (forall i: nat | i < |g.queue| :: RoundGrown(RoundNo(g.queue, i), RoundNo(r.queue, i)))
  }

  ghost predicate VertexGrown(v: Vertex, w: Vertex)
  {
    && w.seqNum == v.seqNum && w.selfPt == v.selfPt
    && w.event.(roundId := 0) == v.event.(roundId := 0)
    && (v.anotherPt.Some? ==> w.anotherPt == v.anotherPt)
  }

  /** Round number i of a queue that is numbered from its back. */
  function RoundNo(q: seq<Round>, i: nat): (r: Round)
    requires i < |q|
  {
    q[|q| - 1 - i]
  }

  /** The same round, with no slot emptied. */
  ghost predicate RoundGrown(q: Round, r: Round)
  {
    && r.index == q.index && r.broadness == q.broadness && |r.witnesses| == |q.witnesses|
    && (forall i | 0 <= i < |q.witnesses| && q.witnesses[i].Some? :: r.witnesses[i].Some?)
  }

  lemma InsertGrown(g: Graph, e: Event, ty: int, first: bool, r: Graph)
    requires Insertable(g, e)
    requires r == InsertStep(g, e, ty, first)
    ensures Grown(g, r)
  {
    hide Resolve, Numbered, LinkAll, VertsOk, Chains, LostOnce, InsertStep, Filed, QueueOk, RoundGrown, ParentOf, MakesWitness;
    InsertVerts(g, e, ty, first, r);
    InsertQueue(g, e, ty, first, r);
    InsertColumns(g, e, ty, first, r);
    var n := Resolve(g.queue, e.roundId);
    assert RoundOk(g.queue[n], g.verts);
    RoundSelf(g.queue);
    FiledSlots(g.queue[n], NewVertex(g, e, ty, first), MakesWitness(Chained(g.columns[e.addr], IdOf(e)), first, ty));
    forall i: nat | i < |g.queue| ensures RoundGrown(RoundNo(g.queue, i), RoundNo(r.queue, i)) {
      var k := |g.queue| - 1 - i;
      assert k == n || r.queue[k] == g.queue[k];
    }
  }

  lemma RoundSelf(q: seq<Round>)
    ensures forall k | 0 <= k < |q| :: RoundGrown(q[k], q[k])
  {}

  lemma InsertColumns(g: Graph, e: Event, ty: int, first: bool, r: Graph)
    requires Insertable(g, e)
    requires r == InsertStep(g, e, ty, first)
    ensures r.columns == g.columns[e.addr := Chained(g.columns[e.addr], IdOf(e))]
    ensures r.columns.Keys == g.columns.Keys
    ensures r.superMajority == g.superMajority
    ensures r.broadness == g.broadness && r.consensusTrigger == g.consensusTrigger
  {
    hide Resolve, Filed, LinkAll, NewVertex, VertsOk, RoundsOk, LostOnce, Chains, QueueOk, Numbered;
  }

  lemma GrownTrans(g: Graph, h: Graph, r: Graph)
    requires Grown(g, h) && Grown(h, r)
    ensures Grown(g, r)
  {
    forall id | id in g.verts ensures VertexGrown(g.verts[id], r.verts[id]) {
      assert VertexGrown(g.verts[id], h.verts[id]) && VertexGrown(h.verts[id], r.verts[id]);
    }
    hide RoundNo;
    forall i: nat | i < |g.queue| ensures RoundGrown(RoundNo(g.queue, i), RoundNo(r.queue, i)) {
      assert RoundGrown(RoundNo(g.queue, i), RoundNo(h.queue, i)) && RoundGrown(RoundNo(h.queue, i), RoundNo(r.queue, i));
    }
  }

  lemma AddNodeGrown(g: Graph, a: Address)
    ensures Grown(g, AddNodeStep(g, a))
  {
    hide RoundGrown;
    RoundSelf(g.queue);
  }

  lemma WithColumnsGrown(g: Graph, e: Event)
    ensures Grown(g, WithColumns(g, e))
  {
    hide Grown, AddNodeStep;
    var g1 := AddNodeStep(g, e.addr);
    AddNodeGrown(g, e.addr);
    AddNodeGrown(g1, e.otherPartA);
    GrownTrans(g, g1, AddNodeStep(g1, e.otherPartA));
  }

  /** A known event may turn witness; nothing else changes. */
  lemma RemarkWf(g: Graph, id: Id, role: int)
    requires Wf(g) && id in g.verts
    ensures Wf(g.(verts := g.verts[id := g.verts[id].(role := role)]))
    ensures Grown(g, g.(verts := g.verts[id := g.verts[id].(role := role)]))
  {
    hide Numbered, QueueOk, LostOnce, VertexOk, RoundOk, RoundGrown;
    var verts := g.verts[id := g.verts[id].(role := role)];
    forall x | x in verts ensures VertexOk(g.columns, verts, x) {
      RemarkVertex(g, id, role, x);
    }
    forall k | 0 <= k < |g.queue| ensures RoundOk(g.queue[k], verts) {
      RemarkRound(g, id, role, k);
    }
    RoundSelf(g.queue);
  }

  lemma RemarkVertex(g: Graph, id: Id, role: int, x: Id)
    requires Wf(g) && id in g.verts && x in g.verts
    ensures VertexOk(g.columns, g.verts[id := g.verts[id].(role := role)], x)
  {
    hide Numbered, QueueOk, LostOnce, Chains, RoundsOk;
    assert VertexOk(g.columns, g.verts, x);
  }

  lemma RemarkRound(g: Graph, id: Id, role: int, k: nat)
    requires Wf(g) && id in g.verts && k < |g.queue|
    ensures RoundOk(g.queue[k], g.verts[id := g.verts[id].(role := role)])
  {
    hide Numbered, QueueOk, LostOnce, Chains, VertsOk;
    assert RoundOk(g.queue[k], g.verts);
  }

  /** AddEvent keeps the graph well formed and never unlinks, renumbers or empties anything. */
  lemma AddEventWf(g: Graph, e: Event, ty: int, hash: Hash)
    requires Wf(g) && Fits(g, e)
    ensures Wf(AddEventStep(g, e, ty, hash))
    ensures Grown(g, AddEventStep(g, e, ty, hash))
  {
    hide Wf, Grown, WithColumns, InsertStep;
    GrownSelf(g);
    if hash == e.selfHash {
      WithColumnsWf(g, e);
      WithColumnsGrown(g, e);
      var g2 := WithColumns(g, e);
      if !Known(g2, e) {
        var r := InsertStep(g2, e, ty, e.addr !in g.columns);
        InsertWf(g2, e, ty, e.addr !in g.columns, r);
        InsertGrown(g2, e, ty, e.addr !in g.columns, r);
        GrownTrans(g, g2, r);
      } else if ty == WITNESS {
        RemarkWf(g2, IdOf(e), WITNESS);
        var m := g2.(verts := g2.verts[IdOf(e) := g2.verts[IdOf(e)].(role := WITNESS)]);
        GrownTrans(g, g2, m);
        SentWf(m, m.roundTrigger + [IdOf(e)], []);
        SentGrown(g, m, m.roundTrigger + [IdOf(e)], []);
      }
    }
  }

  lemma GrownSelf(g: Graph)
    ensures Grown(g, g)
  {}

  lemma SentWf(g: Graph, t: seq<Id>, w: seq<Event>)
    requires Wf(g)
    ensures Wf(g.(roundTrigger := t)) && Wf(g.(roundTrigger := t, witnessL := w))
  {}

  lemma SentGrown(g: Graph, r: Graph, t: seq<Id>, w: seq<Event>)
    requires Grown(g, r)
    ensures Grown(g, r.(roundTrigger := t)) && Grown(g, r.(roundTrigger := t, witnessL := w))
  {}

  lemma NewGraphWf(coinbase: Address, broadness: nat)
    ensures Wf(NewGraph(coinbase, broadness))
    ensures var g := NewGraph(coinbase, broadness);
      && g.coinbase == coinbase && g.broadness == broadness
      && g.columns == map[coinbase := Column({}, None, 0)] && g.superMajority == 0
      && g.verts == map[] && g.currentIdx == 0
      && |g.queue| == 1 && g.queue[0] == Round(0, broadness, seq(128, _ => None), map[], [])
      && g.requests == [] && g.roundTrigger == [] && g.selfEventCreated == [] && g.consensusTrigger == [] && g.witnessL == []
  {
    var g := NewGraph(coinbase, broadness);
    assert g.columns.Keys == {coinbase};
    assert |g.columns| == |g.columns.Keys| == 1;
    assert g.columns[coinbase].seqNum == 0;
    assert HasNumber(g.columns, 0);
  }

  // ---------------------------------------------------------------------------
  // One new event
  // ---------------------------------------------------------------------------

  lemma ColumnsThere(g: Graph, e: Event, a: Address)
    ensures var h := WithColumns(g, e);
      && (a in g.columns ==> a in h.columns && h.columns[a] == g.columns[a])
      && (a in h.columns && a !in g.columns ==> h.columns[a].chain == {} && h.columns[a].verTop == None)
    ensures var h := WithColumns(g, e);
      h.requests == g.requests && h.coinbase == g.coinbase && h.selfEventCreated == g.selfEventCreated && h.roundTrigger == g.roundTrigger
  {}

  lemma OneHash(chain: set<Hash>, h: Hash)
    requires h !in chain
    ensures |chain + {h}| == 1 <==> chain == {}
  {
    assert |chain + {h}| == |chain| + 1;
  }

  /**
    * The vertex an event becomes on its first delivery, and what is sent for it: it is a witness if it was sent as
    * one or is the first of its column, it sits on its column's last vertex, it is linked to its other parent if that is in
    * the column named for it, that parent is asked for if it is not, and an own normal event is announced.
    */
  lemma FirstDelivery(g: Graph, e: Event, ty: int)
    requires Wf(g) && Fits(g, e) && (e.addr in g.columns ==> e.selfHash !in g.columns[e.addr].chain)
    ensures var r, there := AddEventStep(g, e, ty, e.selfHash), e.addr in g.columns;
      && Id(e.addr, e.selfHash) in r.verts && var v := r.verts[Id(e.addr, e.selfHash)];
      && v.event == e
      && v.role == (if !there || g.columns[e.addr].chain == {} || ty == WITNESS then WITNESS else ty)
      && v.selfPt == (if there then g.columns[e.addr].verTop else None)
      && (v.anotherPt == if e.otherPartA != 0 && e.otherPartA in r.columns && e.otherPartH in r.columns[e.otherPartA].chain
                         then Some(Id(e.otherPartA, e.otherPartH)) else None)
      && r.requests == (if v.anotherPt.None? then g.requests + [Request(e.otherPartH, e.addr)] else g.requests)
      && r.selfEventCreated ==
           (if e.addr == g.coinbase && v.role == NORMAL then g.selfEventCreated + [Id(e.addr, e.selfHash)] else g.selfEventCreated)
      && r.roundTrigger == g.roundTrigger
  {
    hide Wf, WithColumns, LinkAll, Resolve, Filed, Comers;
    WithColumnsWf(g, e);
    ColumnsThere(g, e, e.addr);
    var h := WithColumns(g, e);
    assert h.columns[e.addr].chain == if e.addr in g.columns then g.columns[e.addr].chain else {};
    OneHash(h.columns[e.addr].chain, e.selfHash);
    var r := InsertStep(h, e, ty, e.addr !in g.columns);
    InsertVerts(h, e, ty, e.addr !in g.columns, r);
    InsertColumns(h, e, ty, e.addr !in g.columns, r);
  }

  // ---------------------------------------------------------------------------
  // Redelivery
  // ---------------------------------------------------------------------------

  /** An accepted event is known afterwards, and so are the columns it names. */
  lemma AcceptedKnown(g: Graph, e: Event, ty: int)
    requires Wf(g) && Fits(g, e)
    ensures var r := AddEventStep(g, e, ty, e.selfHash);
      Known(r, e) && IdOf(e) in r.verts && (e.otherPartA != NO_ADDRESS ==> e.otherPartA in r.columns)
  {
    hide Wf, InsertStep, WithColumns, LinkAll;
    WithColumnsWf(g, e);
    var g2, first := WithColumns(g, e), e.addr !in g.columns;
    if !Known(g2, e) {
      var r := InsertStep(g2, e, ty, first);
      InsertColumns(g2, e, ty, first, r);
      InsertVerts(g2, e, ty, first, r);
    }
  }

  /** A second delivery changes nothing, except that a witness is marked and triggers a round. */
  lemma Redelivered(g: Graph, e: Event, ty: int, again: int)
    requires Wf(g) && Fits(g, e)
    ensures var r := AddEventStep(g, e, ty, e.selfHash);
      && Wf(r) && Fits(r, e) && IdOf(e) in r.verts
      && AddEventStep(r, e, again, e.selfHash) ==
         if again != WITNESS then r
         else r.(verts := r.verts[IdOf(e) := r.verts[IdOf(e)].(role := WITNESS)], roundTrigger := r.roundTrigger + [IdOf(e)])
  {
    hide Wf, InsertStep;
    var r := AddEventStep(g, e, ty, e.selfHash);
    AddEventWf(g, e, ty, e.selfHash);
    AcceptedKnown(g, e, ty);
    assert WithColumns(r, e) == r;
    ColumnCount(r);
  }

  lemma ColumnCount(g: Graph)
    requires Wf(g)
    ensures |g.columns| <= MAX_NODE_COUNT
  {}
}
