/**
  * Rounds: what a round trigger does to the queue, and what every run of node
  * additions, event deliveries, witness marks and round triggers keeps.
  */
module Rounds {
  import opened Basics
  import opened Jigsaw

  /** Whether the vertex opens the next round. */
  predicate Opens(g: Graph, v: Vertex)
  {
    || (v.role == WITNESS_LOCAL && v.event.roundId == g.currentIdx)
    || (v.role == WITNESS && v.event.roundId == g.currentIdx + 1)
  }

  /** The round number is one shared big integer per alias set: all of them see it change. */
  function Renumber(verts: map<Id, Vertex>, ids: set<Id>, idx: int): (r: map<Id, Vertex>)
  {
    map v | v in verts :: if v in ids then verts[v].(event := verts[v].event.(roundId := idx)) else verts[v]
  }

  function OpenStep(g: Graph, ids: set<Id>): (r: Graph)
  {
    g.(currentIdx := g.currentIdx + 1,
       verts := Renumber(g.verts, ids, g.currentIdx + 1),
       queue := [NewRound(g.broadness, g.currentIdx + 1)] + g.queue)
  }

  /** The position of the round with this index, if any. */
  function Position(q: seq<Round>, roundId: int): (k: Option<nat>)
    ensures k.Some? ==> k.value < |q| && q[k.value].index == roundId && forall j | 0 <= j < k.value :: q[j].index != roundId
    ensures k.None? ==> forall j | 0 <= j < |q| :: q[j].index != roundId
  {
    if |q| == 0 then None
    else if q[0].index == roundId then Some(0)
    else var k := Position(q[1..], roundId); if k.Some? then Some(1 + k.value) else None
  }

  /** Every one of the round's columns has supplied its witness. */
  predicate Full(r: Round)
  {
    r.broadness <= |r.witnesses| && forall i | 0 <= i < r.broadness :: r.witnesses[i].Some?
  }

  function Seat(r: Round, v: Vertex): (s: Round)
    requires v.seqNum < |r.witnesses|
  {
    r.(witnesses := r.witnesses[v.seqNum := Some(IdOf(v.event))])
  }

  function SeatStep(g: Graph, id: Id, k: nat): (r: Graph)
    requires id in g.verts && k < |g.queue| && g.verts[id].seqNum < |g.queue[k].witnesses|
  {
    var s := Seat(g.queue[k], g.verts[id]);
    g.(queue := g.queue[k := s],
       consensusTrigger := if Full(s) then g.consensusTrigger + [s.index] else g.consensusTrigger)
  }

  /** One turn of RoundLoop on its round trigger. */
  function TriggerStep(g: Graph, id: Id, aliases: set<Id>): (r: Graph)
    requires Wf(g) && id in g.verts
  {
    OpenStepWf(g, aliases + {id});
    SeatTurn(if Opens(g, g.verts[id]) then OpenStep(g, aliases + {id}) else g, id)
  }

  /** The vertex takes its slot in its round, if the queue has that round. */
  function SeatTurn(g: Graph, id: Id): (r: Graph)
    requires Wf(g) && id in g.verts
  {
    match Position(g.queue, g.verts[id].event.roundId)
    case None => g
    case Some(k) => SeatFits(g, id, k); SeatStep(g, id, k)
  }

  lemma OpenStepWf(g: Graph, ids: set<Id>)
    requires Wf(g)
    ensures Wf(OpenStep(g, ids)) && Grown(g, OpenStep(g, ids))
  {
    hide Numbered, VertexOk, RoundOk, LostOnce;
    OpenVerts(g, ids);
    OpenQueue(g, ids);
    OpenGrown(g, ids);
  }

  lemma OpenVerts(g: Graph, ids: set<Id>)
    requires Wf(g)
    ensures VertsOk(g.columns, OpenStep(g, ids).verts)
    ensures RoundsOk(g.queue, OpenStep(g, ids).verts)
  {
    hide Numbered, Chains, QueueOk, LostOnce;
    var verts := OpenStep(g, ids).verts;
    forall x | x in verts ensures VertexOk(g.columns, verts, x) {
      assert VertexOk(g.columns, g.verts, x);
    }
    forall k | 0 <= k < |g.queue| ensures RoundOk(g.queue[k], verts) {
      assert RoundOk(g.queue[k], g.verts);
    }
  }

  lemma OpenQueue(g: Graph, ids: set<Id>)
    requires Wf(g)
    ensures QueueOk(OpenStep(g, ids).queue, OpenStep(g, ids).currentIdx)
    ensures RoundsOk(OpenStep(g, ids).queue, OpenStep(g, ids).verts)
    ensures LostOnce(OpenStep(g, ids).queue)
  {
    hide Numbered, Chains, VertsOk, Renumber;
    OpenVerts(g, ids);
    var r := OpenStep(g, ids);
    forall k | 0 <= k < |r.queue| ensures RoundOk(r.queue[k], r.verts) {
      if k > 0 { assert RoundOk(g.queue[k - 1], r.verts); }
    }
  }

  lemma OpenGrown(g: Graph, ids: set<Id>)
    ensures Grown(g, OpenStep(g, ids))
  {
    hide RoundGrown;
    RoundSelf(g.queue);
  }

  lemma SeatStepWf(g: Graph, id: Id, k: nat)
    requires Wf(g) && id in g.verts && k < |g.queue|
    ensures g.verts[id].seqNum < |g.queue[k].witnesses|
    ensures Wf(SeatStep(g, id, k)) && Grown(g, SeatStep(g, id, k))
  {
    hide Numbered, VertsOk, Chains;
    SeatFits(g, id, k);
    var r := SeatStep(g, id, k);
    forall j | 0 <= j < |r.queue| ensures RoundOk(r.queue[j], r.verts) {
      assert RoundOk(g.queue[j], g.verts);
    }
    assert |r.queue| == |g.queue|;
  }

  lemma SeatFits(g: Graph, id: Id, k: nat)
    requires Wf(g) && id in g.verts && k < |g.queue|
    ensures g.verts[id].seqNum < |g.queue[k].witnesses|
    ensures IdOf(g.verts[id].event) == id
  {
    assert VertexOk(g.columns, g.verts, id);
  }

  /** A round trigger keeps the graph well formed and empties no slot. */
  lemma TriggerWf(g: Graph, id: Id, aliases: set<Id>)
    requires Wf(g) && id in g.verts
    ensures Wf(TriggerStep(g, id, aliases)) && Grown(g, TriggerStep(g, id, aliases))
  {
    hide Wf, Grown, SeatStep, OpenStep, Position, Opens;
    var g1 := if Opens(g, g.verts[id]) then OpenStep(g, aliases + {id}) else g;
    OpenStepWf(g, aliases + {id});
    GrownSelf(g);
    OpenedKeys(g, aliases + {id});
    var p := Position(g1.queue, g1.verts[id].event.roundId);
    if p.Some? {
      SeatStepWf(g1, id, p.value);
      GrownTrans(g, g1, SeatStep(g1, id, p.value));
    }
  }

  /** Consensus is announced exactly when the triggered vertex's round exists and is full with it. */
  lemma TriggerFires(g: Graph, id: Id, aliases: set<Id>, r: Graph)
    requires Wf(g) && id in g.verts && r == TriggerStep(g, id, aliases)
    ensures id in r.verts
    ensures r.consensusTrigger == g.consensusTrigger || r.consensusTrigger == g.consensusTrigger + [r.verts[id].event.roundId]
    ensures r.consensusTrigger != g.consensusTrigger
       <==> exists k :: 0 <= k < |r.queue| && r.queue[k].index == r.verts[id].event.roundId
                        && r.queue[k].broadness <= |r.queue[k].witnesses|
                        && forall i | 0 <= i < r.queue[k].broadness :: r.queue[k].witnesses[i].Some?
  {
    hide Wf, Grown, Position, Opens;
    var g1 := if Opens(g, g.verts[id]) then OpenStep(g, aliases + {id}) else g;
    OpenStepWf(g, aliases + {id});
    var p := Position(g1.queue, g1.verts[id].event.roundId);
    RoundNumbers(g1);
    if p.Some? {
      SeatFits(g1, id, p.value);
      var s := Seat(g1.queue[p.value], g1.verts[id]);
      assert r.queue == g1.queue[p.value := s];
      forall k | 0 <= k < |r.queue| && r.queue[k].index == r.verts[id].event.roundId ensures k == p.value {
        assert g1.queue[k].index == g1.currentIdx - k;
      }
      assert r.consensusTrigger != g.consensusTrigger <==> Full(r.queue[p.value]);
    }
  }

  /**
    * What a trigger leaves: a vertex that opens a round is seated alone in the new front round; any other is
    * seated in the round it belongs to, if there is one; no other slot of any round changes, and no round
    * number but those of the opening vertex and its aliases.
    */
  lemma TriggerSeats(g: Graph, id: Id, aliases: set<Id>, r: Graph)
    requires Wf(g) && id in g.verts && r == TriggerStep(g, id, aliases)
    ensures var v := g.verts[id];
      Opens(g, v) <==> (v.role == WITNESS_LOCAL && v.event.roundId == g.currentIdx) || (v.role == WITNESS && v.event.roundId == g.currentIdx + 1)
    ensures id in r.verts && r.currentIdx == g.currentIdx + if Opens(g, g.verts[id]) then 1 else 0
    ensures Opens(g, g.verts[id]) ==>
      && |r.queue| == |g.queue| + 1 && r.verts[id].event.roundId == r.currentIdx && |r.queue[0].witnesses| == MAX_NODE_COUNT
      && forall i | 0 <= i < MAX_NODE_COUNT :: r.queue[0].witnesses[i] == if i == r.verts[id].seqNum then Some(id) else None
    ensures !Opens(g, g.verts[id]) ==> |r.queue| == |g.queue| && r.verts == g.verts
    ensures Opens(g, g.verts[id]) ==> r.verts.Keys == g.verts.Keys && forall x | x in g.verts ::
      if x in aliases + {id} then r.verts[x] == g.verts[x].(event := g.verts[x].event.(roundId := r.currentIdx)) else r.verts[x] == g.verts[x]
    ensures forall k: nat | k < |g.queue| :: SeatedAt(RoundNo(g.queue, k), RoundNo(r.queue, k), id, r.verts[id])
  {
    hide Wf, Grown, SeatTurn, SeatedAt;
    var g1 := if Opens(g, g.verts[id]) then OpenStep(g, aliases + {id}) else g;
    OpenStepWf(g, aliases + {id});
    Seats(g1, id, SeatTurn(g1, id));
    RoundNumbers(g);
    if Opens(g, g.verts[id]) {
      FrontSeat(g1, id, r);
      forall k: nat | k < |g.queue| ensures SeatedAt(RoundNo(g.queue, k), RoundNo(r.queue, k), id, r.verts[id]) {
        assert RoundNo(g1.queue, k) == RoundNo(g.queue, k);
      }
    }
  }

  lemma Seats(g: Graph, id: Id, r: Graph)
    requires Wf(g) && id in g.verts && r == SeatTurn(g, id)
    ensures r.verts == g.verts && r.currentIdx == g.currentIdx && |r.queue| == |g.queue|
    ensures forall k: nat | k < |g.queue| :: SeatedAt(RoundNo(g.queue, k), RoundNo(r.queue, k), id, g.verts[id])
  {
    hide Wf, Position, Full;
    var p := Position(g.queue, g.verts[id].event.roundId);
    RoundNumbers(g);
    SeatFits(g, id, 0);
    forall k: nat | k < |g.queue| ensures SeatedAt(RoundNo(g.queue, k), RoundNo(r.queue, k), id, g.verts[id]) {
      var n := |g.queue| - 1 - k;
      assert g.queue[n].index == g.currentIdx - n;
      if p.Some? { assert g.queue[p.value].index == g.currentIdx - p.value; }
    }
  }

  /** A new, empty front round that is the vertex's round seats the vertex alone. */
  lemma FrontSeat(g: Graph, id: Id, r: Graph)
    requires Wf(g) && id in g.verts && |g.queue| == |r.queue|
    requires g.queue[0].index == g.verts[id].event.roundId && g.queue[0].witnesses == seq(MAX_NODE_COUNT, _ => None)
    requires forall k: nat | k < |g.queue| :: SeatedAt(RoundNo(g.queue, k), RoundNo(r.queue, k), id, g.verts[id])
    ensures |r.queue| > 0 && |r.queue[0].witnesses| == MAX_NODE_COUNT
    ensures forall i | 0 <= i < MAX_NODE_COUNT :: r.queue[0].witnesses[i] == if i == g.verts[id].seqNum then Some(id) else None
  {
    hide Wf;
    RoundNumbers(g);
    var k := |g.queue| - 1;
    assert SeatedAt(RoundNo(g.queue, k), RoundNo(r.queue, k), id, g.verts[id]);
  }

  /** The state a turn leaves when it opens round idx for vertex id: the vertex sits alone in it and no older round changes. */
  ghost predicate Opened(g: Graph, r: Graph, id: Id, idx: int)
  {
    && r.currentIdx == idx && |r.queue| == |g.queue| + 1 && r.queue[1..] == g.queue
    && id in r.verts && r.verts[id].event.roundId == idx && r.queue[0].index == idx
    && |r.queue[0].witnesses| == 128
    && (forall i | 0 <= i < 128 :: r.queue[0].witnesses[i] == if i == r.verts[id].seqNum then Some(id) else None)
    && r.queue[0].lostDict == map[] && r.queue[0].newComer == []
  }

  lemma OpeningTurn(g: Graph, id: Id, aliases: set<Id>)
    requires Wf(g) && id in g.verts && Opens(g, g.verts[id])
    ensures Opened(g, TriggerStep(g, id, aliases), id, g.currentIdx + 1)
  {
    hide Wf, Grown, Opens, Full;
    OpenStepWf(g, aliases + {id});
    var g1 := OpenStep(g, aliases + {id});
    SeatFits(g, id, 0) by { RoundNumbers(g); }
    SeatFits(g1, id, 0);
    assert Position(g1.queue, g1.currentIdx) == Some(0);
  }

  /** A vertex of the current round that MonitorLoop marks opens the next round on its trigger and moves into it. */
  lemma LocalWitnessOpens(g: Graph, id: Id, aliases: set<Id>)
    requires Wf(g) && id in g.verts && g.verts[id].event.roundId == g.currentIdx
    ensures var m := MarkStep(g, id);
      && Wf(m) && id in m.verts && m.queue == g.queue && m.roundTrigger == g.roundTrigger + [id]
      && Opened(g, TriggerStep(m, id, aliases), id, g.currentIdx + 1)
  {
    hide Wf, Opened, TriggerStep;
    MarkWf(g, id);
    OpeningTurn(MarkStep(g, id), id, aliases);
    OpenedSame(MarkStep(g, id), g, TriggerStep(MarkStep(g, id), id, aliases), id, g.currentIdx + 1);
  }

  lemma OpenedSame(m: Graph, g: Graph, r: Graph, id: Id, idx: int)
    requires Opened(m, r, id, idx) && m.queue == g.queue
    ensures Opened(g, r, id, idx)
  {}

  /** A Witness of the round after the current one opens it. */
  lemma WitnessOpens(g: Graph, id: Id, aliases: set<Id>)
    requires Wf(g) && id in g.verts && g.verts[id].role == WITNESS && g.verts[id].event.roundId == g.currentIdx + 1
    ensures Opened(g, TriggerStep(g, id, aliases), id, g.currentIdx + 1)
  {
    hide Wf, Opened, TriggerStep;
    OpeningTurn(g, id, aliases);
  }

  /**
    * A Witness of any other round, and a WitnessLocal of a round that is not the current one, opens nothing: it takes
    * its column's slot in its own round if the queue has that round, and nothing else of the queue changes.
    */
  lemma LatecomerSeated(g: Graph, id: Id, aliases: set<Id>)
    requires Wf(g) && id in g.verts
    requires var v := g.verts[id];
      (v.role == WITNESS && v.event.roundId != g.currentIdx + 1) || (v.role == WITNESS_LOCAL && v.event.roundId != g.currentIdx)
    ensures var r, v := TriggerStep(g, id, aliases), g.verts[id];
      var k := g.currentIdx - v.event.roundId;
      && r.currentIdx == g.currentIdx && r.verts == g.verts && |r.queue| == |g.queue|
      && (v.event.roundId < 0 || v.event.roundId > g.currentIdx ==> r == g)
      && (0 <= v.event.roundId <= g.currentIdx ==>
            && g.queue[k].index == v.event.roundId && v.seqNum < |g.queue[k].witnesses|
            && r.queue == g.queue[k := g.queue[k].(witnesses := g.queue[k].witnesses[v.seqNum := Some(id)])])
  {
    hide Wf, Grown, Full;
    RoundNumbers(g);
    SeatFits(g, id, 0);
    var v := g.verts[id];
    var p := Position(g.queue, v.event.roundId);
    if p.Some? {
      assert g.queue[p.value].index == g.currentIdx - p.value;
      SeatFits(g, id, p.value);
    }
  }

  /** The round gets the vertex in its column's slot exactly if it is the vertex's round. */
  ghost predicate SeatedAt(q: Round, r: Round, id: Id, v: Vertex)
  {
    && |r.witnesses| == |q.witnesses| && v.seqNum < |q.witnesses|
    && r.witnesses == if q.index == v.event.roundId then q.witnesses[v.seqNum := Some(id)] else q.witnesses
  }

  lemma OpenedKeys(g: Graph, ids: set<Id>)
    ensures OpenStep(g, ids).verts.Keys == g.verts.Keys
  {}

  // ---------------------------------------------------------------------------
  // Runs
  // ---------------------------------------------------------------------------

  datatype Action =
    | Node(a: Address)                            // AddNode
    | Deliver(e: Event, ty: int, hash: Hash)      // AddEvent
    | Mark(id: Id)                                // MonitorLoop found a local witness
    | Trigger(id: Id, aliases: set<Id>)           // RoundLoop took a vertex from its channel

  /** No more than 128 columns; the monitor marks vertices of the graph, and the round loop takes vertices that were sent to it. */
  ghost predicate Enabled(g: Graph, act: Action)
  {
    match act
    case Node(a) => a in g.columns || |g.columns| < MAX_NODE_COUNT
    case Deliver(e, ty, hash) => Fits(g, e)
    case Mark(id) => id in g.verts
    case Trigger(id, aliases) => id in g.verts && id in g.roundTrigger
  }

  /** MonitorLoop found a local witness: its event is sent out, the vertex is marked and sent to the round loop. */
  function MarkStep(g: Graph, id: Id): (r: Graph)
    requires id in g.verts
  {
    g.(witnessL := g.witnessL + [g.verts[id].event],
       verts := g.verts[id := g.verts[id].(role := WITNESS_LOCAL)], roundTrigger := g.roundTrigger + [id])
  }

  function Apply(g: Graph, act: Action): (r: Graph)
    requires Wf(g) && Enabled(g, act)
  {
    match act
    case Node(a) => AddNodeStep(g, a)
    case Deliver(e, ty, hash) => AddEventStep(g, e, ty, hash)
    case Mark(id) => MarkStep(g, id)
    case Trigger(id, aliases) => TriggerStep(g, id, aliases)
  }

  ghost predicate Broad(g: Graph)
  {
    g.broadness <= MAX_NODE_COUNT && forall k | 0 <= k < |g.queue| :: g.queue[k].broadness == g.broadness
  }

  /** Every round that was announced as agreed exists and is full. */
  ghost predicate Agreed(g: Graph)
  {
    forall i | i in g.consensusTrigger :: 0 <= i < |g.queue| && Full(RoundNo(g.queue, i))
  }

  /** The vertex has been recognised as a witness, by a peer or by this node. */
  predicate IsWitness(v: Vertex) { v.role == WITNESS || v.role == WITNESS_LOCAL }

  ghost predicate SlotsMarked(r: Round, verts: map<Id, Vertex>)
  {
    forall i | 0 <= i < |r.witnesses| && r.witnesses[i].Some? :: r.witnesses[i].value in verts && IsWitness(verts[r.witnesses[i].value])
  }

  /** Every seated vertex and every vertex sent to the round loop is a witness. */
  ghost predicate Marked(g: Graph)
  {
    && (forall k | 0 <= k < |g.queue| :: SlotsMarked(g.queue[k], g.verts))
    && (forall id | id in g.roundTrigger :: id in g.verts && IsWitness(g.verts[id]))
  }

  ghost predicate RunInv(g: Graph) { Wf(g) && Broad(g) && Agreed(g) && Marked(g) }

  // ---------------------------------------------------------------------------
  // Only witnesses are seated or sent
  // ---------------------------------------------------------------------------

  /** No vertex loses its mark. */
  ghost predicate MarksKept(verts: map<Id, Vertex>, more: map<Id, Vertex>)
  {
    forall id | id in verts :: id in more && (IsWitness(verts[id]) ==> IsWitness(more[id]))
  }

  lemma SlotsKept(r: Round, verts: map<Id, Vertex>, more: map<Id, Vertex>)
    requires SlotsMarked(r, verts) && MarksKept(verts, more)
    ensures SlotsMarked(r, more)
  {}

  lemma AddNodeMarked(g: Graph, a: Address)
    requires Marked(g)
    ensures Marked(AddNodeStep(g, a))
  {
    hide SlotsMarked;
  }

  lemma RemarkMarked(g: Graph, id: Id, role: int, t: seq<Id>)
    requires Marked(g) && id in g.verts && (role == WITNESS || role == WITNESS_LOCAL) && t == g.roundTrigger + [id]
    ensures Marked(g.(verts := g.verts[id := g.verts[id].(role := role)], roundTrigger := t))
  {
    hide SlotsMarked;
    var verts := g.verts[id := g.verts[id].(role := role)];
    forall k | 0 <= k < |g.queue| ensures SlotsMarked(g.queue[k], verts) {
      SlotsKept(g.queue[k], g.verts, verts);
    }
  }

  /** A new event fills a slot only with itself, and only as a witness. */
  lemma InsertMarked(g: Graph, e: Event, ty: int, first: bool, r: Graph)
    requires Insertable(g, e) && Marked(g) && r == InsertStep(g, e, ty, first)
    ensures Marked(r)
  {
    hide Wf, InsertStep, Resolve, Filed, ParentOf, SlotsMarked, MakesWitness, Chained;
    InsertVerts(g, e, ty, first, r);
    InsertQueue(g, e, ty, first, r);
    InsertSent(g, e, ty, first, r);
    var n, v, wins := Resolve(g.queue, e.roundId), NewVertex(g, e, ty, first), MakesWitness(Chained(g.columns[e.addr], IdOf(e)), first, ty);
    ChainedNumber(g.columns[e.addr], IdOf(e));
    FiledSlots(g.queue[n], v, wins);
    forall k | 0 <= k < |r.queue| ensures SlotsMarked(r.queue[k], r.verts) {
      SlotsKept(g.queue[k], g.verts, r.verts);
      if k == n { SeatMarked(g.queue[n], r.queue[n], r.verts, v, wins); }
    }
  }

  lemma ChainedNumber(c: Column, id: Id)
    ensures Chained(c, id).seqNum == c.seqNum
  {}

  lemma SeatMarked(q: Round, r: Round, verts: map<Id, Vertex>, v: Vertex, wins: bool)
    requires SlotsMarked(q, verts) && v.seqNum < |q.witnesses|
    requires IdOf(v.event) in verts && verts[IdOf(v.event)] == v && (wins ==> IsWitness(v))
    requires r.witnesses == if wins then q.witnesses[v.seqNum := Some(IdOf(v.event))] else q.witnesses
    ensures SlotsMarked(r, verts)
  {}

  lemma InsertSent(g: Graph, e: Event, ty: int, first: bool, r: Graph)
    requires Insertable(g, e) && r == InsertStep(g, e, ty, first)
    ensures r.roundTrigger == g.roundTrigger
  {
    hide Wf, Resolve, Filed, LinkAll, NewVertex;
  }

  lemma DeliverMarked(g: Graph, e: Event, ty: int, hash: Hash)
    requires Wf(g) && Fits(g, e) && Marked(g)
    ensures Marked(AddEventStep(g, e, ty, hash))
  {
    hide Wf, Fits, Marked, InsertStep, AddNodeStep;
    if hash == e.selfHash {
      WithColumnsWf(g, e);
      AddNodeMarked(g, e.addr);
      AddNodeMarked(AddNodeStep(g, e.addr), e.otherPartA);
      var g2 := WithColumns(g, e);
      if !Known(g2, e) {
        InsertMarked(g2, e, ty, e.addr !in g.columns, InsertStep(g2, e, ty, e.addr !in g.columns));
      } else if ty == WITNESS {
        RemarkMarked(g2, IdOf(e), WITNESS, g2.roundTrigger + [IdOf(e)]);
      }
    }
  }

  lemma SentMarked(g: Graph, w: seq<Event>)
    requires Marked(g)
    ensures Marked(g.(witnessL := w))
  {}

  lemma OpenMarked(g: Graph, ids: set<Id>)
    requires Marked(g)
    ensures Marked(OpenStep(g, ids))
  {
    hide SlotsMarked;
    var r := OpenStep(g, ids);
    forall k | 0 <= k < |r.queue| ensures SlotsMarked(r.queue[k], r.verts) {
      if k == 0 { EmptySlots(g.broadness, g.currentIdx + 1, r.verts); } else { SlotsKept(g.queue[k - 1], g.verts, r.verts); }
    }
  }

  lemma EmptySlots(broadness: nat, index: int, verts: map<Id, Vertex>)
    ensures SlotsMarked(NewRound(broadness, index), verts)
  {}

  lemma SeatStepMarked(g: Graph, id: Id, k: nat)
    requires Marked(g) && id in g.roundTrigger && k < |g.queue| && id in g.verts && IdOf(g.verts[id].event) == id
    requires g.verts[id].seqNum < |g.queue[k].witnesses|
    ensures Marked(SeatStep(g, id, k))
  {
    hide SlotsMarked, Full;
    var r := SeatStep(g, id, k);
    forall j | 0 <= j < |r.queue| ensures SlotsMarked(r.queue[j], r.verts) {
      if j == k { SeatMarked(g.queue[k], r.queue[k], r.verts, g.verts[id], true); }
    }
  }

  /** Growing a graph without announcing anything keeps what was agreed. */
  lemma AgreedGrows(g: Graph, r: Graph)
    requires Agreed(g) && Grown(g, r) && r.consensusTrigger == g.consensusTrigger
    ensures Agreed(r)
  {
    forall i | i in r.consensusTrigger ensures 0 <= i < |r.queue| && Full(RoundNo(r.queue, i)) {
      FullGrows(RoundNo(g.queue, i), RoundNo(r.queue, i));
    }
  }

  lemma FullGrows(q: Round, r: Round)
    requires Full(q) && RoundGrown(q, r)
    ensures Full(r)
  {
    forall i | 0 <= i < r.broadness ensures r.witnesses[i].Some? {
      assert q.witnesses[i].Some?;
    }
  }

  lemma BroadGrows(g: Graph, r: Graph)
    requires Broad(g) && Grown(g, r) && |r.queue| == |g.queue|
    ensures Broad(r)
  {
    forall k | 0 <= k < |r.queue| ensures r.queue[k].broadness == r.broadness {
      var i := |g.queue| - 1 - k;
      assert RoundGrown(RoundNo(g.queue, i), RoundNo(r.queue, i));
    }
  }

  lemma DeliverQuiet(g: Graph, e: Event, ty: int, hash: Hash)
    requires Wf(g) && Fits(g, e)
    ensures AddEventStep(g, e, ty, hash).consensusTrigger == g.consensusTrigger
    ensures |AddEventStep(g, e, ty, hash).queue| == |g.queue|
  {
    hide Wf, InsertStep;
    if hash == e.selfHash {
      WithColumnsWf(g, e);
      var g2 := WithColumns(g, e);
      if !Known(g2, e) {
        var r := InsertStep(g2, e, ty, e.addr !in g.columns);
        InsertColumns(g2, e, ty, e.addr !in g.columns, r);
        InsertQueue(g2, e, ty, e.addr !in g.columns, r);
      }
    }
  }

  lemma OpenInv(g: Graph, ids: set<Id>)
    requires RunInv(g)
    ensures RunInv(OpenStep(g, ids))
  {
    hide Wf, Full, Grown, Marked;
    OpenStepWf(g, ids);
    OpenMarked(g, ids);
    AgreedGrows(g, OpenStep(g, ids));
  }

  lemma SeatInv(g: Graph, id: Id, k: nat)
    requires RunInv(g) && id in g.verts && id in g.roundTrigger && k < |g.queue|
    ensures g.verts[id].seqNum < |g.queue[k].witnesses|
    ensures RunInv(SeatStep(g, id, k))
  {
    hide Wf, Grown, Full, Marked;
    SeatStepWf(g, id, k);
    SeatFits(g, id, k);
    SeatStepMarked(g, id, k);
    var r := SeatStep(g, id, k);
    BroadGrows(g, r);
    AgreedGrows(g, r.(consensusTrigger := g.consensusTrigger)) by {
      SilencedGrown(g, r, g.consensusTrigger);
    }
    var s := Seat(g.queue[k], g.verts[id]);
    QueueNumber(g, k);
    if Full(s) {
      assert r.queue[k] == s && RoundNo(r.queue, s.index) == s;
    }
  }

  lemma SilencedGrown(g: Graph, r: Graph, c: seq<int>)
    requires Grown(g, r)
    ensures Grown(g, r.(consensusTrigger := c))
  {}

  lemma QueueNumber(g: Graph, k: nat)
    requires Wf(g) && k < |g.queue|
    ensures g.queue[k].index == |g.queue| - 1 - k
  {}

  /** Every step keeps the invariant and only grows the graph. */
  lemma ApplyInv(g: Graph, act: Action)
    requires RunInv(g) && Enabled(g, act)
    ensures RunInv(Apply(g, act)) && Grown(g, Apply(g, act))
  {
    hide Wf, Grown, Full, AddEventStep, SeatStep, OpenStep, Broad, Agreed, Marked;
    var r := Apply(g, act);
    match act {
      case Node(a) =>
        AddNodeWf(g, a);
        AddNodeGrown(g, a);
        AddNodeMarked(g, a);
        BroadGrows(g, r);
        AgreedGrows(g, r);
      case Deliver(e, ty, hash) =>
        AddEventWf(g, e, ty, hash);
        DeliverQuiet(g, e, ty, hash);
        DeliverMarked(g, e, ty, hash);
        BroadGrows(g, r);
        AgreedGrows(g, r);
      case Mark(id) =>
        MarkWf(g, id);
        RemarkMarked(g.(witnessL := r.witnessL), id, WITNESS_LOCAL, g.roundTrigger + [id]) by { SentMarked(g, r.witnessL); }
        BroadGrows(g, r);
        AgreedGrows(g, r);
      case Trigger(id, aliases) =>
        TriggerWf(g, id, aliases);
        TriggerInv(g, id, aliases);
    }
  }

  lemma MarkWf(g: Graph, id: Id)
    requires Wf(g) && id in g.verts
    ensures Wf(MarkStep(g, id)) && Grown(g, MarkStep(g, id))
  {
    hide Wf, Grown;
    RemarkWf(g, id, WITNESS_LOCAL);
    var m := g.(verts := g.verts[id := g.verts[id].(role := WITNESS_LOCAL)]);
    SentWf(m, g.roundTrigger + [id], g.witnessL + [g.verts[id].event]);
    SentGrown(g, m, g.roundTrigger + [id], g.witnessL + [g.verts[id].event]);
  }

  lemma TriggerInv(g: Graph, id: Id, aliases: set<Id>)
    requires RunInv(g) && id in g.verts && id in g.roundTrigger
    ensures RunInv(TriggerStep(g, id, aliases))
  {
    hide Wf, Grown, SeatStep, OpenStep, Position, Opens, Broad, Agreed, Marked;
    OpenedSent(g, aliases + {id});
    var g1 := if Opens(g, g.verts[id]) then OpenStep(g, aliases + {id}) else g;
    OpenInv(g, aliases + {id});
    OpenedKeys(g, aliases + {id});
    var p := Position(g1.queue, g1.verts[id].event.roundId);
    if p.Some? { SeatInv(g1, id, p.value); }
  }

  lemma OpenedSent(g: Graph, ids: set<Id>)
    ensures OpenStep(g, ids).roundTrigger == g.roundTrigger
  {}

  /** The graphs passed through by a run of actions on a new graph. */
  ghost predicate IsRun(gs: seq<Graph>, acts: seq<Action>)
  {
    && |gs| == |acts| + 1
    && (exists coinbase, broadness: nat :: broadness <= MAX_NODE_COUNT && gs[0] == NewGraph(coinbase, broadness))
    && (forall i | 0 <= i < |acts| :: IsStep(gs[i], acts[i], gs[i + 1]))
  }

  ghost predicate IsStep(g: Graph, act: Action, r: Graph)
  {
    Wf(g) && Enabled(g, act) && r == Apply(g, act)
  }

  lemma NewGraphInv(coinbase: Address, broadness: nat)
    requires broadness <= MAX_NODE_COUNT
    ensures RunInv(NewGraph(coinbase, broadness))
  {
    NewGraphWf(coinbase, broadness);
    assert Marked(NewGraph(coinbase, broadness));
  }

  /** In every run, every graph keeps the invariant and every later graph grows from every earlier one. */
  lemma {:induction false} RunSafe(gs: seq<Graph>, acts: seq<Action>, i: nat, j: nat)
    requires IsRun(gs, acts) && i <= j < |gs|
    ensures RunInv(gs[j]) && Grown(gs[i], gs[j])
    decreases j
  {
    hide RunInv, Grown, Apply, NewGraph;
    GrownSelf(gs[j]);
    if j == 0 {
      var coinbase, broadness: nat :| broadness <= MAX_NODE_COUNT && gs[0] == NewGraph(coinbase, broadness);
      NewGraphInv(coinbase, broadness);
    } else {
      RunSafe(gs, acts, if i < j then i else j - 1, j - 1);
      assert IsStep(gs[j - 1], acts[j - 1], gs[j]);
      ApplyInv(gs[j - 1], acts[j - 1]);
      if i < j { GrownTrans(gs[i], gs[j - 1], gs[j]); }
    }
  }

  // ---------------------------------------------------------------------------
  // What the invariant means
  // ---------------------------------------------------------------------------

  /** The columns that have supplied the first n witnesses of a round. */
  ghost function Suppliers(r: Round, n: nat): (s: set<Address>)
    requires n <= |r.witnesses|
  {
    set i | 0 <= i < n && r.witnesses[i].Some? :: r.witnesses[i].value.addr
  }

  /** Slot i only holds a vertex of the column numbered i. */
  lemma SlotColumn(g: Graph, k: nat, i: nat)
    requires Wf(g) && k < |g.queue| && i < |g.queue[k].witnesses| && g.queue[k].witnesses[i].Some?
    ensures g.queue[k].witnesses[i].value in g.verts
    ensures g.queue[k].witnesses[i].value.addr in g.columns
    ensures g.columns[g.queue[k].witnesses[i].value.addr].seqNum == i
  {
    hide Numbered, Chains, QueueOk, LostOnce;
    assert RoundOk(g.queue[k], g.verts);
    assert VertexOk(g.columns, g.verts, g.queue[k].witnesses[i].value);
  }

  lemma {:induction false} SuppliersDistinct(g: Graph, k: nat, n: nat)
    requires Wf(g) && k < |g.queue| && n <= |g.queue[k].witnesses|
    requires forall i | 0 <= i < n :: g.queue[k].witnesses[i].Some?
    ensures |Suppliers(g.queue[k], n)| == n
    ensures |set i | 0 <= i < n :: g.queue[k].witnesses[i].value.addr| == n
  {
    hide Wf;
    assert (set i | 0 <= i < n :: g.queue[k].witnesses[i].value.addr) == Suppliers(g.queue[k], n);
    if n > 0 {
      SuppliersDistinct(g, k, n - 1);
      var w := g.queue[k].witnesses;
      var fewer, last := Suppliers(g.queue[k], n - 1), w[n - 1].value.addr;
      assert Suppliers(g.queue[k], n) == fewer + {last};
      if last in fewer {
        var i :| 0 <= i < n - 1 && w[i].Some? && w[i].value.addr == last;
        SlotColumn(g, k, i);
        SlotColumn(g, k, n - 1);
        assert false;
      }
    }
  }

  /**
    * In every run: from the front the rounds are numbered currentIdx down to 0, slot i of every round holds
    * a witness of the column numbered i and is never emptied, only witnesses are sent to the round loop, and a
    * round was announced as agreed only if broadness different columns have each supplied a witness to it.
    */
  lemma RunTheorem(gs: seq<Graph>, acts: seq<Action>, i: nat, j: nat)
    requires IsRun(gs, acts) && i <= j < |gs|
    ensures |gs[j].queue| == gs[j].currentIdx + 1
    ensures forall k | 0 <= k < |gs[j].queue| :: gs[j].queue[k].index == gs[j].currentIdx - k
    ensures forall k, n | 0 <= k < |gs[j].queue| && 0 <= n < |gs[j].queue[k].witnesses| && gs[j].queue[k].witnesses[n].Some? ::
      gs[j].queue[k].witnesses[n].value in gs[j].verts && gs[j].verts[gs[j].queue[k].witnesses[n].value].role in {WITNESS, WITNESS_LOCAL} &&
      gs[j].queue[k].witnesses[n].value.addr in gs[j].columns &&
      gs[j].columns[gs[j].queue[k].witnesses[n].value.addr].seqNum == n
    ensures forall id | id in gs[j].roundTrigger :: id in gs[j].verts && gs[j].verts[id].role in {WITNESS, WITNESS_LOCAL}
    ensures forall k | 0 <= k < |gs[j].queue| :: |gs[j].queue[k].witnesses| == 128
    ensures |gs[i].queue| <= |gs[j].queue|
    ensures forall x: nat | x < |gs[i].queue| :: RoundGrown(RoundNo(gs[i].queue, x), RoundNo(gs[j].queue, x))
    ensures forall x | x in gs[j].consensusTrigger ::
      0 <= x < |gs[j].queue| && gs[j].broadness <= |RoundNo(gs[j].queue, x).witnesses| &&
      |Suppliers(RoundNo(gs[j].queue, x), gs[j].broadness)| == gs[j].broadness
  {
    hide IsRun, Grown, Wf, Numbered, Chains, LostOnce, RoundGrown, Suppliers;
    RunSafe(gs, acts, i, j);
    RoundNumbers(gs[j]);
    RoundsKept(gs[i], gs[j]);
    var g := gs[j];
    forall k, n | 0 <= k < |g.queue| && 0 <= n < |g.queue[k].witnesses| && g.queue[k].witnesses[n].Some?
      ensures g.queue[k].witnesses[n].value in g.verts && IsWitness(g.verts[g.queue[k].witnesses[n].value])
      ensures g.queue[k].witnesses[n].value.addr in g.columns && g.columns[g.queue[k].witnesses[n].value.addr].seqNum == n
    {
      assert SlotsMarked(g.queue[k], g.verts);
      SlotColumn(g, k, n);
    }
    forall x | x in g.consensusTrigger
      ensures 0 <= x < |g.queue| && g.broadness <= |RoundNo(g.queue, x).witnesses| &&
        |Suppliers(RoundNo(g.queue, x), g.broadness)| == g.broadness
    {
      SuppliersDistinct(g, |g.queue| - 1 - x, g.broadness);
    }
  }

  lemma RoundNumbers(g: Graph)
    requires Wf(g)
    ensures |g.queue| == g.currentIdx + 1 > 0
    ensures forall k | 0 <= k < |g.queue| :: g.queue[k].index == g.currentIdx - k && |g.queue[k].witnesses| == MAX_NODE_COUNT
  {}

  lemma RoundsKept(g: Graph, r: Graph)
    requires Grown(g, r)
    ensures |g.queue| <= |r.queue|
    ensures forall i: nat | i < |g.queue| :: RoundGrown(RoundNo(g.queue, i), RoundNo(r.queue, i))
  {}
}
