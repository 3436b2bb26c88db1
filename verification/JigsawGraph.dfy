/**
  * The graph as the program holds it: an object whose fields AddNode, AddEvent
  * and the round loop update in place, proved to take the steps of Jigsaw and
  * Rounds.
  */
module JigsawGraph {
  import opened Basics
  import opened Jigsaw
  import opened Rounds

  class JPGraph {
    const coinbase: Address
    const broadness: nat
    var graph: map<Address, Column>
    var superMajority: int
    var verts: map<Id, Vertex>
    var queue: seq<Round>
    var currentIdx: int
    var requests: seq<Request>
    var roundTrigger: seq<Id>
    var selfEventCreated: seq<Id>
    var consensusTrigger: seq<int>
    var witnessL: seq<Event>

    ghost function State(): (g: Graph)
      reads this
    {
      Graph(coinbase, broadness, graph, superMajority, verts, queue, currentIdx,
        requests, roundTrigger, selfEventCreated, consensusTrigger, witnessL)
    }

    constructor (coinbase: Address, broadness: nat)
      ensures State() == NewGraph(coinbase, broadness)
      ensures Wf(State())
    {
      this.coinbase, this.broadness := coinbase, broadness;
      graph, superMajority, verts := map[], 0, map[];
      queue, currentIdx := [NewRound(broadness, 0)], 0;
      requests, roundTrigger, selfEventCreated, consensusTrigger, witnessL := [], [], [], [], [];
      new;
      var _ := AddNode(coinbase);
      NewGraphWf(coinbase, broadness);
    }

    method AddNode(a: Address) returns (cl: Column)
      modifies this`graph, this`superMajority
      ensures State() == AddNodeStep(old(State()), a)
      ensures a in graph && cl == graph[a]
    {
      if a in graph { return graph[a]; }
      var mlen := |graph|;
      cl := Column({}, None, mlen);
      graph := graph[a := cl];
      superMajority := (mlen + 1) * 2 / 3;
    }

    /** The loop over the queue: stops at the matching round, else ends on the last one. */
    method FindRound(roundId: int) returns (k: nat)
      requires |queue| > 0
      ensures k == Resolve(queue, roundId)
    {
      k := 0;
      while k < |queue| - 1 && queue[k].index != roundId
        invariant k < |queue|
        invariant forall j | 0 <= j < k :: queue[j].index != roundId
      {
        k := k + 1;
      }
    }

    /** Every waiting vertex learns its parent. */
    method LinkWaiting(ids: seq<Id>, to: Id)
      requires forall id | id in ids :: id in verts
      modifies this`verts
      ensures verts == LinkAll(old(verts), ids, to)
    {
      for i := 0 to |ids|
        invariant verts.Keys == old(verts).Keys
        invariant forall id | id in verts ::
          verts[id] == if id in ids[..i] then old(verts)[id].(anotherPt := Some(to)) else old(verts)[id]
      {
        assert ids[i] in ids;
        assert forall id :: id in ids[..i + 1] <==> id in ids[..i] || id == ids[i];
        verts := verts[ids[i] := verts[ids[i]].(anotherPt := Some(to))];
      }
      assert ids[..|ids|] == ids;
    }

    /** addComer: a request with the hash is listed once. */
    method AddComer(k: nat, rqa: Request)
      requires k < |queue|
      modifies this`queue
      ensures queue == old(queue)[k := old(queue)[k].(newComer := Comers(old(queue)[k].newComer, rqa))]
    {
      var comers := queue[k].newComer;
      for i := 0 to |comers|
        invariant queue == old(queue)
        invariant forall j | 0 <= j < i :: comers[j].targetHash != rqa.targetHash
      {
        if comers[i].targetHash == rqa.targetHash {
          assert Comers(comers, rqa) == comers;
          assert queue == queue[k := queue[k].(newComer := comers)];
          return;
        }
      }
      queue := queue[k := queue[k].(newComer := comers + [rqa])];
    }

    /** Files a vertex under its round: witness slot, newcomers, and both sides of the lost dictionary. */
    method File(k: nat, v: Vertex, wins: bool)
      requires k < |queue| && v.seqNum < |queue[k].witnesses|
      requires forall id | id in Waiting(queue[k], v.event.selfHash) :: id in verts
      modifies this`queue, this`verts
      ensures queue == old(queue)[k := Filed(old(queue)[k], v, wins)]
      ensures verts == LinkAll(old(verts), Waiting(old(queue)[k], v.event.selfHash), IdOf(v.event))
    {
      hide Comers;
      var id := IdOf(v.event);
      if wins { queue := queue[k := queue[k].(witnesses := queue[k].witnesses[v.seqNum := Some(id)])]; }
      AddComer(k, Request(id.hash, id.addr));
      var d := queue[k].lostDict;
      if id.hash in d {
        LinkWaiting(d[id.hash], id);
        d := d - {id.hash};
      } else {
        assert verts == LinkAll(verts, [], id);
        assert d == d - {id.hash};
      }
      if v.anotherPt.None? {
        if v.event.otherPartH !in d { d := d[v.event.otherPartH := []]; }
        d := d[v.event.otherPartH := d[v.event.otherPartH] + [id]];
      }
      assert d == Filed(old(queue)[k], v, wins).lostDict;
      queue := queue[k := queue[k].(lostDict := d)];
      assert queue[k] == Filed(old(queue)[k], v, wins);
    }

    /** The new vertex of an event, put on top of its column and linked to a parent that is already there. */
    method Place(e: Event, ty: int) returns (v: Vertex)
      requires e.addr in graph && (e.otherPartA != NO_ADDRESS ==> e.otherPartA in graph)
      modifies this`graph
      ensures graph == old(graph)[e.addr := Chained(old(graph)[e.addr], IdOf(e))]
      ensures v == Vertex(e, ty, ParentOf(graph, e), old(graph)[e.addr].verTop, old(graph)[e.addr].seqNum)
    {
      var col := graph[e.addr];
      v := Vertex(e, ty, None, col.verTop, col.seqNum);
      graph := graph[e.addr := col.(chain := col.chain + {e.selfHash}, verTop := Some(IdOf(e)))];
      if e.otherPartA != NO_ADDRESS && e.otherPartH in graph[e.otherPartA].chain {
        v := v.(anotherPt := Some(Id(e.otherPartA, e.otherPartH)));
      }
    }

    method Insert(e: Event, ty: int, first: bool)
      requires Insertable(State(), e)
      modifies this
      ensures State() == InsertStep(old(State()), e, ty, first)
    {
      hide Wf, Filed, LinkAll, Resolve, Chained, ParentOf;
      ghost var g := State();
      InsertableReady(g, e);
      WaitersPresent(g, e);
      var id := IdOf(e);
      var v := Place(e, ty);
      if v.anotherPt.None? { requests := requests + [Request(e.otherPartH, e.addr)]; }
      var k := FindRound(e.roundId);
      var wins := MakesWitness(graph[e.addr], first, ty);
      if wins { v := v.(role := WITNESS); }
      ChainedNumber(g.columns[e.addr], id);
      verts := verts[id := v];
      File(k, v, wins);
      if e.addr == coinbase && v.role == NORMAL { selfEventCreated := selfEventCreated + [id]; }
    }

    /** AddEvent; the error result is an event whose hash does not match its content. */
    method AddEvent(e: Event, ty: int, hash: Hash) returns (ok: bool)
      requires Wf(State()) && Fits(State(), e)
      modifies this
      ensures State() == AddEventStep(old(State()), e, ty, hash)
      ensures Wf(State()) && Grown(old(State()), State())
      ensures ok == (hash == e.selfHash) && (!ok ==> State() == old(State()))
    {
      hide Wf, Grown, InsertStep, AddNodeStep;
      ghost var g := State();
      AddEventWf(g, e, ty, hash);
      if hash != e.selfHash { return false; }
      WithColumnsWf(g, e);
      var first := e.addr !in graph;
      var col := AddNode(e.addr);
      if e.otherPartA != NO_ADDRESS { var _ := AddNode(e.otherPartA); }
      var id := IdOf(e);
      if e.selfHash in graph[e.addr].chain {
        if ty == WITNESS {
          verts := verts[id := verts[id].(role := WITNESS)];
          roundTrigger := roundTrigger + [id];
        }
        return true;
      }
      Insert(e, ty, first);
      return true;
    }

    /** MonitorLoop's last step: the event goes out, the vertex becomes a local witness and goes to the round loop. */
    method MarkLocal(id: Id)
      requires Wf(State()) && id in verts
      modifies this`witnessL, this`verts, this`roundTrigger
      ensures State() == MarkStep(old(State()), id) && Wf(State())
      ensures witnessL == old(witnessL) + [old(verts)[id].event] && roundTrigger == old(roundTrigger) + [id]
      ensures verts == old(verts)[id := old(verts)[id].(role := WITNESS_LOCAL)]
    {
      hide Wf;
      MarkWf(State(), id);
      witnessL := witnessL + [verts[id].event];
      verts := verts[id := verts[id].(role := WITNESS_LOCAL)];
      roundTrigger := roundTrigger + [id];
    }

    /** Seats a witness and announces consensus if its round is now full. */
    method SeatWitness(k: nat, id: Id)
      requires Wf(State()) && Broad(State()) && k < |queue| && id in verts
      modifies this`queue, this`consensusTrigger
      ensures verts[id].seqNum < |old(queue)[k].witnesses|
      ensures State() == SeatStep(old(State()), id, k)
    {
      hide Wf;
      SeatFits(State(), id, k);
      RoundNumbers(State());
      var round := queue[k].(witnesses := queue[k].witnesses[verts[id].seqNum := Some(id)]);
      queue := queue[k := round];
      var idx := 0;
      while idx < round.broadness && round.witnesses[idx].Some?
        invariant idx <= round.broadness
        invariant forall j | 0 <= j < idx :: round.witnesses[j].Some?
      {
        idx := idx + 1;
      }
      if idx == round.broadness { consensusTrigger := consensusTrigger + [round.index]; }
    }

    /** RoundLoop's search for the vertex's round, and what it does there. */
    method SeatInRound(id: Id)
      requires Wf(State()) && Broad(State()) && id in verts
      modifies this`queue, this`consensusTrigger
      ensures State() == SeatTurn(old(State()), id)
    {
      hide Wf, SeatStep, Broad;
      var roundId := verts[id].event.roundId;
      var k := 0;
      while k < |queue| && queue[k].index != roundId
        invariant k <= |queue| && State() == old(State())
        invariant forall j | 0 <= j < k :: queue[j].index != roundId
      {
        k := k + 1;
      }
      if k < |queue| { SeatWitness(k, id); }
    }

    /** RoundLoop's turn when a vertex arrives on its round trigger; aliases share the vertex's round number. */
    method RoundTurn(id: Id, aliases: set<Id>)
      requires Wf(State()) && Broad(State()) && id in verts
      modifies this
      ensures State() == TriggerStep(old(State()), id, aliases)
      ensures Wf(State()) && Grown(old(State()), State())
    {
      hide Wf, Grown, SeatTurn, Renumber;
      ghost var g := State();
      TriggerWf(g, id, aliases);
      OpenStepWf(g, aliases + {id});
      OpenedKeys(g, aliases + {id});
      var vert := verts[id];
      if (vert.role == WITNESS_LOCAL && vert.event.roundId == currentIdx) ||
         (vert.role == WITNESS && vert.event.roundId == currentIdx + 1) {
        currentIdx := currentIdx + 1;
        verts := Renumber(verts, aliases + {id}, currentIdx);
        queue := [NewRound(broadness, currentIdx)] + queue;
      }
      SeatInRound(id);
    }
  }
}
