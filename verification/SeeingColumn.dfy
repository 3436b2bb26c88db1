/**
  * See is judged by column: when that is the same as reaching the target, and a
  * history of deliveries after which it is not.
  */
module SeeingColumn {
  import opened Basics
  import opened Jigsaw
  import opened JigsawOrder
  import opened JigsawArrival
  import opened Search
  import opened Seeing

  /**
    * With colours clear, seeing e means reaching e, from wherever one looks, if and only if every vertex of e's
    * own column reaches e.
    */
  lemma SeeIsReachIff(verts: map<Id, Vertex>, e: Id)
    requires e in verts
    ensures (forall s | s in verts :: Sees(verts, verts.Keys, s, e) <==> e in ReachSet(verts, verts.Keys, e, s))
       <==> (forall t | t in verts && verts[t].seqNum == verts[e].seqNum :: e in ReachSet(verts, verts.Keys, e, t))
  {
    hide ReachSet;
    var white := verts.Keys;
    forall s | s in verts && e in ReachSet(verts, white, e, s) ensures Sees(verts, white, s, e) {}
    if forall t | t in verts && verts[t].seqNum == verts[e].seqNum :: e in ReachSet(verts, white, e, t) {
      forall s | s in verts && Sees(verts, white, s, e) ensures e in ReachSet(verts, white, e, s) {
        var t :| t in ReachSet(verts, white, e, s) && t in verts && verts[t].seqNum == verts[e].seqNum;
        ReachTrans(verts, white, e, s, t, e);
      }
    } else {
      var t :| t in verts && verts[t].seqNum == verts[e].seqNum && e !in ReachSet(verts, white, e, t);
      ReachSelf(verts, white, e, t);
      assert Sees(verts, white, t, e);
    }
  }

  // Two events in column 1, and two in column 2, the second of which has the older one of column 1 as its parent.
  const OLDER := Delivery(Event(1, 0, 1, 1, 0, NO_ADDRESS, 0), NORMAL)
  const NEWER := Delivery(Event(2, 1, 2, 1, 0, NO_ADDRESS, 0), NORMAL)
  const OPENER := Delivery(Event(3, 0, 3, 2, 0, NO_ADDRESS, 0), NORMAL)
  const SEER := Delivery(Event(4, 3, 4, 2, 1, 1, 0), NORMAL)

  const HISTORY := [OLDER, NEWER, OPENER, SEER]

  lemma HistoryFits(g: Graph)
    requires g.columns.Keys == {1}
    ensures Room(g, HISTORY) && Distinct(HISTORY)
  {
    hide Addresses;
    HistoryAddresses();
    SubsetSize(g.columns.Keys + Addresses(HISTORY), {1, 2});
  }

  lemma HistoryAddresses()
    ensures Addresses(HISTORY) <= {1, 2} && |{1, 2}| == 2
  {
    forall a | a in Addresses(HISTORY) ensures a in {1, 2} {
      var i :| 0 <= i < |HISTORY| && (a == HISTORY[i].e.addr || (HISTORY[i].e.otherPartA != NO_ADDRESS && a == HISTORY[i].e.otherPartA));
      assert HISTORY[i] in HISTORY;
    }
  }

  lemma HistoryArrivals()
    ensures HISTORY[..1] == [OLDER] && HISTORY[..2] == [OLDER, NEWER] && HISTORY[..3] == [OLDER, NEWER, OPENER]
    ensures Arrivals([OLDER, NEWER], 2) == []
    ensures Arrivals([OLDER, NEWER, OPENER], 2) == [IdOf(OPENER.e)]
    ensures Arrivals(HISTORY, 2) == [IdOf(OPENER.e), IdOf(SEER.e)]
  {
    hide Arrivals;
    NoArrivals(2);
    ArrivalsNext([], OLDER, 2);
    ArrivalsNext([OLDER], NEWER, 2);
    ArrivalsNext([OLDER, NEWER], OPENER, 2);
    ArrivalsNext([OLDER, NEWER, OPENER], SEER, 2);
    assert [] + [OLDER] == [OLDER] && [OLDER] + [NEWER] == [OLDER, NEWER];
    assert [OLDER, NEWER] + [OPENER] == [OLDER, NEWER, OPENER] && [OLDER, NEWER, OPENER] + [SEER] == HISTORY;
  }

  lemma NoArrivals(a: Address)
    ensures Arrivals([], a) == []
  {}

  lemma HistoryRoles(r: Graph)
    requires RolesRead(r, HISTORY)
    ensures IdOf(OLDER.e) in r.verts && IdOf(OPENER.e) in r.verts && IdOf(SEER.e) in r.verts
    ensures r.verts[IdOf(OLDER.e)].role == WITNESS && r.verts[IdOf(OPENER.e)].role == WITNESS && r.verts[IdOf(SEER.e)].role == NORMAL
  {
    hide Arrivals;
    HistoryArrivals();
    NoArrivals(1);
    assert HISTORY[..4] == HISTORY;
    assert [OLDER][..0] == [] && [OLDER, NEWER, OPENER][..2] == [OLDER, NEWER] && HISTORY[..3] == [OLDER, NEWER, OPENER];
    assert RoleOf(HISTORY[..0 + 1]) == WITNESS;
    assert RoleOf(HISTORY[..2 + 1]) == WITNESS;
    assert RoleOf(HISTORY[..3 + 1]) == NORMAL;
    assert r.verts[IdOf(HISTORY[0].e)].role == RoleOf(HISTORY[..0 + 1]);
    assert r.verts[IdOf(HISTORY[2].e)].role == RoleOf(HISTORY[..2 + 1]);
    assert r.verts[IdOf(HISTORY[3].e)].role == RoleOf(HISTORY[..3 + 1]);
  }

  /** The seer's self-parent is the opener of its column. */
  lemma SeerBelow(r: Graph)
    requires ColumnsRead(r, HISTORY) && 2 in r.columns
    ensures IdOf(SEER.e) in r.verts && r.verts[IdOf(SEER.e)].selfPt == Some(IdOf(OPENER.e))
  {
    hide Arrivals;
    HistoryArrivals();
    var ids := [IdOf(OPENER.e), IdOf(SEER.e)];
    assert SelfChain(r.verts, r.columns[2].verTop, ids);
    assert ids[..1] == [IdOf(OPENER.e)];
  }

  /** What the search from the seer for the newer event finds: nothing behind the two witnesses. */
  lemma SeerReaches(verts: map<Id, Vertex>)
    requires forall d | d in HISTORY :: IdOf(d.e) in verts
    requires verts[IdOf(SEER.e)].role == NORMAL
    requires verts[IdOf(OLDER.e)].role == WITNESS && verts[IdOf(OPENER.e)].role == WITNESS
    requires verts[IdOf(SEER.e)].selfPt == Some(IdOf(OPENER.e)) && verts[IdOf(SEER.e)].anotherPt == Some(IdOf(OLDER.e))
    ensures IdOf(OLDER.e) in ReachSet(verts, verts.Keys, IdOf(NEWER.e), IdOf(SEER.e))
    ensures IdOf(NEWER.e) !in ReachSet(verts, verts.Keys, IdOf(NEWER.e), IdOf(SEER.e))
  {
    var older, newer, opener, seer := IdOf(OLDER.e), IdOf(NEWER.e), IdOf(OPENER.e), IdOf(SEER.e);
    assert OLDER in HISTORY && SEER in HISTORY;
    var white := verts.Keys;
    ReachSelf(verts, white, newer, seer);
    ReachAppend(verts, white, newer, seer, seer, older);
    if newer in ReachSet(verts, white, newer, seer) {
      var p :| WhitePath(verts, white, newer, p) && p[0] == seer && p[|p| - 1] == newer;
      ClosedHolds(verts, white, newer, p, |p| - 1, {seer, opener, older});
      assert false;
    }
  }

  lemma HistoryColumns(r: Graph)
    requires Wf(r) && IdOf(OLDER.e) in r.verts && IdOf(NEWER.e) in r.verts && IdOf(SEER.e) in r.verts
    ensures 2 in r.columns && r.verts[IdOf(OLDER.e)].seqNum == r.verts[IdOf(NEWER.e)].seqNum
  {
    hide Numbered, Chains, QueueOk, RoundsOk, LostOnce;
    assert VertexOk(r.columns, r.verts, IdOf(OLDER.e));
    assert VertexOk(r.columns, r.verts, IdOf(NEWER.e));
    assert VertexOk(r.columns, r.verts, IdOf(SEER.e));
  }

  /** After this history on a new graph, the seer sees the newer event and does not reach it. */
  lemma SeesByColumn()
    ensures var g := NewGraph(1, 2);
      && Wf(g) && Room(g, HISTORY)
      && var verts := Deliver(g, HISTORY).verts;
      && IdOf(NEWER.e) in verts && Sees(verts, verts.Keys, IdOf(SEER.e), IdOf(NEWER.e))
      && IdOf(NEWER.e) !in ReachSet(verts, verts.Keys, IdOf(NEWER.e), IdOf(SEER.e))
  {
    hide Wf, Room, Distinct, Deliver, NewGraph, Fresh, ReachSet, RolesRead, ColumnsRead, RoundsRead, Asked, Created, LinksOk, LostExact, After, Resolve;
    var g := NewGraph(1, 2);
    NewGraphUntouched(1, 2);
    NewGraphFresh(1, 2);
    HistoryFits(g);
    RoundsExist(g);
    var r := Deliver(g, HISTORY);
    DeliverRead(g, HISTORY);
    DeliverOutcome(g, HISTORY);
    HistoryRoles(r);
    HistoryStored(r);
    HistoryColumns(r);
    SeerBelow(r);
    LinkOf(g, HISTORY, r, 3, 0);
    SeerReaches(r.verts);
  }

  lemma HistoryStored(r: Graph)
    requires Inv(r, HISTORY)
    ensures Wf(r) && forall d | d in HISTORY :: IdOf(d.e) in r.verts
    ensures IdOf(NEWER.e) in r.verts
  {
    hide Wf, LinksOk, LostExact, Resolve;
    assert NEWER in HISTORY;
  }
}
