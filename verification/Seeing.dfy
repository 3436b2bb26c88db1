/**
  * The search as the program runs it, colouring vertices and filling a trace
  * in place, and the see / strong-see judgement.
  */
module Seeing {
  import opened Basics
  import opened Jigsaw
  import opened JigsawGraph
  import opened Search

  const WHITE := 0
  const GREY := 1
  const BLACK := 2

  /** The columns of a set of vertices. */
  ghost function Columns(verts: map<Id, Vertex>, seen: set<Id>): (s: set<nat>)
  {
    set t | t in seen && t in verts :: verts[t].seqNum
  }

  ghost predicate Indexed(verts: map<Id, Vertex>, n: nat)
  {
    forall id | id in verts :: verts[id].seqNum < n
  }

  /** trace is before, with the columns of seen set to 1. */
  ghost predicate Traced(before: seq<int>, after: seq<int>, columns: set<nat>)
  {
    |after| == |before| && forall i | 0 <= i < |before| :: after[i] == if i in columns then 1 else before[i]
  }

  lemma TracedTwice(a: seq<int>, b: seq<int>, c: seq<int>, s: set<nat>, t: set<nat>)
    requires Traced(a, b, s) && Traced(b, c, t)
    ensures Traced(a, c, s + t)
  {}

  lemma ColumnsUnion(verts: map<Id, Vertex>, s: set<Id>, t: set<Id>)
    ensures Columns(verts, s + t) == Columns(verts, s) + Columns(verts, t)
  {}

  // Colours, per vertex and colour cluster; a vertex starts out white.
  type Colors = map<(Id, nat), nat>

  function Look(color: Colors, id: Id, c: nat): (k: nat)
  {
    if (id, c) in color then color[(id, c)] else WHITE
  }

  ghost function WhiteIn(verts: map<Id, Vertex>, color: Colors, c: nat): (s: set<Id>)
  {
    set id | id in verts && Look(color, id, c) == WHITE
  }

  /** The vertices a search that saw `seen` leaves black. */
  ghost function Blackened(verts: map<Id, Vertex>, e: Id, seen: set<Id>): (s: set<Id>)
  {
    set id | id in seen && !Stops(verts, e, id)
  }

  /** after is before, with the vertices of s black in cluster c. */
  ghost predicate Painted(before: Colors, after: Colors, c: nat, s: set<Id>)
  {
    forall id, k :: Look(after, id, k) == if k == c && id in s then BLACK else Look(before, id, k)
  }

  lemma NothingPainted(color: Colors, c: nat, verts: map<Id, Vertex>, e: Id)
    ensures Painted(color, color, c, Blackened(verts, e, {}))
  {}

  lemma StopUnpainted(color: Colors, c: nat, verts: map<Id, Vertex>, e: Id, u: Id)
    requires Stops(verts, e, u)
    ensures Painted(color, color, c, Blackened(verts, e, {u}))
  {}

  lemma GreyWhite(verts: map<Id, Vertex>, color: Colors, c: nat, u: Id)
    ensures WhiteIn(verts, color[(u, c) := GREY], c) == WhiteIn(verts, color, c) - {u}
  {}

  lemma PaintedWhite(verts: map<Id, Vertex>, before: Colors, after: Colors, c: nat, e: Id, seen: set<Id>)
    requires Painted(before, after, c, Blackened(verts, e, seen))
    ensures WhiteIn(verts, after, c) == Uncoloured(verts, WhiteIn(verts, before, c), e, seen)
    ensures |WhiteIn(verts, after, c)| <= |WhiteIn(verts, before, c)|
  {
    var w, w' := WhiteIn(verts, before, c), WhiteIn(verts, after, c);
    assert w == w' + (w - w');
  }

  /** u turns grey, its links are visited, and u turns black. */
  lemma PaintedVisit(verts: map<Id, Vertex>, before: Colors, mid: Colors, after: Colors, c: nat, e: Id, u: Id, seen0: set<Id>, seen1: set<Id>)
    requires !Stops(verts, e, u)
    requires Painted(before[(u, c) := GREY], mid, c, Blackened(verts, e, seen0))
    requires Painted(mid, after, c, Blackened(verts, e, seen1))
    ensures Painted(before, after[(u, c) := BLACK], c, Blackened(verts, e, {u} + seen0 + seen1))
  {
    var black := Blackened(verts, e, {u} + seen0 + seen1);
    assert black == {u} + Blackened(verts, e, seen0) + Blackened(verts, e, seen1);
    hide Stops, Blackened;
    var grey, end := before[(u, c) := GREY], after[(u, c) := BLACK];
    forall id, k ensures Look(end, id, k) == if k == c && id in black then BLACK else Look(before, id, k) {
      assert Look(after, id, k) == if k == c && id in Blackened(verts, e, seen1) then BLACK else Look(mid, id, k);
      assert Look(mid, id, k) == if k == c && id in Blackened(verts, e, seen0) then BLACK else Look(grey, id, k);
    }
  }

  class RoundManager {
    const jp: JPGraph
    var color: Colors

    constructor (jp: JPGraph)
      ensures this.jp == jp && color == map[]
    {
      this.jp, color := jp, map[];
    }

    /** dfsVisit: marks in trace the columns of everything reachable from s through white vertices. */
    method DfsVisit(trace: array<int>, s: Option<Id>, e: Id, c: nat) returns (ghost seen: set<Id>)
      requires Closed(jp.verts) && Indexed(jp.verts, trace.Length) && (s.Some? ==> s.value in jp.verts)
      modifies this`color, trace
      ensures seen == if s.Some? then ReachSet(jp.verts, WhiteIn(jp.verts, old(color), c), e, s.value) else {}
      ensures Traced(old(trace[..]), trace[..], Columns(jp.verts, seen))
      ensures Painted(old(color), color, c, Blackened(jp.verts, e, seen))
      decreases |WhiteIn(jp.verts, color, c) - (if s.Some? then {s.value} else {})|, 2
    {
      hide ReachSet, Closed, Columns, Traced, BothLinks, Painted, Blackened, WhiteIn;
      if s.None? {
        NothingTraced(trace[..], jp.verts);
        NothingPainted(color, c, jp.verts, e);
        return {};
      }
      var u, v := s.value, jp.verts[s.value];
      ghost var verts, white, before := jp.verts, WhiteIn(jp.verts, color, c), trace[..];
      MarkOne(verts, u, trace[..]);
      if u == e || v.role == WITNESS {
        trace[v.seqNum] := 1;
        ReachStops(verts, white, e, u);
        StopUnpainted(color, c, verts, e, u);
        return {u};
      }
      GreyWhite(verts, color, c, u);
      color := color[(u, c) := GREY];
      trace[v.seqNum] := 1;
      ghost var trace0 := trace[..];
      ghost var seen0, mid, seen1 := VisitLinks(trace, u, e, c);
      PaintedVisit(verts, old(color), mid, color, c, e, u, seen0, seen1);
      color := color[(u, c) := BLACK];
      VisitReaches(verts, white, e, u);
      BothLinksAre(verts, white, e, u, seen0, seen1);
      seen := {u} + (seen0 + seen1);
      assert seen == {u} + seen0 + seen1;
      TracedTwice(before, trace0, trace[..], Columns(verts, {u}), Columns(verts, seen0 + seen1));
      ColumnsUnion(verts, {u}, seen0 + seen1);
    }

    /** dfsVisit's loop over the two links of u, which is grey. */
    method VisitLinks(trace: array<int>, u: Id, e: Id, c: nat) 
      returns (ghost seen0: set<Id>, ghost mid: Colors, ghost seen1: set<Id>)
      requires Closed(jp.verts) && Indexed(jp.verts, trace.Length) && u in jp.verts && !Stops(jp.verts, e, u)
      modifies this`color, trace
      ensures seen0 == Through(jp.verts, WhiteIn(jp.verts, old(color), c), e, jp.verts[u].selfPt)
      ensures seen1 == Through(jp.verts, Uncoloured(jp.verts, WhiteIn(jp.verts, old(color), c), e, seen0), e, jp.verts[u].anotherPt)
      ensures Traced(old(trace[..]), trace[..], Columns(jp.verts, seen0 + seen1))
      ensures Painted(old(color), mid, c, Blackened(jp.verts, e, seen0))
      ensures Painted(mid, color, c, Blackened(jp.verts, e, seen1))
      decreases |WhiteIn(jp.verts, color, c)|, 1
    {
      hide ReachSet, Closed, Columns, Traced, Painted, Blackened, WhiteIn, Uncoloured, Through;
      var v := jp.verts[u];
      ghost var verts, trace0, color0 := jp.verts, trace[..], color;
      LinksIn(verts, u);
      seen0 := VisitLink(trace, v.selfPt, e, c);
      ghost var trace1 := trace[..];
      mid := color;
      PaintedWhite(verts, color0, mid, c, e, seen0);
      seen1 := VisitLink(trace, v.anotherPt, e, c);
      TracedTwice(trace0, trace1, trace[..], Columns(verts, seen0), Columns(verts, seen1));
      ColumnsUnion(verts, seen0, seen1);
    }

    /** The loop's body. */
    method VisitLink(trace: array<int>, u: Option<Id>, e: Id, c: nat) returns (ghost seen: set<Id>)
      requires Closed(jp.verts) && Indexed(jp.verts, trace.Length) && (u.Some? ==> u.value in jp.verts)
      modifies this`color, trace
      ensures seen == Through(jp.verts, WhiteIn(jp.verts, old(color), c), e, u)
      ensures Traced(old(trace[..]), trace[..], Columns(jp.verts, seen))
      ensures Painted(old(color), color, c, Blackened(jp.verts, e, seen))
      decreases |WhiteIn(jp.verts, color, c)|, 0
    {
      hide ReachSet, Closed, Columns, Traced, Painted, Blackened;
      if u.Some? && Look(color, u.value, c) == WHITE {
        assert u.value in WhiteIn(jp.verts, color, c);
        seen := DfsVisit(trace, u, e, c);
      } else {
        NothingTraced(trace[..], jp.verts);
        NothingPainted(color, c, jp.verts, e);
        seen := {};
      }
    }

    /**
      * JudgeSee: s sees e if the search meets e's column, and strongly if it meets superMajority columns.
      */
    method JudgeSee(s: Option<Id>, e: Option<Id>, c: nat) returns (see: int, strongsee: bool)
      requires Closed(jp.verts) && Indexed(jp.verts, jp.broadness)
      requires (s.Some? ==> s.value in jp.verts) && (e.Some? ==> e.value in jp.verts)
      modifies this`color
      ensures s.None? || e.None? ==> see == 0 && !strongsee && color == old(color)
      ensures s.Some? && e.Some? ==>
        && see == (if Sees(jp.verts, WhiteIn(jp.verts, old(color), c), s.value, e.value) then 1 else 0)
        && Painted(old(color), color, c, Blackened(jp.verts, e.value, ReachSet(jp.verts, WhiteIn(jp.verts, old(color), c), e.value, s.value)))
        && strongsee == (|Met(jp.verts, WhiteIn(jp.verts, old(color), c), s.value, e.value)| >= jp.superMajority)
      ensures s.Some? && e.Some? ==>
        var reached := ReachSet(jp.verts, WhiteIn(jp.verts, old(color), c), e.value, s.value);
        && (see == 1 <==> exists t :: t in reached && jp.verts[t].seqNum == jp.verts[e.value].seqNum)
        && (strongsee <==> |set t | t in reached :: jp.verts[t].seqNum| >= jp.superMajority)
        && forall id, k :: Look(color, id, k) == if k == c && id in reached && id != e.value && jp.verts[id].role != WITNESS
                                                 then 2 else Look(old(color), id, k)
    {
      hide ReachSet, Closed, WhiteIn, Painted;
      var trace := new int[jp.broadness](_ => 0);
      if s.None? || e.None? { return 0, false; }
      ghost var met := Met(jp.verts, WhiteIn(jp.verts, color, c), s.value, e.value);
      ghost var seen := DfsVisit(trace, s, e.value, c);
      assert Columns(jp.verts, seen) == met;
      see, strongsee := 0, false;
      if trace[jp.verts[e.value].seqNum] == 1 { see := 1; }
      var total := 0;
      ghost var painted := color;
      for i := 0 to trace.Length
        invariant color == painted
        invariant forall j | 0 <= j < trace.Length :: trace[j] == if j in met then 1 else 0
        invariant total == |Below(met, i)|
      {
        BelowNext(met, i);
        total := total + trace[i];
      }
      BelowAll(met, trace.Length);
      if total >= jp.superMajority { strongsee := true; }
      MetIs(jp.verts, WhiteIn(jp.verts, old(color), c), s.value, e.value);
      PaintedIs(jp.verts, WhiteIn(jp.verts, old(color), c), old(color), color, c, s.value, e.value);
    }
  }

  /** The columns the search from s for e meets. */
  ghost function Met(verts: map<Id, Vertex>, white: set<Id>, s: Id, e: Id): (r: set<nat>)
  {
    Columns(verts, ReachSet(verts, white, e, s))
  }

  ghost predicate Sees(verts: map<Id, Vertex>, white: set<Id>, s: Id, e: Id)
    requires e in verts
  {
    verts[e].seqNum in Met(verts, white, s, e)
  }

  lemma MetIs(verts: map<Id, Vertex>, white: set<Id>, s: Id, e: Id)
    requires e in verts
    ensures var reached := ReachSet(verts, white, e, s);
            && (Sees(verts, white, s, e) <==> exists t :: t in reached && verts[t].seqNum == verts[e].seqNum)
            && Met(verts, white, s, e) == set t | t in reached :: verts[t].seqNum
  {
    hide Reaches;
  }

  lemma PaintedIs(verts: map<Id, Vertex>, white: set<Id>, before: Colors, after: Colors, c: nat, s: Id, e: Id)
    requires Painted(before, after, c, Blackened(verts, e, ReachSet(verts, white, e, s)))
    ensures var reached := ReachSet(verts, white, e, s);
            forall id, k :: Look(after, id, k) == if k == c && id in reached && id != e && verts[id].role != WITNESS
                                                  then 2 else Look(before, id, k)
  {
    hide Reaches;
  }

  ghost function Below(s: set<nat>, n: nat): (r: set<nat>)
  {
    set i | i in s && i < n
  }

  lemma BelowNext(s: set<nat>, n: nat)
    ensures |Below(s, n + 1)| == |Below(s, n)| + if n in s then 1 else 0
  {
    assert Below(s, n + 1) == Below(s, n) + if n in s then {n} else {};
  }

  lemma BelowAll(s: set<nat>, n: nat)
    requires forall i | i in s :: i < n
    ensures Below(s, n) == s
  {}

  lemma NothingTraced(t: seq<int>, verts: map<Id, Vertex>)
    ensures Traced(t, t, Columns(verts, {}))
  {}

  lemma MarkOne(verts: map<Id, Vertex>, u: Id, t: seq<int>)
    requires u in verts && verts[u].seqNum < |t|
    ensures Traced(t, t[verts[u].seqNum := 1], Columns(verts, {u}))
  {}

  lemma LinksIn(verts: map<Id, Vertex>, u: Id)
    requires Closed(verts) && u in verts
    ensures verts[u].selfPt.Some? ==> verts[u].selfPt.value in verts
    ensures verts[u].anotherPt.Some? ==> verts[u].anotherPt.value in verts
  {}

  lemma BothLinksAre(verts: map<Id, Vertex>, white: set<Id>, e: Id, u: Id, seen0: set<Id>, seen1: set<Id>)
    requires u in verts
    requires seen0 == Through(verts, white - {u}, e, verts[u].selfPt)
    requires seen1 == Through(verts, Uncoloured(verts, white - {u}, e, seen0), e, verts[u].anotherPt)
    ensures BothLinks(verts, white, e, u) == seen0 + seen1
  {}
}
