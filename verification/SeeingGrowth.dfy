/**
  * How seeing behaves as the graph grows, and why two supermajorities overlap.
  */
module SeeingGrowth {
  import opened Basics
  import opened Jigsaw
  import opened Search
  import opened Seeing

  /** Every graph that AddEvent and the round loop build can be searched. */
  lemma Searchable(g: Graph)
    requires Wf(g)
    ensures Closed(g.verts) && Indexed(g.verts, |g.columns|)
  {
    hide LostOnce, QueueOk, RoundsOk;
    forall id | id in g.verts
      ensures g.verts[id].seqNum < |g.columns|
      ensures g.verts[id].selfPt.Some? ==> g.verts[id].selfPt.value in g.verts
      ensures g.verts[id].anotherPt.Some? ==> g.verts[id].anotherPt.value in g.verts
    {
      assert VertexOk(g.columns, g.verts, id);
    }
  }

  /** Links may appear, but no link, column or stop changes. */
  ghost predicate Extends(verts: map<Id, Vertex>, more: map<Id, Vertex>)
  {
    forall id | id in verts ::
      && id in more && more[id].seqNum == verts[id].seqNum && more[id].role == verts[id].role
      && (verts[id].selfPt.Some? ==> more[id].selfPt == verts[id].selfPt)
      && (verts[id].anotherPt.Some? ==> more[id].anotherPt == verts[id].anotherPt)
  }

  lemma NewEventExtends(g: Graph, x: Event, ty: int, first: bool, r: Graph)
    requires Insertable(g, x) && r == InsertStep(g, x, ty, first)
    ensures Extends(g.verts, r.verts)
  {
    hide Resolve, InsertStep, Numbered, VertsOk, Chains, LostOnce, QueueOk;
    InsertVerts(g, x, ty, first, r);
    assert RoundOk(g.queue[Resolve(g.queue, x.roundId)], g.verts);
  }

  lemma PathKept(verts: map<Id, Vertex>, more: map<Id, Vertex>, e: Id, p: seq<Id>)
    requires Extends(verts, more) && WhitePath(verts, verts.Keys, e, p)
    ensures WhitePath(more, more.Keys, e, p)
  {
    forall i: nat | i < |p| - 1 ensures StepAt(more, e, p, i) {
      assert StepAt(verts, e, p, i);
    }
  }

  lemma MetGrows(verts: map<Id, Vertex>, more: map<Id, Vertex>, s: Id, e: Id)
    requires Extends(verts, more)
    ensures Met(verts, verts.Keys, s, e) <= Met(more, more.Keys, s, e)
  {
    forall t | t in ReachSet(verts, verts.Keys, e, s) ensures t in ReachSet(more, more.Keys, e, s) {
      var p :| WhitePath(verts, verts.Keys, e, p) && p[0] == s && p[|p| - 1] == t;
      PathKept(verts, more, e, p);
    }
  }

  /**
    * With colours clear, a new event never makes an existing vertex stop seeing another; and it never ends a
    * strong-see unless it brings a new column, which raises the threshold.
    */
  lemma SeeingKept(g: Graph, x: Event, ty: int, s: Id, e: Id, r: Graph)
    requires Wf(g) && Fits(g, x) && !Known(g, x) && s in g.verts && e in g.verts
    requires r == AddEventStep(g, x, ty, x.selfHash)
    ensures e in r.verts
    ensures Sees(g.verts, g.verts.Keys, s, e) ==> Sees(r.verts, r.verts.Keys, s, e)
    ensures |Met(g.verts, g.verts.Keys, s, e)| <= |Met(r.verts, r.verts.Keys, s, e)|
    ensures r.columns.Keys == g.columns.Keys && |Met(g.verts, g.verts.Keys, s, e)| >= g.superMajority
       ==> |Met(r.verts, r.verts.Keys, s, e)| >= r.superMajority
  {
    hide Wf, InsertStep, Met, Extends, WithColumns;
    WithColumnsWf(g, x);
    var g2, first := WithColumns(g, x), x.addr !in g.columns;
    NewEventExtends(g2, x, ty, first, r);
    ExtendsAt(g.verts, r.verts, e);
    MetGrows(g.verts, r.verts, s, e);
    SubsetSize(Met(g.verts, g.verts.Keys, s, e), Met(r.verts, r.verts.Keys, s, e));
    AddEventWf(g, x, ty, x.selfHash);
    if r.columns.Keys == g.columns.Keys { SameMajority(g, r); }
  }

  lemma ExtendsAt(verts: map<Id, Vertex>, more: map<Id, Vertex>, e: Id)
    requires Extends(verts, more) && e in verts
    ensures e in more && more[e].seqNum == verts[e].seqNum
  {}

  lemma SameMajority(g: Graph, r: Graph)
    requires Wf(g) && Wf(r) && g.columns.Keys == r.columns.Keys
    ensures g.superMajority == r.superMajority
  {
    hide Numbered, VertsOk, Chains, LostOnce, QueueOk, RoundsOk;
    assert |g.columns| == |g.columns.Keys| && |r.columns| == |r.columns.Keys|;
  }

  /** Two sets of witness columns that both pass the `> superMajority` test share more than a third of the columns. */
  lemma MajoritiesOverlap(g: Graph, a: set<nat>, b: set<nat>)
    requires Wf(g)
    requires forall i | i in a + b :: i < |g.columns|
    requires |a| > g.superMajority && |b| > g.superMajority
    ensures 3 * |a * b| > |g.columns|
  {
    hide Numbered, VertsOk, Chains, LostOnce, QueueOk, RoundsOk;
    var n := |g.columns|;
    assert |a + b| == |a| + |b| - |a * b|;
    Bounded(a + b, n);
  }

  lemma {:induction false} Bounded(s: set<nat>, n: nat)
    requires forall i | i in s :: i < n
    ensures |s| <= n
  {
    if n == 0 {
      assert s == {};
    } else {
      Bounded(s - {n - 1}, n - 1);
    }
  }
}
