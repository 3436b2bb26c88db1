/**
  * Seeing: the coloured depth-first search over the link graph, which may be
  * cyclic, and the see / strong-see judgement built on it.
  */
module Search {
  import opened Basics
  import opened Jigsaw

  // ---------------------------------------------------------------------------
  // Reachability
  // ---------------------------------------------------------------------------

  ghost predicate Closed(verts: map<Id, Vertex>)
  {
    forall id | id in verts ::
      && (verts[id].selfPt.Some? ==> verts[id].selfPt.value in verts)
      && (verts[id].anotherPt.Some? ==> verts[id].anotherPt.value in verts)
  }

  predicate Edge(verts: map<Id, Vertex>, u: Id, v: Id)
  {
    u in verts && (verts[u].selfPt == Some(v) || verts[u].anotherPt == Some(v))
  }

  /** The search does not look behind the target or a witness. */
  predicate Stops(verts: map<Id, Vertex>, e: Id, u: Id)
  {
    u == e || (u in verts && verts[u].role == WITNESS)
  }

  /** A path whose vertices after the first are white and whose vertices before the last do not stop. */
  ghost predicate WhitePath(verts: map<Id, Vertex>, white: set<Id>, e: Id, p: seq<Id>)
  {
    && |p| > 0
    && (forall i | 0 <= i < |p| :: p[i] in verts)
    && (forall i | 0 < i < |p| :: p[i] in white)
    && (forall i: nat | i < |p| - 1 :: StepAt(verts, e, p, i))
  }

  ghost predicate StepAt(verts: map<Id, Vertex>, e: Id, p: seq<Id>, i: nat)
    requires i < |p| - 1
  {
    !Stops(verts, e, p[i]) && Edge(verts, p[i], p[i + 1])
  }

  ghost predicate Reaches(verts: map<Id, Vertex>, white: set<Id>, e: Id, s: Id, t: Id)
  {
    exists p :: WhitePath(verts, white, e, p) && p[0] == s && p[|p| - 1] == t
  }

  ghost function ReachSet(verts: map<Id, Vertex>, white: set<Id>, e: Id, s: Id): (r: set<Id>)
  {
    set t | t in verts && Reaches(verts, white, e, s, t)
  }

  lemma ReachSelf(verts: map<Id, Vertex>, white: set<Id>, e: Id, s: Id)
    requires s in verts
    ensures s in ReachSet(verts, white, e, s)
  {
    assert WhitePath(verts, white, e, [s]);
  }

  /** One step more at the end of a path. */
  lemma ReachAppend(verts: map<Id, Vertex>, white: set<Id>, e: Id, s: Id, u: Id, v: Id)
    requires u in ReachSet(verts, white, e, s) && !Stops(verts, e, u) && Edge(verts, u, v) && v in white && v in verts
    ensures v in ReachSet(verts, white, e, s)
  {
    var p :| WhitePath(verts, white, e, p) && p[0] == s && p[|p| - 1] == u;
    var q := p + [v];
    forall i: nat | i < |q| - 1 ensures StepAt(verts, e, q, i) {
      if i < |p| - 1 { assert StepAt(verts, e, p, i); }
    }
    assert WhitePath(verts, white, e, q);
    assert q[0] == s && q[|q| - 1] == v;
  }

  /** One step more in front of a path, with more white vertices. */
  lemma ReachPrepend(verts: map<Id, Vertex>, white: set<Id>, fewer: set<Id>, e: Id, s: Id, u: Id, t: Id)
    requires t in ReachSet(verts, fewer, e, u) && fewer <= white
    requires s in verts && u in white && !Stops(verts, e, s) && Edge(verts, s, u)
    ensures t in ReachSet(verts, white, e, s)
  {
    var p :| WhitePath(verts, fewer, e, p) && p[0] == u && p[|p| - 1] == t;
    var q := [s] + p;
    forall i: nat | i < |q| - 1 ensures StepAt(verts, e, q, i) {
      if i > 0 { assert StepAt(verts, e, p, i - 1); }
    }
    assert WhitePath(verts, white, e, q);
    assert q[0] == s && q[|q| - 1] == t;
  }

  /** A set that holds s and that no step leaves holds everything reachable from s. */
  lemma {:induction false} ClosedHolds(verts: map<Id, Vertex>, white: set<Id>, e: Id, p: seq<Id>, k: nat, T: set<Id>)
    requires WhitePath(verts, white, e, p) && k < |p| && p[0] in T
    requires forall u, v | u in T && !Stops(verts, e, u) && Edge(verts, u, v) && v in white && v in verts :: v in T
    ensures p[k] in T
  {
    if k > 0 {
      ClosedHolds(verts, white, e, p, k - 1, T);
      assert StepAt(verts, e, p, k - 1);
    }
  }

  /** The target and a Witness reach only themselves. */
  lemma ReachStops(verts: map<Id, Vertex>, white: set<Id>, e: Id, s: Id)
    requires s in verts && (s == e || verts[s].role == WITNESS)
    ensures ReachSet(verts, white, e, s) == {s}
  {
    ReachSelf(verts, white, e, s);
    forall t | t in ReachSet(verts, white, e, s) ensures t == s {
      var p :| WhitePath(verts, white, e, p) && p[0] == s && p[|p| - 1] == t;
      ClosedHolds(verts, white, e, p, |p| - 1, {s});
    }
  }

  /** Every other vertex, a WitnessLocal included, lets the search through to each of its two links that is white. */
  lemma ReachPasses(verts: map<Id, Vertex>, white: set<Id>, e: Id, s: Id, u: Id, v: Id)
    requires u in ReachSet(verts, white, e, s) && u != e && verts[u].role != WITNESS
    requires (verts[u].selfPt == Some(v) || verts[u].anotherPt == Some(v)) && v in white && v in verts
    ensures v in ReachSet(verts, white, e, s)
  {
    ReachAppend(verts, white, e, s, u, v);
  }

  /** Nothing else is reached: any set that holds s and the white links of whatever lets the search through holds all of it. */
  lemma ReachLeast(verts: map<Id, Vertex>, white: set<Id>, e: Id, s: Id, T: set<Id>)
    requires s in T
    requires forall u, v | u in T && u in verts && u != e && verts[u].role != WITNESS
                           && (verts[u].selfPt == Some(v) || verts[u].anotherPt == Some(v)) && v in white && v in verts :: v in T
    ensures ReachSet(verts, white, e, s) <= T
  {
    forall t | t in ReachSet(verts, white, e, s) ensures t in T {
      var p :| WhitePath(verts, white, e, p) && p[0] == s && p[|p| - 1] == t;
      ClosedHolds(verts, white, e, p, |p| - 1, T);
    }
  }

  /** What a visit to a white link adds. */
  ghost function Through(verts: map<Id, Vertex>, white: set<Id>, e: Id, u: Option<Id>): (r: set<Id>)
  {
    if u.Some? && u.value in white then ReachSet(verts, white, e, u.value) else {}
  }

  /** The vertices a visit leaves uncoloured. */
  ghost function Uncoloured(verts: map<Id, Vertex>, white: set<Id>, e: Id, seen: set<Id>): (r: set<Id>)
  {
    set u | u in white && (u in seen ==> Stops(verts, e, u))
  }

  /** What both links of a vertex, visited one after the other, lead to. */
  ghost function BothLinks(verts: map<Id, Vertex>, white: set<Id>, e: Id, s: Id): (r: set<Id>)
    requires s in verts
  {
    var white0 := white - {s};
    var seen0 := Through(verts, white0, e, verts[s].selfPt);
    var white1 := Uncoloured(verts, white0, e, seen0);
    seen0 + Through(verts, white1, e, verts[s].anotherPt)
  }

  lemma ThroughClosed(verts: map<Id, Vertex>, white: set<Id>, e: Id, x: Option<Id>, u: Id, v: Id)
    requires u in Through(verts, white, e, x) && !Stops(verts, e, u) && Edge(verts, u, v) && v in white && v in verts
    ensures v in Through(verts, white, e, x)
  {
    ReachAppend(verts, white, e, x.value, u, v);
  }

  lemma ThroughStart(verts: map<Id, Vertex>, white: set<Id>, e: Id, x: Option<Id>)
    requires x.Some? && x.value in white && x.value in verts
    ensures x.value in Through(verts, white, e, x)
  {
    ReachSelf(verts, white, e, x.value);
  }

  lemma NoStepLeaves(verts: map<Id, Vertex>, white: set<Id>, e: Id, s: Id, u: Id, v: Id)
    requires s in verts && Closed(verts)
    requires u in {s} + BothLinks(verts, white, e, s) && !Stops(verts, e, u) && Edge(verts, u, v) && v in white && v in verts
    ensures v in {s} + BothLinks(verts, white, e, s)
  {
    hide Through, Closed;
    var white0 := white - {s};
    var x0, x1 := verts[s].selfPt, verts[s].anotherPt;
    var seen0 := Through(verts, white0, e, x0);
    var white1 := Uncoloured(verts, white0, e, seen0);
    if v != s {
      if u == s {
        if x0 == Some(v) { ThroughStart(verts, white0, e, x0); }
        else if v in white1 { ThroughStart(verts, white1, e, x1); }
      } else if u in seen0 {
        ThroughClosed(verts, white0, e, x0, u, v);
      } else if v in white1 {
        ThroughClosed(verts, white1, e, x1, u, v);
      }
    }
  }

  /** The search's recursion: colouring s and then visiting its white links in turn reaches what s reaches. */
  lemma VisitReaches(verts: map<Id, Vertex>, white: set<Id>, e: Id, s: Id)
    requires s in verts && Closed(verts) && !Stops(verts, e, s)
    ensures ReachSet(verts, white, e, s) == {s} + BothLinks(verts, white, e, s)
  {
    hide Closed;
    var T := {s} + BothLinks(verts, white, e, s);
    forall u, v | u in T && !Stops(verts, e, u) && Edge(verts, u, v) && v in white && v in verts ensures v in T {
      NoStepLeaves(verts, white, e, s, u, v);
    }
    forall t | t in ReachSet(verts, white, e, s) ensures t in T {
      var p :| WhitePath(verts, white, e, p) && p[0] == s && p[|p| - 1] == t;
      ClosedHolds(verts, white, e, p, |p| - 1, T);
    }
    forall t | t in T ensures t in ReachSet(verts, white, e, s) {
      LinksReached(verts, white, e, s, t);
    }
  }

  lemma LinksReached(verts: map<Id, Vertex>, white: set<Id>, e: Id, s: Id, t: Id)
    requires s in verts && !Stops(verts, e, s) && t in {s} + BothLinks(verts, white, e, s)
    ensures t in ReachSet(verts, white, e, s)
  {
    hide ReachSet, Stops;
    var white0 := white - {s};
    var x0, x1 := verts[s].selfPt, verts[s].anotherPt;
    var seen0 := Through(verts, white0, e, x0);
    var white1 := Uncoloured(verts, white0, e, seen0);
    if t == s { ReachSelf(verts, white, e, s); }
    else if t in seen0 { ReachPrepend(verts, white, white0, e, s, x0.value, t); }
    else { ReachPrepend(verts, white, white1, e, s, x1.value, t); }
  }

  // ---------------------------------------------------------------------------
  // Reaching the target and reaching its column
  // ---------------------------------------------------------------------------

  lemma {:induction false} FollowPath(verts: map<Id, Vertex>, white: set<Id>, e: Id, s: Id, p: seq<Id>, k: nat)
    requires WhitePath(verts, white, e, p) && k < |p| && p[0] in ReachSet(verts, white, e, s)
    ensures p[k] in ReachSet(verts, white, e, s)
  {
    if k > 0 {
      FollowPath(verts, white, e, s, p, k - 1);
      assert StepAt(verts, e, p, k - 1);
      ReachAppend(verts, white, e, s, p[k - 1], p[k]);
    }
  }

  /** Reaching is transitive, as long as the middle vertex may be left. */
  lemma ReachTrans(verts: map<Id, Vertex>, white: set<Id>, e: Id, s: Id, t: Id, u: Id)
    requires t in ReachSet(verts, white, e, s) && u in ReachSet(verts, white, e, t)
    ensures u in ReachSet(verts, white, e, s)
  {
    var p :| WhitePath(verts, white, e, p) && p[0] == t && p[|p| - 1] == u;
    FollowPath(verts, white, e, s, p, |p| - 1);
  }
}
