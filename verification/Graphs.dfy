/** Directed graphs with numbered nodes, as daggy and petgraph provide them: paths, and acyclicity through
    ranks that grow along every edge. */
module Graphs {
  datatype Arc<W> = Arc(src: nat, dst: nat, weight: W)

  datatype Graph<N, W> = Graph(nodes: seq<N>, arcs: seq<Arc<W>>)

  ghost predicate InRange<N, W>(g: Graph<N, W>) {
    forall a :: a in g.arcs ==> a.src < |g.nodes| && a.dst < |g.nodes|
  }

  ghost predicate Linked<N, W>(g: Graph<N, W>, a: nat, b: nat) {
    exists arc :: arc in g.arcs && arc.src == a && arc.dst == b
  }

  ghost predicate IsPath<N, W>(g: Graph<N, W>, p: seq<nat>) {
    forall i :: 0 <= i < |p| - 1 ==> Linked(g, p[i], p[i + 1])
  }

  ghost predicate PathFrom<N, W>(g: Graph<N, W>, p: seq<nat>, a: nat, b: nat) {
    2 <= |p| && p[0] == a && p[|p| - 1] == b && IsPath(g, p)
  }

  /** Is there a path of at least one edge from a to b? */
  ghost predicate Reaches<N, W>(g: Graph<N, W>, a: nat, b: nat) {
    exists p: seq<nat> :: PathFrom(g, p, a, b)
  }

  ghost predicate Ranked<N, W>(g: Graph<N, W>, rank: seq<nat>) {
    && InRange(g) && |rank| == |g.nodes|
    && forall a :: a in g.arcs ==> rank[a.src] < rank[a.dst]
  }

  ghost predicate Acyclic<N, W>(g: Graph<N, W>) {
    exists rank: seq<nat> :: Ranked(g, rank)
  }

  lemma {:induction false} RankGrows<N, W>(g: Graph<N, W>, rank: seq<nat>, p: seq<nat>, i: nat)
    requires Ranked(g, rank) && IsPath(g, p) && 0 < i < |p|
    ensures p[0] < |rank| && p[i] < |rank| && rank[p[0]] < rank[p[i]]
  {
    assert Linked(g, p[i - 1], p[i]);
    if 1 < i {
      RankGrows(g, rank, p, i - 1);
    }
  }

  /** An acyclic graph has no path from a node to itself, and none against its ranks. */
  lemma NoPathBack<N, W>(g: Graph<N, W>, rank: seq<nat>, a: nat, b: nat)
    requires Ranked(g, rank) && a < |rank| && b < |rank| && rank[b] <= rank[a]
    ensures !Reaches(g, a, b)
  {
    if Reaches(g, a, b) {
      var p :| PathFrom(g, p, a, b);
      RankGrows(g, rank, p, |p| - 1);
    }
  }

  lemma ReachesOn<N, W>(g: Graph<N, W>, a: nat, b: nat, c: nat)
    requires (a == b || Reaches(g, a, b)) && Linked(g, b, c)
    ensures Reaches(g, a, c)
  {
    if a == b {
      assert PathFrom(g, [a, c], a, c);
    } else {
      var p :| PathFrom(g, p, a, b);
      var q := p + [c];
      forall i | 0 <= i < |q| - 1
        ensures Linked(g, q[i], q[i + 1])
      {
        if i < |p| - 1 {
          assert Linked(g, p[i], p[i + 1]);
        }
      }
      assert PathFrom(g, q, a, c);
    }
  }

  lemma ReachesBefore<N, W>(g: Graph<N, W>, a: nat, b: nat, c: nat)
    requires Linked(g, a, b) && (b == c || Reaches(g, b, c))
    ensures Reaches(g, a, c)
  {
    if b == c {
      assert PathFrom(g, [a, c], a, c);
    } else {
      var p :| PathFrom(g, p, b, c);
      var q := [a] + p;
      forall i | 0 <= i < |q| - 1
        ensures Linked(g, q[i], q[i + 1])
      {
        if 0 < i {
          assert Linked(g, p[i - 1], p[i]);
        }
      }
      assert PathFrom(g, q, a, c);
    }
  }

  /** The last edge of a path. */
  lemma LastStep<N, W>(g: Graph<N, W>, a: nat, c: nat) returns (b: nat)
    requires Reaches(g, a, c)
    ensures Linked(g, b, c) && (a == b || Reaches(g, a, b))
  {
    var p :| PathFrom(g, p, a, c);
    var n := |p| - 1;
    b := p[n - 1];
    assert Linked(g, p[n - 1], p[n]);
    if 2 < |p| {
      forall i | 0 <= i < n - 1
        ensures Linked(g, p[..n][i], p[..n][i + 1])
      {
        assert Linked(g, p[i], p[i + 1]);
      }
      assert PathFrom(g, p[..n], a, b);
    }
  }

  // ---------------------------------------------------------------- adding an edge

  function AddArc<N, W>(g: Graph<N, W>, arc: Arc<W>): Graph<N, W> {
    g.(arcs := g.arcs + [arc])
  }

  /** Would the edge close a cycle? Then `add_edge` refuses it. */
  ghost predicate WouldCycle<N, W>(g: Graph<N, W>, arc: Arc<W>) {
    arc.src == arc.dst || Reaches(g, arc.dst, arc.src)
  }

  ghost function Max(s: seq<nat>): nat {
    if s == [] then 0
    else
      var m := Max(s[1..]);
      if s[0] < m then m else s[0]
  }

  lemma {:induction false} MaxBounds(s: seq<nat>, i: nat)
    requires i < |s|
    ensures s[i] <= Max(s)
  {
    if 0 < i {
      MaxBounds(s[1..], i - 1);
    }
  }

  /** The ranks with everything the node reaches, and the node itself, moved above all others. */
  ghost function Lifted<N, W>(g: Graph<N, W>, rank: seq<nat>, node: nat): seq<nat> {
    seq(|rank|, (n: nat) =>
      if n < |rank| then
        if n == node || Reaches(g, node, n) then rank[n] + Max(rank) + 1 else rank[n]
      else 0)
  }

  lemma LiftedRanks<N, W>(g: Graph<N, W>, rank: seq<nat>, arc: Arc<W>)
    requires Ranked(g, rank) && arc.src < |g.nodes| && arc.dst < |g.nodes| && !WouldCycle(g, arc)
    ensures Ranked(AddArc(g, arc), Lifted(g, rank, arc.dst))
  {
    var g', lifted := AddArc(g, arc), Lifted(g, rank, arc.dst);
    forall x | x in g'.arcs
      ensures lifted[x.src] < lifted[x.dst]
    {
      var a, b := x.src, x.dst;
      MaxBounds(rank, a);
      if x in g.arcs {
        assert rank[a] < rank[b];
        assert Linked(g, a, b);
        if a == arc.dst || Reaches(g, arc.dst, a) {
          ReachesOn(g, arc.dst, a, b);
        }
      }
    }
  }

  /** Adding an edge keeps the graph acyclic exactly if it does not close a cycle. */
  lemma AddArcAcyclic<N, W>(g: Graph<N, W>, arc: Arc<W>)
    requires Acyclic(g) && arc.src < |g.nodes| && arc.dst < |g.nodes|
    ensures Acyclic(AddArc(g, arc)) <==> !WouldCycle(g, arc)
  {
    if !WouldCycle(g, arc) {
      var rank :| Ranked(g, rank);
      LiftedRanks(g, rank, arc);
    } else if Acyclic(AddArc(g, arc)) {
      var g' := AddArc(g, arc);
      var rank :| Ranked(g', rank);
      assert arc in g'.arcs;
      MorePaths(g, g', arc.dst, arc.src);
      NoPathBack(g', rank, arc.dst, arc.src);
    }
  }

  lemma MorePaths<N, W>(g: Graph<N, W>, g': Graph<N, W>, a: nat, b: nat)
    requires g.arcs <= g'.arcs && Reaches(g, a, b)
    ensures Reaches(g', a, b)
  {
    var p :| PathFrom(g, p, a, b);
    forall i | 0 <= i < |p| - 1
      ensures Linked(g', p[i], p[i + 1])
    {
      assert Linked(g, p[i], p[i + 1]);
      var arc :| arc in g.arcs && arc.src == p[i] && arc.dst == p[i + 1];
      assert arc in g'.arcs;
    }
    assert PathFrom(g', p, a, b);
  }

  /** Ranks exist exactly if no node can reach itself. */
  lemma {:induction false} AcyclicIffNoCycle<N, W>(g: Graph<N, W>)
    requires InRange(g)
    ensures Acyclic(g) <==> forall a :: 0 <= a < |g.nodes| ==> !Reaches(g, a, a)
    decreases |g.arcs|
  {
    if Acyclic(g) {
      var rank :| Ranked(g, rank);
      forall a | 0 <= a < |g.nodes|
        ensures !Reaches(g, a, a)
      {
        NoPathBack(g, rank, a, a);
      }
    } else if forall a :: 0 <= a < |g.nodes| ==> !Reaches(g, a, a) {
      NoCycleAcyclic(g);
    }
  }

  lemma {:induction false} NoCycleAcyclic<N, W>(g: Graph<N, W>)
    requires InRange(g) && forall a :: 0 <= a < |g.nodes| ==> !Reaches(g, a, a)
    ensures Acyclic(g)
    decreases |g.arcs|
  {
    if g.arcs == [] {
      assert Ranked(g, seq(|g.nodes|, i => 0));
    } else {
      var n := |g.arcs| - 1;
      var g0, arc := g.(arcs := g.arcs[..n]), g.arcs[n];
      assert AddArc(g0, arc) == g;
      forall a | 0 <= a < |g0.nodes|
        ensures !Reaches(g0, a, a)
      {
        if Reaches(g0, a, a) {
          MorePaths(g0, g, a, a);
        }
      }
      NoCycleAcyclic(g0);
      assert Linked(g, arc.src, arc.dst);
      if Reaches(g0, arc.dst, arc.src) {
        MorePaths(g0, g, arc.dst, arc.src);
        ReachesOn(g, arc.dst, arc.src, arc.dst);
      } else {
        ReachesBefore(g, arc.src, arc.dst, arc.dst);
        AddArcAcyclic(g0, arc);
      }
    }
  }
}
