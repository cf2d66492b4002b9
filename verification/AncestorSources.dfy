/** Which sources may affect a node (dozer-core/src/dag_schemas.rs). */
module AncestorSources {
  import opened Graphs
  import opened Dag
  import opened DagSchemas

  ghost predicate IsSource<W>(g: Graph<Node, W>, a: nat, h: Handle) {
    a < |g.nodes| && g.nodes[a].kind.Source? && g.nodes[a].handle == h
  }

  /** A source with this handle has a path of at least one edge to the node. */
  ghost predicate Affects<W>(g: Graph<Node, W>, h: Handle, node: nat) {
    exists a :: IsSource(g, a, h) && Reaches(g, a, node)
  }

  /** The source is the node, or affects it. */
  ghost predicate At<W>(g: Graph<Node, W>, h: Handle, node: nat) {
    IsSource(g, node, h) || Affects(g, h, node)
  }

  lemma AffectsThrough<W>(g: Graph<Node, W>, h: Handle, arc: Arc<W>)
    requires arc in g.arcs && At(g, h, arc.src)
    ensures Affects(g, h, arc.dst)
  {
    assert Linked(g, arc.src, arc.dst);
    if IsSource(g, arc.src, h) {
      ReachesOn(g, arc.src, arc.src, arc.dst);
    } else {
      var a :| IsSource(g, a, h) && Reaches(g, a, arc.src);
      ReachesOn(g, a, arc.src, arc.dst);
    }
  }

  lemma AffectsThroughSome<W>(g: Graph<Node, W>, h: Handle, node: nat) returns (k: nat)
    requires Affects(g, h, node)
    ensures k < |g.arcs| && g.arcs[k].dst == node && At(g, h, g.arcs[k].src)
  {
    var a :| IsSource(g, a, h) && Reaches(g, a, node);
    var b := LastStep(g, a, node);
    var arc :| arc in g.arcs && arc.src == b && arc.dst == node;
    k :| 0 <= k < |g.arcs| && g.arcs[k] == arc;
  }

  /** `collect_ancestor_sources_recursive`: adds exactly the sources with a path to the node, and terminates
      because the ranks decrease against the edges. */
  method CollectRecursive<W>(g: Graph<Node, W>, node: nat, sources: set<Handle>, ghost rank: seq<nat>)
    returns (r: set<Handle>)
    requires Ranked(g, rank) && node < |g.nodes|
    ensures forall h :: h in r <==> h in sources || Affects(g, h, node)
    decreases rank[node]
  {
    r := sources;
    for k := |g.arcs| downto 0
      invariant sources <= r
      invariant forall h :: h in r ==> h in sources || Affects(g, h, node)
      invariant forall h, j :: k <= j < |g.arcs| && g.arcs[j].dst == node && At(g, h, g.arcs[j].src) ==> h in r
    {
      if g.arcs[k].dst == node {
        var arc := g.arcs[k];
        assert arc in g.arcs;
        ghost var before := r;
        if g.nodes[arc.src].kind.Source? {
          r := r + {g.nodes[arc.src].handle};
        }
        r := CollectRecursive(g, arc.src, r, rank);
        forall h | h in r && h !in before
          ensures Affects(g, h, node)
        {
          AffectsThrough(g, h, arc);
        }
      }
    }
    forall h | Affects(g, h, node)
      ensures h in r
    {
      var k := AffectsThroughSome(g, h, node);
    }
  }

  /** `collect_ancestor_sources`. */
  method CollectAncestorSources<W>(g: Graph<Node, W>, node: nat) returns (r: set<Handle>)
    requires Acyclic(g) && node < |g.nodes|
    ensures forall h :: h in r <==> Affects(g, h, node)
  {
    ghost var rank :| Ranked(g, rank);
    r := CollectRecursive(g, node, {}, rank);
  }

  // ---------------------------------------------------------------- every node is fed and drained

  lemma SomeoneFeeds(g: DagGraph, node: nat) returns (arc: Arc<Ports>)
    requires PortsOk(g) && node < |g.nodes| && NodeConnected(g, node) && !g.nodes[node].kind.Source?
    ensures arc in g.arcs && arc.dst == node && !g.nodes[arc.src].kind.Sink?
  {
    var ins, arriving := InputPorts(g.nodes[node].kind), Arriving(g, node, 0);
    assert |ins| == |multiset(ins)| == |multiset(arriving)| == |arriving|;
    assert arriving[0] in arriving;
    ArrivingElements(g, node, arriving[0], 0);
    var k: nat :| ArrivesAt(g, k, node, arriving[0]);
    arc := g.arcs[k];
    assert arc in g.arcs;
  }

  /** After the connectivity check every processor and sink has an ancestor source: "sink must have a source". */
  lemma {:induction false} EveryNodeHasASource(g: DagGraph, node: nat, rank: seq<nat>) returns (h: Handle)
    requires PortsOk(g) && Connected(g) && Ranked(g, rank) && node < |g.nodes| && !g.nodes[node].kind.Source?
    ensures Affects(g, h, node)
    decreases rank[node]
  {
    assert NodeConnected(g, node);
    var arc := SomeoneFeeds(g, node);
    if g.nodes[arc.src].kind.Source? {
      h := g.nodes[arc.src].handle;
    } else {
      h := EveryNodeHasASource(g, arc.src, rank);
    }
    AffectsThrough(g, h, arc);
  }

  /** And every source and processor has a path to a sink. */
  lemma {:induction false} EveryNodeHasASink(g: DagGraph, node: nat, rank: seq<nat>) returns (sink: nat)
    requires PortsOk(g) && Connected(g) && Ranked(g, rank) && node < |g.nodes| && !g.nodes[node].kind.Sink?
    ensures sink < |g.nodes| && g.nodes[sink].kind.Sink? && Reaches(g, node, sink)
    decreases Max(rank) - rank[node]
  {
    assert NodeConnected(g, node);
    var arc :| arc in g.arcs && arc.src == node;
    assert Linked(g, node, arc.dst);
    if g.nodes[arc.dst].kind.Sink? {
      sink := arc.dst;
    } else {
      MaxBounds(rank, arc.dst);
      sink := EveryNodeHasASink(g, arc.dst, rank);
    }
    ReachesBefore(g, node, arc.dst, sink);
  }
}
