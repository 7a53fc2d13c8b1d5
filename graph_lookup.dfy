/**
 * The read-only index over one (nodes, edges) snapshot: node by id, and the
 * outgoing and incoming edges of every node in input order. An id that is not
 * a node of the snapshot is answered with `None` ("not found"), never with a
 * failure and never with an empty list.
 */
module GraphLookup {
  import opened Wrappers
  import opened GraphModel
  import opened KubeObjects

  /** Which end of an edge an adjacency list is keyed by. */
  datatype Direction = Outgoing | Incoming

  function Endpoint(e: GraphEdge, d: Direction): Id {
    match d
    case Outgoing => e.source
    case Incoming => e.target
  }

  /**
   * Reference definition: the edges whose `d`-end is `id`, in the order they
   * have in `edges` (a filter of the input sequence).
   */
  function EdgesAt(edges: seq<GraphEdge>, d: Direction, id: Id): (r: seq<GraphEdge>)
    ensures |r| <= |edges|
    ensures forall e :: e in r <==> e in edges && Endpoint(e, d) == id
  {
    if edges == [] then []
    else (if Endpoint(edges[0], d) == id then [edges[0]] else []) + EdgesAt(edges[1..], d, id)
  }

  /** Filtering a sequence extended by one edge extends the filter by that edge or by nothing. */
  lemma {:induction false} EdgesAtSnoc(s: seq<GraphEdge>, e: GraphEdge, d: Direction)
    ensures forall id :: EdgesAt(s + [e], d, id) == EdgesAt(s, d, id) + (if Endpoint(e, d) == id then [e] else [])
  {
    forall id
      ensures EdgesAt(s + [e], d, id) == EdgesAt(s, d, id) + (if Endpoint(e, d) == id then [e] else [])
    {
      if s != [] {
        assert (s + [e])[1..] == s[1..] + [e];
        EdgesAtSnoc(s[1..], e, d);
      }
    }
  }

  /** The filter of a concatenation is the concatenation of the filters. */
  lemma {:induction false} EdgesAtAppend(s: seq<GraphEdge>, t: seq<GraphEdge>, d: Direction, id: Id)
    ensures EdgesAt(s + t, d, id) == EdgesAt(s, d, id) + EdgesAt(t, d, id)
  {
    if s != [] {
      assert (s + t)[1..] == s[1..] + t;
      EdgesAtAppend(s[1..], t, d, id);
    } else {
      assert s + t == t;
    }
  }

  /** The node index: id to node; on a repeated id the later node wins. */
  function NodeIndex(nodes: seq<GraphNode>): (m: map<Id, GraphNode>)
    ensures m.Keys == NodeIds(nodes)
    ensures forall id :: id in m ==> m[id] in nodes && m[id].id == id
  {
    if nodes == [] then map[]
    else
      var init := nodes[..|nodes| - 1];
      var last := nodes[|nodes| - 1];
      assert nodes == init + [last];
      NodeIndex(init)[last.id := last]
  }

  /** With unique ids, the index maps each node's id to exactly that node. */
  lemma NodeIndexUnique(nodes: seq<GraphNode>, i: nat)
    requires UniqueIds(nodes)
    requires i < |nodes|
    ensures nodes[i].id in NodeIndex(nodes) && NodeIndex(nodes)[nodes[i].id] == nodes[i]
  {
  }

  /**
   * One pass over the edges: every node id starts with an empty list, and each
   * edge is appended to the list of its `d`-end when that end is a node id.
   */
  function Adjacency(ids: set<Id>, edges: seq<GraphEdge>, d: Direction): (m: map<Id, seq<GraphEdge>>)
    ensures m.Keys == ids
    ensures forall id :: id in m ==> m[id] == EdgesAt(edges, d, id)
  {
    if edges == [] then map id | id in ids :: []
    else
      var init := edges[..|edges| - 1];
      var e := edges[|edges| - 1];
      var prev := Adjacency(ids, init, d);
      var k := Endpoint(e, d);
      assert edges == init + [e];
      EdgesAtSnoc(init, e, d);
      if k in prev then prev[k := prev[k] + [e]] else prev
  }

  /** The built index. It is a value: queries cannot change it. */
  datatype GraphLookup = GraphLookup(
    nodeById: map<Id, GraphNode>,
    outgoing: map<Id, seq<GraphEdge>>,
    incoming: map<Id, seq<GraphEdge>>)

  /** Builds the index once from the snapshot; every key set is the set of node ids. */
  function MakeGraphLookup(nodes: seq<GraphNode>, edges: seq<GraphEdge>): (g: GraphLookup)
    ensures g.nodeById.Keys == NodeIds(nodes)
    ensures g.outgoing.Keys == NodeIds(nodes) && g.incoming.Keys == NodeIds(nodes)
  {
    var ids := NodeIds(nodes);
    GraphLookup(NodeIndex(nodes), Adjacency(ids, edges, Outgoing), Adjacency(ids, edges, Incoming))
  }

  /** `getNode`: the indexed node, or `None` for an id the index has no entry for. */
  function GetNode(g: GraphLookup, id: Id): (r: Option<GraphNode>)
    ensures r.Some? <==> id in g.nodeById
    ensures r.Some? ==> r.value == g.nodeById[id]
  {
    if id in g.nodeById then Some(g.nodeById[id]) else None
  }

  /** `getOutgoingEdges`: the indexed list, or `None` (not an empty list) for an id without an entry. */
  function GetOutgoingEdges(g: GraphLookup, id: Id): (r: Option<seq<GraphEdge>>)
    ensures r.Some? <==> id in g.outgoing
    ensures r.Some? ==> r.value == g.outgoing[id]
  {
    if id in g.outgoing then Some(g.outgoing[id]) else None
  }

  /** `getIncomingEdges`: the indexed list, or `None` (not an empty list) for an id without an entry. */
  function GetIncomingEdges(g: GraphLookup, id: Id): (r: Option<seq<GraphEdge>>)
    ensures r.Some? <==> id in g.incoming
    ensures r.Some? ==> r.value == g.incoming[id]
  {
    if id in g.incoming then Some(g.incoming[id]) else None
  }

  /**
   * `getNode` finds a node of the snapshot with that id, unchanged; with
   * unique ids, exactly the node given; an unknown id gives `None`.
   */
  lemma GetNodeFindsInputNode(nodes: seq<GraphNode>, edges: seq<GraphEdge>, id: Id)
    ensures var r := GetNode(MakeGraphLookup(nodes, edges), id);
      && (r.Some? <==> id in NodeIds(nodes))
      && (r.Some? ==> r.value in nodes && r.value.id == id)
      && (UniqueIds(nodes) ==> forall i :: 0 <= i < |nodes| && nodes[i].id == id ==> r == Some(nodes[i]))
  {
  }

  /**
   * `getOutgoingEdges` returns exactly the input edges whose source is `id`,
   * in input order, for every node id; for an id that is not a node it
   * returns `None`, not an empty list.
   */
  lemma OutgoingEdgesAreFilter(nodes: seq<GraphNode>, edges: seq<GraphEdge>, id: Id)
    ensures var r := GetOutgoingEdges(MakeGraphLookup(nodes, edges), id);
      && (r.Some? ==> r.value == EdgesAt(edges, Outgoing, id))
      && (id !in NodeIds(nodes) ==> r == None)
      && (EdgesAt(edges, Outgoing, id) != [] && id in NodeIds(nodes) ==> r.Some?)
  {
  }

  /** `getIncomingEdges`: the same, keyed by the edge target. */
  lemma IncomingEdgesAreFilter(nodes: seq<GraphNode>, edges: seq<GraphEdge>, id: Id)
    ensures var r := GetIncomingEdges(MakeGraphLookup(nodes, edges), id);
      && (r.Some? ==> r.value == EdgesAt(edges, Incoming, id))
      && (id !in NodeIds(nodes) ==> r == None)
      && (EdgesAt(edges, Incoming, id) != [] && id in NodeIds(nodes) ==> r.Some?)
  {
  }

  /**
   * A node with no outgoing edges is still found, and gets the empty list
   * (not "not found"); a node with no incoming edges likewise.
   */
  lemma EdgelessNodeGetsEmptyLists(nodes: seq<GraphNode>, edges: seq<GraphEdge>, id: Id)
    requires id in NodeIds(nodes)
    ensures (forall e :: e in edges ==> e.source != id) ==>
      GetOutgoingEdges(MakeGraphLookup(nodes, edges), id) == Some([])
    ensures (forall e :: e in edges ==> e.target != id) ==>
      GetIncomingEdges(MakeGraphLookup(nodes, edges), id) == Some([])
  {
    var out := EdgesAt(edges, Outgoing, id);
    if out != [] {
      assert out[0] in out;
    }
    var inc := EdgesAt(edges, Incoming, id);
    if inc != [] {
      assert inc[0] in inc;
    }
  }

  /** A self-loop on a node is listed both among its outgoing and its incoming edges. */
  lemma SelfLoopInBothLists(nodes: seq<GraphNode>, edges: seq<GraphEdge>, e: GraphEdge)
    requires e in edges && e.source == e.target && e.source in NodeIds(nodes)
    ensures var g := MakeGraphLookup(nodes, edges);
      && GetOutgoingEdges(g, e.source).Some? && e in GetOutgoingEdges(g, e.source).value
      && GetIncomingEdges(g, e.target).Some? && e in GetIncomingEdges(g, e.target).value
  {
  }

  /**
   * Splitting the edge list splits every answer: the edges of a prefix come
   * first, in the order they had (relative order is preserved).
   */
  lemma OutgoingEdgesOfConcatenation(nodes: seq<GraphNode>, s: seq<GraphEdge>, t: seq<GraphEdge>, id: Id)
    requires id in NodeIds(nodes)
    ensures GetOutgoingEdges(MakeGraphLookup(nodes, s + t), id).Some?
    ensures GetOutgoingEdges(MakeGraphLookup(nodes, s + t), id).value
         == GetOutgoingEdges(MakeGraphLookup(nodes, s), id).value + GetOutgoingEdges(MakeGraphLookup(nodes, t), id).value
  {
    EdgesAtAppend(s, t, Outgoing, id);
  }

  /** The three-node, three-edge snapshot exercised by the index's tests. */
  const ScenarioNodes: seq<GraphNode> := [
    KubeObjectNode("1", ScenarioResource), KubeObjectNode("2", ScenarioResource), KubeObjectNode("3", ScenarioResource)]
  const ScenarioResource := KubeObject(KubeObjectClass(""), "", ObjectMeta("", None))
  const E1 := GraphEdge("e1", "1", "2", "typeA")
  const E2 := GraphEdge("e2", "2", "3", "typeB")
  const E3 := GraphEdge("e3", "1", "3", "typeC")
  const ScenarioEdges: seq<GraphEdge> := [E1, E2, E3]

  lemma ScenarioFilters(edges: seq<GraphEdge>)
    requires edges == ScenarioEdges
    ensures EdgesAt(edges, Outgoing, "1") == [E1, E3]
    ensures EdgesAt(edges, Incoming, "3") == [E2, E3]
  {
    assert edges[1..] == [E2, E3];
    assert EdgesAt([E3], Outgoing, "1") == [E3];
    assert EdgesAt([E2, E3], Outgoing, "1") == [E3];
    assert EdgesAt(edges, Outgoing, "1") == [E1] + EdgesAt(edges[1..], Outgoing, "1");
    assert EdgesAt([E3], Incoming, "3") == [E3];
    assert EdgesAt([E2, E3], Incoming, "3") == [E2, E3];
    assert EdgesAt(edges, Incoming, "3") == EdgesAt(edges[1..], Incoming, "3");
  }

  lemma ScenarioIds(nodes: seq<GraphNode>)
    requires nodes == ScenarioNodes
    ensures NodeIds(nodes) == {"1", "2", "3"} && UniqueIds(nodes)
  {
  }

  /** Outgoing edges of "1" are e1 then e3; incoming edges of "3" are e2 then e3. */
  lemma ScenarioEdgeLists(nodes: seq<GraphNode>, edges: seq<GraphEdge>)
    requires nodes == ScenarioNodes && edges == ScenarioEdges
    ensures GetOutgoingEdges(MakeGraphLookup(nodes, edges), "1") == Some([E1, E3])
    ensures GetIncomingEdges(MakeGraphLookup(nodes, edges), "3") == Some([E2, E3])
  {
    ScenarioFilters(edges);
    ScenarioIds(nodes);
    OutgoingEdgesAreFilter(nodes, edges, "1");
    IncomingEdgesAreFilter(nodes, edges, "3");
  }

  /** Node "2" is found unchanged. */
  lemma ScenarioGetNode(nodes: seq<GraphNode>, edges: seq<GraphEdge>)
    requires nodes == ScenarioNodes && edges == ScenarioEdges
    ensures GetNode(MakeGraphLookup(nodes, edges), "2") == Some(nodes[1])
  {
    ScenarioIds(nodes);
    assert nodes[1].id == "2";
    GetNodeFindsInputNode(nodes, edges, "2");
  }

  /** "non-existent" is absent from all three queries. */
  lemma ScenarioUnknownId(nodes: seq<GraphNode>, edges: seq<GraphEdge>)
    requires nodes == ScenarioNodes && edges == ScenarioEdges
    ensures GetNode(MakeGraphLookup(nodes, edges), "non-existent") == None
    ensures GetOutgoingEdges(MakeGraphLookup(nodes, edges), "non-existent") == None
    ensures GetIncomingEdges(MakeGraphLookup(nodes, edges), "non-existent") == None
  {
    ScenarioIds(nodes);
    assert "non-existent" !in NodeIds(nodes);
  }
}
