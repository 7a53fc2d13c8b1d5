/** Nodes and edges of the resource relationship graph. */
module GraphModel {
  import opened KubeObjects

  type Id = string

  /** A directed edge `source -> target` tagged with the relationship it stands for. */
  datatype GraphEdge = GraphEdge(id: Id, source: Id, target: Id, edgeType: string)

  /**
   * A graph node: either one resource object, or a group whose own nodes and
   * edges are nested inside it (the grouped graph is the root group).
   */
  datatype GraphNode =
    | KubeObjectNode(id: Id, resource: KubeObject)
    | GroupNode(id: Id, nodes: seq<GraphNode>, edges: seq<GraphEdge>)

  predicate IsGroup(n: GraphNode) {
    n.GroupNode?
  }

  /** The ids that occur in a node list. */
  function NodeIds(nodes: seq<GraphNode>): set<Id> {
    set n | n in nodes :: n.id
  }

  /** Every node in the list has an id of its own. */
  predicate UniqueIds(nodes: seq<GraphNode>) {
    forall i, j :: 0 <= i < |nodes| && 0 <= j < |nodes| && nodes[i].id == nodes[j].id ==> i == j
  }
}
