/**
 * The control state of the resource map view: selection, grouping, the
 * error and namespace filters, expand-all, and the camera. The graph
 * pipeline it drives (filtering, grouping, collapsing, group and parent
 * queries, graph size, node bounds) is passed in as uninterpreted functions.
 */
module GraphView {
  import opened Wrappers
  import opened GraphModel

  /** Navigating to this id clears the selection. */
  const RootId: Id := "root"
  /** Margin kept around content that does not fit the viewport at 100% zoom. */
  const ViewportPaddingPx: real := 50.0
  /** Above this many visible elements expand-all is switched off. */
  const ExpandAllSizeLimit: int := 50

  datatype GroupBy = Namespace | Instance | Node

  datatype GraphFilter = HasErrors | NamespaceFilter(namespaces: set<string>)

  datatype Graph = Graph(nodes: seq<GraphNode>, edges: seq<GraphEdge>)

  /** The bounding box of a set of laid-out nodes: its top-left corner and its size. */
  datatype Bounds = Bounds(x: real, y: real, width: real, height: real)

  /** Camera: the screen position of the graph origin, and the zoom factor. */
  datatype Viewport = Viewport(x: real, y: real, zoom: real)

  /** The graph pipeline and the renderer's bounds query, taken as given. */
  datatype Pipeline = Pipeline(
    filterGraph: (Graph, seq<GraphFilter>) -> Graph,
    groupGraph: (Graph, Option<GroupBy>) -> GraphNode,
    collapseGraph: (GraphNode, Option<Id>, bool) -> GraphNode,
    findGroupContaining: (GraphNode, Id) -> Option<GraphNode>,
    getParentNode: (GraphNode, Id) -> Option<GraphNode>,
    getGraphSize: GraphNode -> int,
    getNodesBounds: seq<GraphNode> -> Bounds)

  /** The value the selection setter stores: `'root'` means "nothing selected". */
  function SelectionFor(id: Option<Id>): (r: Option<Id>)
    ensures r != Some(RootId)
    ensures r.Some? ==> r == id
    ensures id != Some(RootId) ==> r == id
  {
    if id == Some(RootId) then None else id
  }

  /** Storing a selection a second time changes nothing. */
  lemma SelectionForIdempotent(id: Option<Id>)
    ensures SelectionFor(SelectionFor(id)) == SelectionFor(id)
  {
  }

  /**
   * The filters applied to the graph: the defaults in their order, then the
   * error filter when its toggle is on, then the namespace filter when at
   * least one namespace is selected.
   */
  function FilterList(defaults: seq<GraphFilter>, hasErrors: bool, namespaces: set<string>): (r: seq<GraphFilter>)
    ensures |r| == |defaults| + (if hasErrors then 1 else 0) + (if |namespaces| > 0 then 1 else 0)
    ensures r[..|defaults|] == defaults
    ensures HasErrors in r[|defaults|..] <==> hasErrors
    ensures NamespaceFilter(namespaces) in r[|defaults|..] <==> |namespaces| > 0
    ensures hasErrors ==> r[|defaults|] == HasErrors
    ensures |namespaces| > 0 ==> r[|r| - 1] == NamespaceFilter(namespaces)
  {
    var added := (if hasErrors then [HasErrors] else []) + (if |namespaces| > 0 then [NamespaceFilter(namespaces)] else []);
    assert (defaults + added)[|defaults|..] == added;
    defaults + added
  }

  /** Content of this size fits an extent of the viewport with padding on both sides. */
  predicate Fits(size: real, extent: real) {
    size + ViewportPaddingPx * 2.0 <= extent
  }

  function AxisOrigin(size: real, extent: real): real {
    if Fits(size, extent) then extent / 2.0 - size / 2.0 else ViewportPaddingPx
  }

  /**
   * The viewport at 100% zoom. Only the size of the bounds is used, not their
   * corner: on an axis where the content fits, the graph origin is placed so
   * that a box of that size starting at the origin is centred (equal margins
   * of at least the padding); where it does not fit, the origin sits at the
   * padding (left or top aligned). The content's screen box starts at the
   * viewport position plus the bounds' corner, so it is centred exactly when
   * that corner is the origin.
   */
  function ZoomTo100(bounds: Bounds, width: real, height: real): (v: Viewport)
    ensures v.zoom == 1.0
    ensures Fits(bounds.width, width) ==> v.x >= ViewportPaddingPx && v.x + bounds.width + v.x == width
    ensures !Fits(bounds.width, width) ==> v.x == ViewportPaddingPx
    ensures Fits(bounds.height, height) ==> v.y >= ViewportPaddingPx && v.y + bounds.height + v.y == height
    ensures !Fits(bounds.height, height) ==> v.y == ViewportPaddingPx
    ensures Fits(bounds.width, width) ==>
      (v.x + bounds.x == width - (v.x + bounds.x + bounds.width) <==> bounds.x == 0.0)
    ensures Fits(bounds.height, height) ==>
      (v.y + bounds.y == height - (v.y + bounds.y + bounds.height) <==> bounds.y == 0.0)
  {
    Viewport(AxisOrigin(bounds.width, width), AxisOrigin(bounds.height, height), 1.0)
  }

  /** A group-by chip click: the active grouping is switched off, any other is switched on. */
  function ToggledGroupBy(current: Option<GroupBy>, g: GroupBy): (r: Option<GroupBy>)
    ensures r == Some(g) <==> current != Some(g)
    ensures r == None <==> current == Some(g)
  {
    if current == Some(g) then None else Some(g)
  }

  /** Clicking the same chip twice restores the grouping, when it was off or that chip's. */
  lemma ToggledGroupByTwice(current: Option<GroupBy>, g: GroupBy)
    requires current == None || current == Some(g)
    ensures ToggledGroupBy(ToggledGroupBy(current, g), g) == current
  {
  }

  /** The first node of the list whose id is `id` (`Array.prototype.find`). */
  function FindNode(nodes: seq<GraphNode>, id: Option<Id>): (r: Option<GraphNode>)
    ensures r.None? <==> forall i :: 0 <= i < |nodes| ==> Some(nodes[i].id) != id
    ensures r.Some? ==> exists i :: 0 <= i < |nodes| && nodes[i] == r.value && Some(r.value.id) == id
                          && forall j :: 0 <= j < i ==> Some(nodes[j].id) != id
  {
    if nodes == [] then None
    else if Some(nodes[0].id) == id then Some(nodes[0])
    else
      var r := FindNode(nodes[1..], id);
      assert forall i :: 1 <= i < |nodes| ==> nodes[i] == nodes[1..][i - 1];
      r
  }

  class GraphViewState {
    const pipeline: Pipeline
    /** Filters the view always applies. */
    const defaultFilters: seq<GraphFilter>
    /** Selection the details panel falls back to when closed. */
    const defaultNodeSelection: Option<Id>

    /** Inputs from outside the view: source data, selected namespaces, surface size. */
    var nodes: seq<GraphNode>
    var edges: seq<GraphEdge>
    var namespaces: set<string>
    var width: real
    var height: real

    var hasErrorsFilter: bool
    var groupBy: Option<GroupBy>
    var selectedNodeId: Option<Id>
    var expandAll: bool
    /** Whether the user has moved the camera since the last view change. */
    var viewportMoved: bool
    var layoutedGraph: Graph
    var viewport: Viewport

    constructor (pipeline: Pipeline, defaultFilters: seq<GraphFilter>, defaultNodeSelection: Option<Id>,
                 nodes: seq<GraphNode>, edges: seq<GraphEdge>, namespaces: set<string>, width: real, height: real)
      ensures this.pipeline == pipeline && this.defaultFilters == defaultFilters
      ensures this.defaultNodeSelection == defaultNodeSelection
      ensures this.nodes == nodes && this.edges == edges && this.namespaces == namespaces
      ensures this.width == width && this.height == height
      ensures !hasErrorsFilter && groupBy == Some(Namespace) && selectedNodeId == defaultNodeSelection
      ensures !expandAll && !viewportMoved
      ensures layoutedGraph == Graph([], []) && viewport == Viewport(0.0, 0.0, 1.0)
    {
      this.pipeline := pipeline;
      this.defaultFilters := defaultFilters;
      this.defaultNodeSelection := defaultNodeSelection;
      this.nodes := nodes;
      this.edges := edges;
      this.namespaces := namespaces;
      this.width := width;
      this.height := height;
      hasErrorsFilter := false;
      groupBy := Some(Namespace);
      selectedNodeId := defaultNodeSelection;
      expandAll := false;
      viewportMoved := false;
      layoutedGraph := Graph([], []);
      viewport := Viewport(0.0, 0.0, 1.0);
    }

    /**
     * The graph after the assembled filters. Like the memo it models, it does
     * not depend on the grouping, the selection or expand-all.
     */
    function FilteredGraph(): Graph
      reads this
    {
      pipeline.filterGraph(Graph(nodes, edges), FilterList(defaultFilters, hasErrorsFilter, namespaces))
    }

    /** The grouped hierarchy (its root group); it does not depend on the selection or expand-all. */
    function FullGraph(): GraphNode
      reads this
    {
      pipeline.groupGraph(FilteredGraph(), groupBy)
    }

    /** The hierarchy with groups collapsed for the current selection and expand-all flag. */
    function VisibleGraph(): GraphNode
      reads this
    {
      pipeline.collapseGraph(FullGraph(), selectedNodeId, expandAll)
    }

    /** The size of the visible graph, which gates the expand-all chip. */
    function GraphSize(): int
      reads this
    {
      pipeline.getGraphSize(VisibleGraph())
    }

    /** The source node carrying the selected id (the details panel is open when there is one). */
    function SelectedNode(): (r: Option<GraphNode>)
      reads this
      ensures r.None? <==> forall i :: 0 <= i < |nodes| ==> Some(nodes[i].id) != selectedNodeId
      ensures r.Some? ==> r.value in nodes && Some(r.value.id) == selectedNodeId
    {
      FindNode(nodes, selectedNodeId)
    }

    /** The group holding the selection in the visible graph; none for an absent or empty id. */
    function SelectedGroup(): (r: Option<GraphNode>)
      reads this
      ensures r.Some? ==> selectedNodeId.Some? && selectedNodeId.value != ""
      ensures selectedNodeId.Some? && selectedNodeId.value != "" ==>
        r == pipeline.findGroupContaining(VisibleGraph(), selectedNodeId.value)
    {
      if selectedNodeId.Some? && selectedNodeId.value != "" then
        pipeline.findGroupContaining(VisibleGraph(), selectedNodeId.value)
      else None
    }

    predicate ExpandAllOffered()
      reads this
    {
      GraphSize() < ExpandAllSizeLimit
    }

    predicate NamespaceChipShown()
      reads this
    {
      |namespaces| != 1
    }

    /** Builds the filter list by copying the defaults and pushing the optional filters. */
    method AssembleFilters() returns (filters: seq<GraphFilter>)
      ensures filters == FilterList(defaultFilters, hasErrorsFilter, namespaces)
    {
      filters := defaultFilters;
      if hasErrorsFilter {
        filters := filters + [HasErrors];
      }
      if |namespaces| > 0 {
        filters := filters + [NamespaceFilter(namespaces)];
      }
    }

    /**
     * Stores a selection (`'root'` as none). A change of the stored value is a
     * view change, which forgets that the user moved the camera.
     */
    method SetSelectedNodeId(id: Option<Id>)
      modifies this`selectedNodeId, this`viewportMoved
      ensures selectedNodeId == SelectionFor(id)
      ensures viewportMoved == (old(viewportMoved) && selectedNodeId == old(selectedNodeId))
      ensures FilteredGraph() == old(FilteredGraph()) && FullGraph() == old(FullGraph())
    {
      var next := SelectionFor(id);
      if next != selectedNodeId {
        viewportMoved := false;
      }
      selectedNodeId := next;
    }

    /** Start of a camera move; only a move with a user event marks the camera as moved. */
    method OnMoveStart(userEvent: bool)
      modifies this`viewportMoved
      ensures viewportMoved == (old(viewportMoved) || userEvent)
    {
      if userEvent {
        viewportMoved := true;
      }
    }

    /** A finished layout is shown, and recentres the camera unless the user moved it. */
    method OnLayoutArrived(layout: Graph)
      modifies this`layoutedGraph, this`viewport
      ensures layoutedGraph == layout
      ensures viewportMoved ==> viewport == old(viewport)
      ensures !viewportMoved ==> viewport == ZoomTo100(pipeline.getNodesBounds(layout.nodes), width, height)
    {
      layoutedGraph := layout;
      if !viewportMoved {
        viewport := ZoomTo100(pipeline.getNodesBounds(layout.nodes), width, height);
      }
    }

    /** The "100%" control: recentres the current layout whether or not the camera was moved. */
    method ZoomTo100Clicked()
      modifies this`viewport
      ensures viewport == ZoomTo100(pipeline.getNodesBounds(layoutedGraph.nodes), width, height)
    {
      viewport := ZoomTo100(pipeline.getNodesBounds(layoutedGraph.nodes), width, height);
    }

    /**
     * A group-by chip click. The namespace chip is not shown when exactly one
     * namespace is selected, so then nothing happens.
     */
    method ClickGroupBy(g: GroupBy)
      modifies this`groupBy, this`viewportMoved
      ensures g == Namespace && !NamespaceChipShown() ==> groupBy == old(groupBy) && viewportMoved == old(viewportMoved)
      ensures g != Namespace || NamespaceChipShown() ==> groupBy == ToggledGroupBy(old(groupBy), g) && !viewportMoved
      ensures FilteredGraph() == old(FilteredGraph())
    {
      if g != Namespace || NamespaceChipShown() {
        groupBy := ToggledGroupBy(groupBy, g);
        viewportMoved := false;
      }
    }

    method ToggleHasErrorsFilter()
      modifies this`hasErrorsFilter
      ensures hasErrorsFilter == !old(hasErrorsFilter)
      ensures FilteredGraph() ==
        pipeline.filterGraph(Graph(nodes, edges), FilterList(defaultFilters, !old(hasErrorsFilter), namespaces))
    {
      hasErrorsFilter := !hasErrorsFilter;
    }

    /** The expand-all chip, shown only while the visible graph has fewer than 50 elements. */
    method ClickExpandAll()
      modifies this`expandAll, this`viewportMoved
      ensures old(ExpandAllOffered()) ==> expandAll == !old(expandAll) && !viewportMoved
      ensures !old(ExpandAllOffered()) ==> expandAll == old(expandAll) && viewportMoved == old(viewportMoved)
      ensures FullGraph() == old(FullGraph())
    {
      if ExpandAllOffered() {
        expandAll := !expandAll;
        viewportMoved := false;
      }
    }

    /**
     * Reaction to a new visible-graph size: expand-all is forced off above 50
     * elements; at exactly 50 it stays as it is.
     */
    method GraphSizeChanged()
      modifies this`expandAll, this`viewportMoved
      ensures expandAll == (old(expandAll) && old(GraphSize()) <= ExpandAllSizeLimit)
      ensures viewportMoved == (old(viewportMoved) && expandAll == old(expandAll))
      ensures FullGraph() == old(FullGraph())
    {
      if expandAll && GraphSize() > ExpandAllSizeLimit {
        expandAll := false;
        viewportMoved := false;
      }
    }

    /**
     * A click on the empty canvas while an object node is selected selects that
     * node's parent in the full graph (none at top level); with a group or
     * nothing selected it does nothing.
     */
    method BackgroundClick()
      modifies this`selectedNodeId, this`viewportMoved
      ensures var s := old(SelectedNode());
        && (s.Some? && !IsGroup(s.value) ==>
              var parent := pipeline.getParentNode(old(FullGraph()), s.value.id);
              selectedNodeId == SelectionFor(if parent.Some? then Some(parent.value.id) else None))
        && (s.None? || IsGroup(s.value) ==> selectedNodeId == old(selectedNodeId))
      ensures viewportMoved == (old(viewportMoved) && selectedNodeId == old(selectedNodeId))
      ensures FilteredGraph() == old(FilteredGraph()) && FullGraph() == old(FullGraph())
    {
      var s := SelectedNode();
      if s.Some? && !IsGroup(s.value) {
        var parent := pipeline.getParentNode(FullGraph(), s.value.id);
        SetSelectedNodeId(if parent.Some? then Some(parent.value.id) else None);
      }
    }

    /**
     * Closing the details panel (open only while the selected id names a
     * source node) selects the group holding the selection, or the default
     * selection when there is none.
     */
    method CloseDetails()
      modifies this`selectedNodeId, this`viewportMoved
      ensures old(SelectedNode()).Some? ==>
        var group := old(SelectedGroup());
        selectedNodeId == SelectionFor(if group.Some? then Some(group.value.id) else defaultNodeSelection)
      ensures old(SelectedNode()).None? ==> selectedNodeId == old(selectedNodeId)
      ensures viewportMoved == (old(viewportMoved) && selectedNodeId == old(selectedNodeId))
      ensures FilteredGraph() == old(FilteredGraph()) && FullGraph() == old(FullGraph())
    {
      if SelectedNode().Some? {
        var group := SelectedGroup();
        SetSelectedNodeId(if group.Some? then Some(group.value.id) else defaultNodeSelection);
      }
    }
  }
}
