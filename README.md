# Resource map view, drawer mode and VPA accessors — a Dafny model

This project models four small pieces of a web dashboard for cluster resources:

- **The graph lookup index** (`GraphLookup`). It is built once from a snapshot of graph nodes and edges. It answers three queries: a node by id, the outgoing edges of a node, and the incoming edges of a node. Edge lists keep the input order. An id that is not a node of the snapshot gets "not found" (`None`), which is different from an empty list. Each edge index is built by one pass over the edges, as a fold: one pass for outgoing edges and one for incoming edges. It is proved equal to a plain filter of the input edge sequence (`EdgesAt`).
- **The resource map's control state** (`GraphView.GraphViewState`). This class covers:
  - the selection, where the reserved id `'root'` means "nothing selected";
  - the group-by chips and the error filter toggle;
  - assembly of the filter list;
  - the expand-all gate, driven by the visible graph's size;
  - the "user moved the camera" flag;
  - the zoom-to-100% camera placement;
  - the background-click and close-details selection rules.

  The graph pipeline is not modelled. Filtering, grouping, collapsing, finding a node's group or parent, the graph size and the node bounds are taken as uninterpreted functions, the fields of a `Pipeline` value.
- **The drawer-mode state** (`DrawerModeSlice`). It holds the "details in a drawer" flag, which is persisted in the browser's string key-value store, and the resource shown in the drawer.
- **Accessors of a vertical pod autoscaler (VPA)** (`Vpa`). These are the referenced target object, resolved through the registry of resource kinds, the first container's target recommendation, and the skeleton object used to create a new autoscaler.

`GraphModel`, `KubeObjects` and `Wrappers` hold the shared datatypes.

## How the source was read

- The index's implementation file is not part of this model. Only its tests are. The tests do not fix how the index is keyed. This model chooses to key it by node ids and to file each edge under its source and its target. An index keyed by edge endpoints would pass the same tests.
- The tests do not fix what a node with no edges gets. In this model it is found: `MakeGraphLookup` keys both edge maps by exactly the node ids, and the queries are found exactly for keyed ids. That follows from the node-id keying chosen here. Its list is empty, as `GraphLookup.EdgelessNodeGetsEmptyLists` proves.
- The close-details rule uses the group that holds the selection in the *visible* (collapsed) graph, as the source does. The background-click rule uses the parent in the *full* graph.
- An empty selected id is falsy in the source. So it has no containing group.
- The viewport-reset effect runs when the selection, the grouping or expand-all changes. The model clears the flag inside each method whose stored value changes.

## Model

| member | source | states |
|---|---|---|
| `GraphLookup.EdgesAt` | frontend/src/components/resourceMap/graph/graphLookup.test.ts:20-34 | Reference filter: an edge is in the result exactly when it is an input edge whose chosen end is the id; the result is no longer than the input. |
| `GraphLookup.Adjacency` | frontend/src/components/resourceMap/graph/graphLookup.test.ts:20-34 | The one-pass adjacency index has exactly the node ids as keys, and each node's list equals the filter of the input edges in input order. |
| `GraphLookup.NodeIndex` | frontend/src/components/resourceMap/graph/graphLookup.test.ts:36-39 | The node index has exactly the node ids as keys and maps each to an input node carrying that id. |
| `GraphLookup.NodeIndexUnique` | frontend/src/components/resourceMap/graph/graphLookup.test.ts:36-39 | With unique ids, the index maps each node's id to exactly that input node. |
| `GraphLookup.MakeGraphLookup` | frontend/src/components/resourceMap/graph/graphLookup.test.ts:18 | The index built once from the snapshot is keyed, in all three maps, by the set of node ids. |
| `GraphLookup.GetNode` | frontend/src/components/resourceMap/graph/graphLookup.test.ts:36-44 | `getNode` is found exactly for ids with an index entry and is then that entry; otherwise it is `None` (`undefined`). |
| `GraphLookup.GetOutgoingEdges` | frontend/src/components/resourceMap/graph/graphLookup.test.ts:20-26 | `getOutgoingEdges` is found exactly for ids with an entry in the outgoing index and is then that list; otherwise it is `None`, not an empty list. |
| `GraphLookup.GetIncomingEdges` | frontend/src/components/resourceMap/graph/graphLookup.test.ts:28-34 | `getIncomingEdges` is found exactly for ids with an entry in the incoming index and is then that list; otherwise it is `None`, not an empty list. |
| `GraphLookup.GetNodeFindsInputNode` | frontend/src/components/resourceMap/graph/graphLookup.test.ts:36-44 | `getNode` finds a node exactly for node ids, returns an input node with that id unchanged (the one given, when ids are unique), and `None` for unknown ids. |
| `GraphLookup.OutgoingEdgesAreFilter` | frontend/src/components/resourceMap/graph/graphLookup.test.ts:20-26 | `getOutgoingEdges` gives exactly the input edges with that source in input order, is found for a node id with edges, and is `None` (not empty) for an id that is not a node. |
| `GraphLookup.IncomingEdgesAreFilter` | frontend/src/components/resourceMap/graph/graphLookup.test.ts:28-34 | `getIncomingEdges` gives exactly the input edges with that target in input order, and `None` for an id that is not a node. |
| `GraphLookup.EdgelessNodeGetsEmptyLists` | frontend/src/components/resourceMap/graph/graphLookup.test.ts:20-34 | A node id with no outgoing (incoming) edges is found and gets the empty list, not "not found". The tests do not fix this case; it follows from keying the index by node ids. |
| `GraphLookup.SelfLoopInBothLists` | frontend/src/components/resourceMap/graph/graphLookup.test.ts:20-34 | A self-loop on a node appears both in its outgoing and in its incoming list. |
| `GraphLookup.OutgoingEdgesOfConcatenation` | frontend/src/components/resourceMap/graph/graphLookup.test.ts:20-26 | Relative order is kept: the outgoing list for edges `s + t` is the list for `s` followed by the list for `t`. |
| `GraphLookup.ScenarioEdgeLists` | frontend/src/components/resourceMap/graph/graphLookup.test.ts:20-34 | On the three-node snapshot, node "1" has outgoing `[e1, e3]` and node "3" has incoming `[e2, e3]`. |
| `GraphLookup.ScenarioGetNode` | frontend/src/components/resourceMap/graph/graphLookup.test.ts:36-39 | On the same snapshot, `getNode("2")` is the second input node. |
| `GraphLookup.ScenarioUnknownId` | frontend/src/components/resourceMap/graph/graphLookup.test.ts:41-54 | On the same snapshot, all three queries on "non-existent" give `None`. |
| `GraphView.SelectionFor` | frontend/src/components/resourceMap/GraphView.tsx:101-110 | The stored selection is never `'root'`. A `'root'` request stores nothing selected. Every other value, including none, is stored unchanged. |
| `GraphView.SelectionForIdempotent` | frontend/src/components/resourceMap/GraphView.tsx:101-110 | Passing a stored selection through the setter again changes nothing. |
| `GraphView.FilterList` | frontend/src/components/resourceMap/GraphView.tsx:127-136 | The filter list is the defaults in order, then the error filter exactly when its toggle is on, then the namespace filter exactly when a namespace is selected, and nothing else. |
| `GraphView.GraphViewState.AssembleFilters` | frontend/src/components/resourceMap/GraphView.tsx:127-134 | Copying the defaults and pushing the optional filters yields `FilterList` of the current toggles. |
| `GraphView.ZoomTo100` | frontend/src/components/resourceMap/GraphView.tsx:161-185 | Zoom is 1. Only the size of the bounds is used. On each axis where the content fits with 50px padding on both sides, a box of that size at the graph origin gets equal margins of at least 50; otherwise the origin is placed at 50. The content's on-screen margins are equal exactly when its box starts at the origin on that axis. |
| `GraphView.ToggledGroupBy` | frontend/src/components/resourceMap/GraphView.tsx:275-293 | Clicking the active grouping's chip clears the grouping. Clicking any other chip makes that grouping active. |
| `GraphView.ToggledGroupByTwice` | frontend/src/components/resourceMap/GraphView.tsx:283-293 | Two clicks on the same chip restore the grouping when it was off or was that chip's. |
| `GraphView.FindNode` | frontend/src/components/resourceMap/GraphView.tsx:203-206 | The selected node is the first source node with the selected id; there is none exactly when no node has that id (always none when nothing is selected). |
| `GraphView.GraphViewState.SelectedNode` | frontend/src/components/resourceMap/GraphView.tsx:203-206 | The selected node is a source node whose id is the selection; there is none exactly when no source node has that id. |
| `GraphView.GraphViewState.SelectedGroup` | frontend/src/components/resourceMap/GraphView.tsx:208-212 | For a present, non-empty selected id, the group is `findGroupContaining` on the visible (collapsed) graph, not on the full graph. For an absent or empty id there is none. |
| `GraphView.GraphViewState.constructor` | frontend/src/components/resourceMap/GraphView.tsx:88-113 | Initial view: error filter off, grouped by namespace, the default selection, expand-all off, camera not moved. |
| `GraphView.GraphViewState.SetSelectedNodeId` | frontend/src/components/resourceMap/GraphView.tsx:101-110 | Stores `SelectionFor(id)`. A change of the stored value clears the camera-moved flag, and nothing else changes. The filtered graph (`FilteredGraph`, the memo at lines 127-136) and the grouped full graph (`FullGraph`, the memo at lines 139-147) stay the same, because neither memo lists the selection among its dependencies. |
| `GraphView.GraphViewState.OnMoveStart` | frontend/src/components/resourceMap/GraphView.tsx:315-318 | Only a move with a user event sets the camera-moved flag; a programmatic move leaves it. |
| `GraphView.GraphViewState.OnLayoutArrived` | frontend/src/components/resourceMap/GraphView.tsx:187-196 | The new layout is stored. The camera is recentred with `ZoomTo100` exactly when the user has not moved it. |
| `GraphView.GraphViewState.ZoomTo100Clicked` | frontend/src/components/resourceMap/GraphView.tsx:326-333 | The 100% control recentres the current layout whatever the camera-moved flag says. |
| `GraphView.GraphViewState.ClickGroupBy` | frontend/src/components/resourceMap/GraphView.tsx:275-293 | A chip click toggles the grouping and clears the camera-moved flag. The namespace chip does nothing while exactly one namespace is selected, because it is hidden. The filtered graph stays the same, because its memo (line 136) does not depend on the grouping. |
| `GraphView.GraphViewState.ToggleHasErrorsFilter` | frontend/src/components/resourceMap/GraphView.tsx:295-299 | The error chip flips the error filter. The filtered graph becomes the filter step applied to the source graph with `FilterList` of the flipped toggle (the memo at lines 127-136). |
| `GraphView.GraphViewState.ClickExpandAll` | frontend/src/components/resourceMap/GraphView.tsx:301-307 | Expand-all flips only while the visible graph has fewer than 50 elements (the chip is shown); otherwise nothing changes. The full graph stays the same, because its memo (line 147) groups without expand-all; only the visible graph (`VisibleGraph`, line 144) and its size (`GraphSize`, line 215) can change. |
| `GraphView.GraphViewState.GraphSizeChanged` | frontend/src/components/resourceMap/GraphView.tsx:215-220 | Expand-all is forced off exactly when it is on and the size exceeds 50; at exactly 50 it stays on. The full graph stays the same, as in `ClickExpandAll`. |
| `GraphView.GraphViewState.BackgroundClick` | frontend/src/components/resourceMap/GraphView.tsx:319-325 | With an object node selected, the selection becomes the id of its parent in the full graph, through the setter, or none at top level. With a group or nothing selected, nothing changes. The filtered and full graphs stay the same, as in `SetSelectedNodeId`. |
| `GraphView.GraphViewState.CloseDetails` | frontend/src/components/resourceMap/GraphView.tsx:348-354 | Closing details selects the id of the group holding the selection, or the default selection when there is no such group. The filtered and full graphs stay the same, as in `SetSelectedNodeId`. |
| `DrawerModeSlice.GetItem` | frontend/src/redux/drawerModeSlice.ts:10 | Reading a key gives its stored string, or none exactly when the key is absent. |
| `DrawerModeSlice.LocalStorage.SetItem` | frontend/src/redux/drawerModeSlice.ts:26 | Writing a key replaces that key's entry and no other. |
| `DrawerModeSlice.BoolString` | frontend/src/redux/drawerModeSlice.ts:26 | A flag is stored as "true" or "false", and "true" exactly for true. |
| `DrawerModeSlice.GetLocalDrawerStatus` | frontend/src/redux/drawerModeSlice.ts:9-13 | The status is false for an absent key, and true exactly when the stored string is "true". |
| `DrawerModeSlice.DrawerStatusRoundTrip` | frontend/src/redux/drawerModeSlice.ts:9-27 | After the flag `b` is written under the drawer key, reading the status back gives `b`. |
| `DrawerModeSlice.DrawerStatusWriteIsLocal` | frontend/src/redux/drawerModeSlice.ts:24-27 | Writing the drawer flag does not change the status read under any other key. |
| `DrawerModeSlice.DrawerModeState.constructor` | frontend/src/redux/drawerModeSlice.ts:15-18 | Initial state: the flag read from the "detailDrawerEnabled" key, with no resource selected. |
| `DrawerModeSlice.DrawerModeState.SetDetailDrawerEnabled` | frontend/src/redux/drawerModeSlice.ts:24-27 | Sets the flag and stores "true"/"false" under "detailDrawerEnabled". Reading it back gives the flag. The selected resource is unchanged. |
| `DrawerModeSlice.DrawerModeState.SetSelectedResource` | frontend/src/redux/drawerModeSlice.ts:29-31 | Replaces only the selected resource; the flag and the store are untouched. |
| `Vpa.TargetRecommendations` | frontend/src/lib/k8s/vpa.ts:144-151 | Null exactly when the status or its recommendation is missing. A value exactly when the container list is present and non-empty, and then it is the first container's target. Otherwise undefined. |
| `Vpa.ReferenceNamespace` | frontend/src/lib/k8s/vpa.ts:136 | The target's namespace when it is non-empty, otherwise (absent or empty) the autoscaler's own namespace. |
| `Vpa.ReferenceObject` | frontend/src/lib/k8s/vpa.ts:124-142 | Resolves exactly when a target reference exists and its kind is registered. Then it is an object of the registered class carrying the target's kind and name and the fallback namespace. |
| `Vpa.GetBaseObject` | frontend/src/lib/k8s/vpa.ts:86-96 | The skeleton gets a spec whose target reference has empty api version, kind and name and no namespace; everything else of the base skeleton is kept. |
| `Vpa.BaseObjectReference` | frontend/src/lib/k8s/vpa.ts:86-142 | The skeleton refers to an object only if the empty kind is registered, and then to one with an empty name in the skeleton's namespace. |

## Left out

- The graph pipeline: filtering, grouping, collapsing, group and parent lookup, graph size and layout. Their implementation files are not part of this model. They are fields of `GraphView.Pipeline`, and no behaviour is assumed of them.
- The index's implementation file (`graphLookup.ts`) is not part of this model. Keying the index by node ids, with each edge filed under both of its ends, is this model's own choice; the tests allow it but do not require it.
- `GraphLookup.OutgoingEdgesAreFilter`: the tests do not decide what an edge end that is not a node gets. This model gives it `None` (for example, `GetOutgoingEdges(MakeGraphLookup([], [GraphEdge("e", "x", "y", "t")]), "x")` is `None`); an index keyed by edge endpoints would give a list. The tests also leave open whether a known node with no edges gets an empty list or "not found". This model's node-id keying decides that it is found with the empty list (`GraphLookup.EdgelessNodeGetsEmptyLists`); an implementation that files only edges it has seen would give "not found". `GraphLookup.IncomingEdgesAreFilter` makes the same two choices.
- The asynchronous layout call and its promise. `OnLayoutArrived` takes the resolved layout as its argument. The source has no guard against a stale layout, and the model has none either.
- `GraphView.ZoomTo100`: the bounds' corner (`x`, `y`) is ignored, as the source ignores it. The "equal margins" therefore hold on screen only for content whose bounding box starts at the graph origin; the contract states this both ways.
- `getNodesBounds` and the renderer's store (width, height, `setViewport`). The bounds come from `Pipeline.getNodesBounds`. Width and height are fields. The camera is the `viewport` field. Sizes are `real`, not floating point.
- The aspect ratio passed to the layout, because it only feeds the uninterpreted layout.
- `GraphView.GraphViewState.GraphSizeChanged`: the source runs this step only when the size value changes. The model leaves when to call it to the caller.
- Persisting the selection and grouping in the URL query string. The constructor starts from the defaults, not from a URL.
- The highlight set, the search box, the breadcrumbs and the sources panel, because they are rendering glue.
- `VPA.isEnabled`, because it is a network request.
- `Vpa.ReferenceObject`: the registry is modelled as a map holding only the registry object's own entries. A property the object inherits is truthy in the source. For "toString", "hasOwnProperty" and the other inherited names except "constructor", the getter then calls `new` on a non-constructor and throws a `TypeError`. For "constructor" it finds `Object`, and `new Object({...})` gives back the argument itself, so the getter returns a plain object carrying the target's kind, name and namespace. The model gives `None` for every inherited name; it models neither the throw nor the plain object. The constructed object has only the fields it is given. The resource classes' own constructors and the base class's `getBaseObject` are not part of this model; the latter is the `base` parameter of `GetBaseObject`.
- The VPA's resource policy, eviction requirements and condition details. No modelled getter reads them.
- The `ChipToggleButton` and theme components, and the JSX layout.
- The drawer-mode toggle button and the details drawer component. They only dispatch the two reducers and log.
- The mutating-webhook configuration types, because they declare types and a constant and have no behaviour.
- Redux Toolkit and Immer, which are replaced by the classes' fields, and the selector hooks.
