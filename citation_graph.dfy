/** The citation-graph panel: the graph it hands to the force layout, the
    node colours, the header title, and what a node click selects. */
module CitationGraph {
  import opened Types
  import Selection

  const CENTRAL := "central"
  const CENTRAL_COLOR := "#ff5252"
  const DEFAULT_COLOR := "#4285F4"
  const HEADER_LIMIT := 40
  const ELLIPSIS := "..."

  /** The `{ nodes, links }` value given to the layout. */
  datatype LayoutGraph = LayoutGraph(nodes: seq<GraphNode>, links: seq<GraphEdge>)

  /** `{ ...node }`: a field-by-field copy. */
  function CopyNode(n: GraphNode): GraphNode
  {
    GraphNode(n.id, n.nodeLabel, n.nodeType, n.color, n.paperId, n.title)
  }

  function CopyEdge(e: GraphEdge): GraphEdge
  {
    GraphEdge(e.source, e.target)
  }

  /** `nodes.map(node => ({ ...node }))`. */
  function CopyNodes(nodes: seq<GraphNode>): (r: seq<GraphNode>)
    ensures r == nodes
  {
    if nodes == [] then [] else [CopyNode(nodes[0])] + CopyNodes(nodes[1..])
  }

  /** `edges.map(link => ({ ...link }))`. */
  function CopyEdges(edges: seq<GraphEdge>): (r: seq<GraphEdge>)
    ensures r == edges
  {
    if edges == [] then [] else [CopyEdge(edges[0])] + CopyEdges(edges[1..])
  }

  /** The memoised projection: empty without data, element-wise copies of
      the response's nodes and edges otherwise. */
  function Project(data: Option<GraphData>): (g: LayoutGraph)
    ensures data.None? ==> g.nodes == [] && g.links == []
    ensures data.Some? ==> g.nodes == data.value.nodes && g.links == data.value.edges
  {
    if data.None? then LayoutGraph([], [])
    else LayoutGraph(CopyNodes(data.value.nodes), CopyEdges(data.value.edges))
  }

  predicate IsCentral(n: GraphNode)
  {
    n.nodeType == Some(CENTRAL)
  }

  /** A node's colour: red for the central paper; any other node its own
      colour, or the default blue when that is missing or empty. */
  function NodeColor(n: GraphNode): (c: string)
    ensures IsCentral(n) ==> c == CENTRAL_COLOR
    ensures !IsCentral(n) && n.color.Some? && n.color.value != "" ==> c == n.color.value
    ensures !IsCentral(n) && (n.color.None? || n.color.value == "") ==> c == DEFAULT_COLOR
    ensures c != ""
  {
    if IsCentral(n) then CENTRAL_COLOR
    else if n.color.Some? && n.color.value != "" then n.color.value
    else DEFAULT_COLOR
  }

  /** `nodes.find(n => n.type === 'central')`: the first central node, if any. */
  function FirstCentral(nodes: seq<GraphNode>): (r: Option<GraphNode>)
    ensures r.None? <==> forall i :: 0 <= i < |nodes| ==> !IsCentral(nodes[i])
    ensures r.Some? ==> exists k :: 0 <= k < |nodes| && nodes[k] == r.value && IsCentral(nodes[k])
                                   && forall i :: 0 <= i < k ==> !IsCentral(nodes[i])
  {
    if nodes == [] then None
    else if IsCentral(nodes[0]) then Some(nodes[0])
    else
      var rest := FirstCentral(nodes[1..]);
      assert forall i :: 0 < i < |nodes| ==> nodes[i] == nodes[1..][i - 1];
      if rest.Some? then
        ghost var k :| 0 <= k < |nodes[1..]| && nodes[1..][k] == rest.value && IsCentral(nodes[1..][k])
                       && forall i :: 0 <= i < k ==> !IsCentral(nodes[1..][i]);
        assert nodes[k + 1] == rest.value;
        rest
      else rest
  }

  /** The header title: the first 40 characters of the first central node's
      label, then "..."; with no central node only "..." is shown. */
  function HeaderTitle(data: GraphData): (r: string)
    ensures |r| <= HEADER_LIMIT + |ELLIPSIS|
    ensures |r| >= |ELLIPSIS| && r[|r| - |ELLIPSIS|..] == ELLIPSIS
    ensures FirstCentral(data.nodes).None? ==> r == ELLIPSIS
    ensures FirstCentral(data.nodes).Some? ==>
              var l := FirstCentral(data.nodes).value.nodeLabel;
              var n := if |l| < HEADER_LIMIT then |l| else HEADER_LIMIT;
              |r| == n + |ELLIPSIS| && r[..n] == l[..n]
  {
    match FirstCentral(data.nodes)
    case None => ELLIPSIS
    case Some(central) =>
      var l := central.nodeLabel;
      (if |l| < HEADER_LIMIT then l else l[..HEADER_LIMIT]) + ELLIPSIS
  }

  /** The panel's state: the loaded graph, if any. */
  class GraphPanel {
    var data: Option<GraphData>

    /** Nothing loaded: the placeholder is shown. */
    constructor ()
      ensures data == None
    {
      data := None;
    }

    /** The graph request succeeded. */
    method LoadSucceeded(graph: GraphData)
      modifies this
      ensures data == Some(graph)
    {
      data := Some(graph);
    }

    /** A failed graph request is only logged: the state is kept. */
    method LoadFailed()
      ensures data == old(data)
    {
    }

    /** What the layout is given. */
    function Layout(): (g: LayoutGraph)
      reads this
      ensures data.None? ==> g.nodes == [] && g.links == []
      ensures data.Some? ==> |g.nodes| == |data.value.nodes| && |g.links| == |data.value.edges|
    {
      Project(data)
    }

    /** A node click selects exactly that node. */
    method ClickNode(selection: Selection.SelectionStore, node: GraphNode)
      modifies selection
      ensures selection.selectedNode == Some(node)
      ensures data == old(data)
    {
      selection.SetSelectedNode(Some(node));
    }
  }
}
