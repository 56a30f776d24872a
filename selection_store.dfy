/** The graph node currently inspected, or none. */
module Selection {
  import opened Types

  class SelectionStore {
    var selectedNode: Option<GraphNode>

    constructor ()
      ensures selectedNode == None
    {
      selectedNode := None;
    }

    /** Stores exactly the given node; `None` clears the selection. */
    method SetSelectedNode(node: Option<GraphNode>)
      modifies this
      ensures selectedNode == node
    {
      selectedNode := node;
    }
  }
}
