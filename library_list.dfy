/** The dashboard sidebar's "My Library" list: nothing for an empty library,
    otherwise a header with the count and one clickable title per paper. */
module LibraryList {
  import opened Types
  import Selection

  /** The rendered panel: the header count and the item titles in order. */
  datatype Panel = Panel(count: nat, items: seq<string>)

  /** The titles of the saved papers, in list order. */
  function Titles(saved: seq<Paper>): (titles: seq<string>)
    ensures |titles| == |saved|
    ensures forall i :: 0 <= i < |saved| ==> titles[i] == saved[i].title
  {
    if saved == [] then [] else [saved[0].title] + Titles(saved[1..])
  }

  /** The list as rendered; `None` when the component renders nothing. */
  function Render(saved: seq<Paper>): (r: Option<Panel>)
    ensures r.None? <==> saved == []
    ensures r.Some? ==> r.value.count == |saved| && r.value.items == Titles(saved)
  {
    if |saved| == 0 then None else Some(Panel(|saved|, Titles(saved)))
  }

  /** The node a click selects: the paper's fields spread into a graph node,
      with its title as the label. A saved paper has no `type` or `color`. */
  function NodeOfPaper(paper: Paper): (n: GraphNode)
    ensures n.id == paper.id && n.nodeLabel == paper.title
    ensures n.paperId == Some(paper.paperId) && n.title == Some(paper.title)
    ensures n.nodeType == None && n.color == None
  {
    GraphNode(paper.id, paper.title, None, None, Some(paper.paperId), Some(paper.title))
  }

  /** The label a selected node carries is the paper's title, so a click on
      the i-th item selects a node labelled with the i-th title shown. */
  lemma SelectedLabelIsShownTitle(saved: seq<Paper>, i: int)
    requires 0 <= i < |saved|
    ensures Render(saved).Some?
    ensures NodeOfPaper(saved[i]).nodeLabel == Render(saved).value.items[i]
  {
  }

  /** A click on an item. */
  method ClickItem(selection: Selection.SelectionStore, paper: Paper)
    modifies selection
    ensures selection.selectedNode == Some(NodeOfPaper(paper))
  {
    selection.SetSelectedNode(Some(NodeOfPaper(paper)));
  }
}
