/** The dashboard's selected paper id, graph data and loading flag. */
module Dashboard {
  import opened Types

  class DashboardStore {
    var selectedPaperId: Option<string>
    var graphData: Option<GraphData>
    var isLoading: bool

    /** No selection, no graph, not loading. */
    constructor ()
      ensures selectedPaperId == None && graphData == None && !isLoading
    {
      selectedPaperId, graphData, isLoading := None, None, false;
    }

    method SetSelectedPaperId(id: Option<string>)
      modifies this
      ensures selectedPaperId == id
      ensures graphData == old(graphData) && isLoading == old(isLoading)
    {
      selectedPaperId := id;
    }

    /** `None` clears the graph. */
    method SetGraphData(data: Option<GraphData>)
      modifies this
      ensures graphData == data
      ensures selectedPaperId == old(selectedPaperId) && isLoading == old(isLoading)
    {
      graphData := data;
    }

    method SetIsLoading(loading: bool)
      modifies this
      ensures isLoading == loading
      ensures selectedPaperId == old(selectedPaperId) && graphData == old(graphData)
    {
      isLoading := loading;
    }
  }

  /** Setting the same id twice is setting it once; the last call wins. */
  method SetSelectedPaperIdTwice(store: DashboardStore, first: Option<string>, second: Option<string>)
    modifies store
    ensures store.selectedPaperId == second
    ensures store.graphData == old(store.graphData) && store.isLoading == old(store.isLoading)
  {
    store.SetSelectedPaperId(first);
    store.SetSelectedPaperId(second);
  }
}
