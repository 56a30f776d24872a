/** Entities exchanged with the external API, reduced to the fields the client code reads. */
module Types {

  datatype Option<+T> = None | Some(value: T)

  /** A paper as the detail view, the library and the feed hold it. The
      library store keys on `id`, the detail view and the library page on
      `paperId` (the API's `paper_id`); the two are separate fields. */
  datatype Paper = Paper(id: string, paperId: string, title: string)

  /** A paper from a recommendation batch. */
  datatype RecommendedPaper = RecommendedPaper(paperId: string, title: string)

  /** Generation metadata returned with a recommendation batch. */
  datatype RecommendationMetadata = RecommendationMetadata(strategy: string)

  /** A node of the citation graph. `nodeType` and `color` may be absent;
      `paperId` and `title` are present only on nodes built from a saved paper. */
  datatype GraphNode = GraphNode(
    id: string,
    nodeLabel: string,
    nodeType: Option<string>,
    color: Option<string>,
    paperId: Option<string>,
    title: Option<string>)

  datatype GraphEdge = GraphEdge(source: string, target: string)

  datatype GraphStats = GraphStats(totalNodes: int, totalEdges: int)

  /** The citation-network response for one central paper. */
  datatype GraphData = GraphData(nodes: seq<GraphNode>, edges: seq<GraphEdge>, stats: GraphStats)
}
