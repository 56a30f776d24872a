/** The last recommendation batch: its papers and its generation metadata. */
module Recommendation {
  import opened Types

  class RecommendationStore {
    var results: seq<RecommendedPaper>
    var metadata: Option<RecommendationMetadata>

    /** No results and no metadata. */
    constructor ()
      ensures results == [] && metadata == None
      ensures !HasResults()
    {
      results, metadata := [], None;
    }

    /** Stores a batch and its metadata, replacing the previous one. */
    method SetRecommendations(papers: seq<RecommendedPaper>, meta: RecommendationMetadata)
      modifies this
      ensures results == papers && metadata == Some(meta)
      ensures HasResults() <==> papers != []
    {
      results, metadata := papers, Some(meta);
    }

    /** Back to no results and no metadata. */
    method ClearRecommendations()
      modifies this
      ensures results == [] && metadata == None
      ensures !HasResults()
    {
      results, metadata := [], None;
    }

    predicate HasResults()
      reads this
      ensures HasResults() <==> results != []
    {
      |results| > 0
    }
  }
}
