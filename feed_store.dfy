/** The dashboard feed: the papers shown and a loading flag. */
module Feed {
  import opened Types

  /** An entry of the feed is either a full paper or a recommended one. */
  datatype FeedPaper = Details(paper: Paper) | Recommended(recommended: RecommendedPaper)

  class FeedStore {
    var papers: seq<FeedPaper>
    var loading: bool

    /** No papers, and loading until the first fetch ends. */
    constructor ()
      ensures papers == [] && loading
    {
      papers, loading := [], true;
    }

    method SetPapers(newPapers: seq<FeedPaper>)
      modifies this
      ensures papers == newPapers && loading == old(loading)
    {
      papers := newPapers;
    }

    method SetLoading(value: bool)
      modifies this
      ensures loading == value && papers == old(papers)
    {
      loading := value;
    }
  }

  /** Repeating a setter with the same argument has no further effect. */
  method SetPapersTwice(store: FeedStore, newPapers: seq<FeedPaper>)
    modifies store
    ensures store.papers == newPapers && store.loading == old(store.loading)
  {
    store.SetPapers(newPapers);
    store.SetPapers(newPapers);
  }
}
