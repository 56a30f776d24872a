/** The library page: the saved-paper count, the empty state, one card per
    saved paper with a shortened title, and the Remove button. */
module LibraryPage {
  import opened Types
  import opened Library

  const TITLE_LIMIT := 60
  const ELLIPSIS := "..."
  const GRAPH_LINK_PREFIX := "/dashboard?paperId="

  /** A card's title: a title longer than 60 characters is cut to its first
      60 and followed by "...". */
  function DisplayTitle(title: string): (r: string)
    ensures |r| <= TITLE_LIMIT + |ELLIPSIS|
    ensures |title| <= TITLE_LIMIT ==> r == title
    ensures |title| > TITLE_LIMIT ==> |r| == TITLE_LIMIT + |ELLIPSIS| && r[TITLE_LIMIT..] == ELLIPSIS
    ensures var n := if |title| < TITLE_LIMIT then |title| else TITLE_LIMIT;
            |r| >= n && r[..n] == title[..n]
  {
    if |title| > TITLE_LIMIT then title[..TITLE_LIMIT] + ELLIPSIS else title
  }

  /** Shortening is idempotent: a shortened title is 63 characters long, so
      it is cut again, to the same 60 characters and the same "...". */
  lemma DisplayTitleIdempotent(title: string)
    ensures DisplayTitle(DisplayTitle(title)) == DisplayTitle(title)
  {
    var once := DisplayTitle(title);
    if |title| > TITLE_LIMIT {
      assert once[..TITLE_LIMIT] == title[..TITLE_LIMIT];
    }
  }

  /** One paper card: keyed by `paper_id`, with its displayed title and the
      link to the paper's graph on the dashboard. */
  datatype Card = Card(key: string, title: string, graphLink: string)

  function CardOf(paper: Paper): (c: Card)
    ensures c.key == paper.paperId
    ensures c.graphLink == GRAPH_LINK_PREFIX + paper.paperId
    ensures c.title == DisplayTitle(paper.title)
  {
    Card(paper.paperId, DisplayTitle(paper.title), GRAPH_LINK_PREFIX + paper.paperId)
  }

  /** `savedPapers.map(...)`: one card per saved paper, in list order. */
  function Cards(saved: seq<Paper>): (cards: seq<Card>)
    ensures |cards| == |saved|
    ensures forall i :: 0 <= i < |saved| ==> cards[i] == CardOf(saved[i])
  {
    if saved == [] then [] else [CardOf(saved[0])] + Cards(saved[1..])
  }

  /** What the page shows: the count in the header, then either the empty
      state or the grid of cards. */
  datatype PageView = PageView(savedCount: nat, body: Body)
  datatype Body = EmptyState | Grid(cards: seq<Card>)

  function Render(saved: seq<Paper>): (v: PageView)
    ensures v.savedCount == |saved|
    ensures v.body.EmptyState? <==> saved == []
    ensures v.body.Grid? ==> v.body.cards == Cards(saved) && |v.body.cards| == v.savedCount
  {
    PageView(|saved|, if |saved| == 0 then EmptyState else Grid(Cards(saved)))
  }

  /** The Remove button of a card: toggles a paper that is in the list, so
      it is always a removal. */
  method RemoveCard(library: LibraryStore, paper: Paper)
    requires paper in library.savedPapers
    modifies library
    ensures library.savedPapers == WithoutId(old(library.savedPapers), paper.id)
    ensures !library.IsSaved(paper.id)
    ensures UniqueIds(old(library.savedPapers)) ==> |library.savedPapers| == |old(library.savedPapers)| - 1
  {
    ghost var before := library.savedPapers;
    ghost var k :| 0 <= k < |before| && before[k] == paper;
    assert KeyOf(before[k], IdField) == paper.id;
    if UniqueIds(before) {
      ToggleKeepsUnique(before, paper);
    }
    library.ToggleSave(paper);
  }

  /** A card's Remove makes the card disappear: with unique ids, the page
      after the removal shows every other card, in order. */
  lemma RemoveDropsOneCard(saved: seq<Paper>, k: int)
    requires UniqueIds(saved) && 0 <= k < |saved|
    ensures Render(Toggled(saved, saved[k])).savedCount == |saved| - 1
    ensures Cards(Toggled(saved, saved[k])) == Cards(saved[..k]) + Cards(saved[k + 1..])
  {
    assert KeyOf(saved[k], IdField) == saved[k].id;
    RemovesExactlyOne(saved, k);
    CardsAppend(saved[..k], saved[k + 1..]);
  }

  lemma CardsAppend(a: seq<Paper>, b: seq<Paper>)
    ensures Cards(a + b) == Cards(a) + Cards(b)
  {
    var l, r := Cards(a + b), Cards(a) + Cards(b);
    assert |l| == |r|;
    forall i | 0 <= i < |l| ensures l[i] == r[i] {
      if i < |a| {
        assert (a + b)[i] == a[i];
      } else {
        assert (a + b)[i] == b[i - |a|];
      }
    }
  }
}
