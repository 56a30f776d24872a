/** The saved-papers library: a list of papers in which `toggleSave` adds a
    paper whose `id` is missing and removes every entry carrying a present one. */
module Library {
  import opened Types

  /** Which identifying field of a paper a lookup compares: the store keys
      on `id`, the detail view and the library page on `paper_id`. */
  datatype KeyField = IdField | PaperIdField

  function KeyOf(p: Paper, field: KeyField): string
  {
    match field
    case IdField => p.id
    case PaperIdField => p.paperId
  }

  /** `papers.some(p => p.<field> === key)`. */
  function HasKey(papers: seq<Paper>, field: KeyField, key: string): (b: bool)
    ensures b <==> exists i :: 0 <= i < |papers| && KeyOf(papers[i], field) == key
  {
    if papers == [] then false
    else if KeyOf(papers[0], field) == key then true
    else
      var rest := HasKey(papers[1..], field, key);
      assert forall i :: 0 < i < |papers| ==> papers[i] == papers[1..][i - 1];
      rest
  }

  /** `papers.filter(p => p.id !== id)`. */
  function WithoutId(papers: seq<Paper>, id: string): (r: seq<Paper>)
    ensures |r| <= |papers|
  {
    if papers == [] then []
    else if papers[0].id == id then WithoutId(papers[1..], id)
    else [papers[0]] + WithoutId(papers[1..], id)
  }

  /** The filter drops at least one entry when some entry has the `id`. */
  lemma {:induction false} WithoutIdShrinks(papers: seq<Paper>, id: string)
    requires HasKey(papers, IdField, id)
    ensures |WithoutId(papers, id)| < |papers|
  {
    if papers[0].id != id {
      assert KeyOf(papers[0], IdField) != id;
      WithoutIdShrinks(papers[1..], id);
    }
  }

  /** The filter keeps exactly the entries whose `id` differs. */
  lemma {:induction false} WithoutIdMembers(papers: seq<Paper>, id: string)
    ensures forall q :: q in WithoutId(papers, id) <==> q in papers && q.id != id
  {
    if papers != [] {
      WithoutIdMembers(papers[1..], id);
      assert papers == [papers[0]] + papers[1..];
    }
  }

  /** The list `toggleSave(paper)` leaves behind: without every entry whose
      `id` is `paper.id` when one is present, with `paper` appended otherwise. */
  function Toggled(papers: seq<Paper>, paper: Paper): (r: seq<Paper>)
    ensures !HasKey(papers, IdField, paper.id) ==>
              |r| == |papers| + 1 && r[..|papers|] == papers && r[|papers|] == paper
    ensures HasKey(papers, IdField, paper.id) ==> |r| < |papers|
  {
    if HasKey(papers, IdField, paper.id) then
      WithoutIdShrinks(papers, paper.id);
      WithoutId(papers, paper.id)
    else papers + [paper]
  }

  /** No two entries share an `id`. */
  ghost predicate UniqueIds(papers: seq<Paper>)
  {
    forall i, j :: 0 <= i < j < |papers| ==> papers[i].id != papers[j].id
  }

  /** Filtering keeps the relative order of what it keeps: it distributes over concatenation. */
  lemma {:induction false} WithoutIdDistributes(a: seq<Paper>, b: seq<Paper>, id: string)
    ensures WithoutId(a + b, id) == WithoutId(a, id) + WithoutId(b, id)
  {
    if a != [] {
      assert (a + b)[0] == a[0];
      assert (a + b)[1..] == a[1..] + b;
      WithoutIdDistributes(a[1..], b, id);
      if a[0].id != id {
        assert WithoutId(a + b, id) == [a[0]] + WithoutId(a[1..] + b, id);
      }
    } else {
      assert a + b == b;
    }
  }

  /** Filtering out an `id` that no entry carries changes nothing. */
  lemma {:induction false} WithoutAbsentId(papers: seq<Paper>, id: string)
    requires !HasKey(papers, IdField, id)
    ensures WithoutId(papers, id) == papers
  {
    if papers != [] {
      assert KeyOf(papers[0], IdField) == papers[0].id;
      WithoutAbsentId(papers[1..], id);
    }
  }

  /** With unique ids, no entry before or after index k carries entry k's `id`. */
  lemma UniqueIdAbsentElsewhere(papers: seq<Paper>, k: int)
    requires UniqueIds(papers) && 0 <= k < |papers|
    ensures !HasKey(papers[..k], IdField, papers[k].id)
    ensures !HasKey(papers[k + 1..], IdField, papers[k].id)
  {
    var id, before, after := papers[k].id, papers[..k], papers[k + 1..];
    forall i | 0 <= i < |before| ensures KeyOf(before[i], IdField) != id {
      assert before[i] == papers[i];
    }
    forall i | 0 <= i < |after| ensures KeyOf(after[i], IdField) != id {
      assert after[i] == papers[k + 1 + i];
    }
  }

  /** Removing the `id` of an entry that the entries around it do not carry
      leaves exactly those entries. */
  lemma WithoutMiddle(before: seq<Paper>, p: Paper, after: seq<Paper>)
    requires WithoutId(before, p.id) == before && WithoutId(after, p.id) == after
    ensures WithoutId(before + [p] + after, p.id) == before + after
  {
    WithoutIdDistributes(before + [p], after, p.id);
    WithoutIdDistributes(before, [p], p.id);
    assert WithoutId([p], p.id) == [];
    assert before + [] == before;
  }

  /** A list is its entries before index k, the entry at k, and the entries after it. */
  lemma SplitAt(papers: seq<Paper>, k: int)
    requires 0 <= k < |papers|
    ensures papers == papers[..k] + [papers[k]] + papers[k + 1..]
  {
    assert papers[k..] == [papers[k]] + papers[k + 1..];
    assert papers == papers[..k] + papers[k..];
  }

  /** The same, for an entry given by its index. */
  lemma WithoutAt(papers: seq<Paper>, k: int)
    requires 0 <= k < |papers|
    requires WithoutId(papers[..k], papers[k].id) == papers[..k]
    requires WithoutId(papers[k + 1..], papers[k].id) == papers[k + 1..]
    ensures WithoutId(papers, papers[k].id) == papers[..k] + papers[k + 1..]
  {
    SplitAt(papers, k);
    WithoutMiddle(papers[..k], papers[k], papers[k + 1..]);
  }

  /** With unique ids, removing the entry at index k leaves exactly the entries before and after it. */
  lemma RemovesExactlyOne(papers: seq<Paper>, k: int)
    requires UniqueIds(papers) && 0 <= k < |papers|
    ensures WithoutId(papers, papers[k].id) == papers[..k] + papers[k + 1..]
  {
    UniqueIdAbsentElsewhere(papers, k);
    WithoutAbsentId(papers[..k], papers[k].id);
    WithoutAbsentId(papers[k + 1..], papers[k].id);
    WithoutAt(papers, k);
  }

  /** After a toggle the paper's `id` is saved exactly when it was not before. */
  lemma ToggleFlipsSaved(papers: seq<Paper>, paper: Paper)
    ensures HasKey(Toggled(papers, paper), IdField, paper.id) == !HasKey(papers, IdField, paper.id)
  {
    var t := Toggled(papers, paper);
    if HasKey(papers, IdField, paper.id) {
      WithoutIdMembers(papers, paper.id);
      forall i | 0 <= i < |t| ensures KeyOf(t[i], IdField) != paper.id {
        assert t[i] in t;
      }
    } else {
      assert KeyOf(t[|papers|], IdField) == paper.id;
    }
  }

  /** A toggle does not change whether any other `id` is saved. */
  lemma ToggleKeepsOthers(papers: seq<Paper>, paper: Paper, other: string)
    requires other != paper.id
    ensures HasKey(Toggled(papers, paper), IdField, other) == HasKey(papers, IdField, other)
  {
    var t := Toggled(papers, paper);
    if HasKey(papers, IdField, paper.id) {
      WithoutIdMembers(papers, paper.id);
      if HasKey(papers, IdField, other) {
        var i :| 0 <= i < |papers| && KeyOf(papers[i], IdField) == other;
        assert papers[i] in t;
        var j :| 0 <= j < |t| && t[j] == papers[i];
        assert KeyOf(t[j], IdField) == other;
      }
      if HasKey(t, IdField, other) {
        var j :| 0 <= j < |t| && KeyOf(t[j], IdField) == other;
        assert t[j] in papers;
        var i :| 0 <= i < |papers| && papers[i] == t[j];
        assert KeyOf(papers[i], IdField) == other;
      }
    } else {
      if HasKey(t, IdField, other) {
        var j :| 0 <= j < |t| && KeyOf(t[j], IdField) == other;
        assert j < |papers| && t[j] == papers[j];
      }
      if HasKey(papers, IdField, other) {
        var i :| 0 <= i < |papers| && KeyOf(papers[i], IdField) == other;
        assert t[i] == papers[i];
      }
    }
  }

  /** Toggling an absent paper twice restores the original list. */
  lemma ToggleTwiceRestores(papers: seq<Paper>, paper: Paper)
    requires !HasKey(papers, IdField, paper.id)
    ensures Toggled(Toggled(papers, paper), paper) == papers
  {
    ToggleFlipsSaved(papers, paper);
    WithoutIdDistributes(papers, [paper], paper.id);
    WithoutAbsentId(papers, paper.id);
    assert WithoutId([paper], paper.id) == [];
  }

  /** Toggling a present paper twice does not restore the list: the paper comes back at the end. */
  lemma ToggleTwiceMovesToEnd(papers: seq<Paper>, paper: Paper)
    requires HasKey(papers, IdField, paper.id)
    ensures Toggled(Toggled(papers, paper), paper) == WithoutId(papers, paper.id) + [paper]
  {
    ToggleFlipsSaved(papers, paper);
  }

  /** Unique ids stay unique, and every toggle changes the length by exactly one. */
  lemma ToggleKeepsUnique(papers: seq<Paper>, paper: Paper)
    requires UniqueIds(papers)
    ensures UniqueIds(Toggled(papers, paper))
    ensures |Toggled(papers, paper)| == if HasKey(papers, IdField, paper.id) then |papers| - 1 else |papers| + 1
  {
    if HasKey(papers, IdField, paper.id) {
      var k :| 0 <= k < |papers| && KeyOf(papers[k], IdField) == paper.id;
      RemovalKeepsUnique(papers, k);
    } else {
      AppendKeepsUnique(papers, paper);
    }
  }

  /** Removing the entry at k keeps the others' ids distinct. */
  lemma RemovalKeepsUnique(papers: seq<Paper>, k: int)
    requires UniqueIds(papers) && 0 <= k < |papers|
    ensures UniqueIds(WithoutId(papers, papers[k].id))
    ensures |WithoutId(papers, papers[k].id)| == |papers| - 1
  {
    var t := WithoutId(papers, papers[k].id);
    RemovesExactlyOne(papers, k);
    forall i, j | 0 <= i < j < |t| ensures t[i].id != t[j].id {
      var i' := if i < k then i else i + 1;
      var j' := if j < k then j else j + 1;
      assert t[i] == papers[i'] && t[j] == papers[j'];
    }
  }

  /** Appending an entry whose id is absent keeps the ids distinct. */
  lemma AppendKeepsUnique(papers: seq<Paper>, paper: Paper)
    requires UniqueIds(papers) && !HasKey(papers, IdField, paper.id)
    ensures UniqueIds(papers + [paper])
  {
    var t := papers + [paper];
    forall i, j | 0 <= i < j < |t| ensures t[i].id != t[j].id {
      if j == |papers| {
        assert KeyOf(papers[i], IdField) != paper.id;
      }
    }
  }

  /** The library store. */
  class LibraryStore {
    var savedPapers: seq<Paper>

    /** The library starts empty. */
    constructor ()
      ensures savedPapers == []
    {
      savedPapers := [];
    }

    /** Add the paper if its `id` is missing, remove every entry with that `id` otherwise. */
    method ToggleSave(paper: Paper)
      modifies this
      ensures savedPapers == Toggled(old(savedPapers), paper)
      ensures IsSaved(paper.id) == !old(IsSaved(paper.id))
      ensures forall other :: other != paper.id ==> IsSaved(other) == old(IsSaved(other))
    {
      var present := HasKey(savedPapers, IdField, paper.id);
      if present {
        savedPapers := WithoutId(savedPapers, paper.id);
      } else {
        savedPapers := savedPapers + [paper];
      }
      ToggleFlipsSaved(old(savedPapers), paper);
      forall other | other != paper.id
        ensures HasKey(savedPapers, IdField, other) == HasKey(old(savedPapers), IdField, other)
      {
        ToggleKeepsOthers(old(savedPapers), paper, other);
      }
    }

    /** Whether some saved paper has this `id`. */
    function IsSaved(paperId: string): (b: bool)
      reads this
      ensures b <==> exists i :: 0 <= i < |savedPapers| && savedPapers[i].id == paperId
    {
      HasKey(savedPapers, IdField, paperId)
    }
  }
}
