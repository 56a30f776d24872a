/** The paper detail panel: its saved flag, the Save button and the
    like/dislike feedback buttons. */
module PaperDetails {
  import opened Types
  import opened Library

  datatype Feedback = Like | Dislike

  /** The button that is not `f`. */
  function Other(f: Feedback): Feedback
  {
    if f == Like then Dislike else Like
  }

  /** The feedback after a click on `clicked`: clicking the active type clears
      it, clicking the other type or clicking with nothing active selects it. */
  function NextFeedback(prev: Option<Feedback>, clicked: Feedback): (r: Option<Feedback>)
    ensures prev == Some(clicked) ==> r == None
    ensures prev != Some(clicked) ==> r == Some(clicked)
    ensures r != Some(Other(clicked))
  {
    if prev == Some(clicked) then None else Some(clicked)
  }

  /** A second click on the same type undoes the first exactly when the
      other type was not active before: from null, or from that type. */
  lemma FeedbackTwice(prev: Option<Feedback>, clicked: Feedback)
    ensures NextFeedback(NextFeedback(prev, clicked), clicked) == prev <==> prev != Some(Other(clicked))
  {
    if prev == Some(Other(clicked)) {
      assert NextFeedback(NextFeedback(prev, clicked), clicked) == None;
    } else if prev.Some? {
      // With two types, any other active one is `clicked` itself.
      assert prev.value == clicked by {
        assert prev.value == Like || prev.value == Dislike;
      }
    }
  }

  /** The feedback after a sequence of clicks. */
  function FeedbackAfter(prev: Option<Feedback>, clicks: seq<Feedback>): Option<Feedback>
    decreases |clicks|
  {
    if clicks == [] then prev
    else FeedbackAfter(NextFeedback(prev, clicks[0]), clicks[1..])
  }

  /** Whichever buttons are clicked, like and dislike are never both active,
      and only the type clicked last can be. */
  lemma {:induction false} FeedbackAfterClicks(prev: Option<Feedback>, clicks: seq<Feedback>)
    requires clicks != []
    ensures var r := FeedbackAfter(prev, clicks);
            r == None || r == Some(clicks[|clicks| - 1])
    decreases |clicks|
  {
    var next := NextFeedback(prev, clicks[0]);
    if |clicks| > 1 {
      FeedbackAfterClicks(next, clicks[1..]);
      assert clicks[1..][|clicks| - 2] == clicks[|clicks| - 1];
    }
  }

  /** `isPaperSaved`: some saved paper has the same `paper_id`, which is not
      the key the store toggles on. */
  function IsPaperSaved(saved: seq<Paper>, paper: Paper): (b: bool)
    ensures b <==> exists i :: 0 <= i < |saved| && saved[i].paperId == paper.paperId
  {
    HasKey(saved, PaperIdField, paper.paperId)
  }

  /** When every saved paper matches `paper` on `id` exactly when it matches
      on `paper_id`, Save flips the flag the panel shows. */
  lemma SaveFlipsShownFlag(saved: seq<Paper>, paper: Paper)
    requires forall i :: 0 <= i < |saved| ==> (saved[i].id == paper.id <==> saved[i].paperId == paper.paperId)
    ensures IsPaperSaved(Toggled(saved, paper), paper) == !IsPaperSaved(saved, paper)
  {
    var t := Toggled(saved, paper);
    ToggleFlipsSaved(saved, paper);
    assert IsPaperSaved(saved, paper) == HasKey(saved, IdField, paper.id) by {
      if IsPaperSaved(saved, paper) {
        var i :| 0 <= i < |saved| && saved[i].paperId == paper.paperId;
        assert KeyOf(saved[i], IdField) == paper.id;
      }
    }
    WithoutIdMembers(saved, paper.id);
    forall j | 0 <= j < |t| ensures t[j].id == paper.id <==> t[j].paperId == paper.paperId {
      if HasKey(saved, IdField, paper.id) {
        assert t[j] in saved;
      } else if j < |saved| {
        assert t[j] == saved[j];
      }
    }
    if IsPaperSaved(t, paper) {
      var j :| 0 <= j < |t| && t[j].paperId == paper.paperId;
      assert KeyOf(t[j], IdField) == paper.id;
    }
  }

  /** Without that correspondence the two keys disagree: a saved paper with
      the same `paper_id` but another `id` shows the panel as saved, and Save
      then appends a second entry instead of removing one. */
  lemma SavedFlagAndToggleCanDisagree()
    ensures var saved := [Paper("1", "p", "A")];
            var paper := Paper("2", "p", "A");
            && IsPaperSaved(saved, paper)
            && Toggled(saved, paper) == saved + [paper]
            && IsPaperSaved(Toggled(saved, paper), paper)
  {
    var saved := [Paper("1", "p", "A")];
    var paper := Paper("2", "p", "A");
    assert KeyOf(saved[0], PaperIdField) == paper.paperId;
    assert !HasKey(saved, IdField, paper.id);
  }

  /** The panel's local state. */
  class DetailView {
    var feedback: Option<Feedback>

    /** No feedback given yet. */
    constructor ()
      ensures feedback == None
    {
      feedback := None;
    }

    /** Whether the button of type `f` is shown active. */
    predicate Active(f: Feedback)
      reads this
      ensures Active(f) ==> feedback != Some(Other(f))
      ensures Active(f) <==> feedback.Some? && feedback.value == f
    {
      feedback == Some(f)
    }

    /** `handleFeedback(type)`. */
    method HandleFeedback(clicked: Feedback)
      modifies this
      ensures feedback == NextFeedback(old(feedback), clicked)
      ensures Active(clicked) <==> !old(Active(clicked))
      ensures !(Active(Like) && Active(Dislike))
    {
      feedback := if feedback == Some(clicked) then None else Some(clicked);
    }

    /** The Save button: delegates to the library store's toggle. */
    method Save(library: LibraryStore, paper: Paper)
      modifies library
      ensures library.savedPapers == Toggled(old(library.savedPapers), paper)
      ensures library.IsSaved(paper.id) == !old(library.IsSaved(paper.id))
    {
      library.ToggleSave(paper);
    }
  }

  /** Two clicks on the same type, starting from no feedback, end with no feedback. */
  method ClickTwiceFromNull(view: DetailView, clicked: Feedback)
    requires view.feedback == None
    modifies view
    ensures view.feedback == None
  {
    view.HandleFeedback(clicked);
    view.HandleFeedback(clicked);
  }
}
