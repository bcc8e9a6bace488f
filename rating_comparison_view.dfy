/**
  `RatingComparisonView`: the same six questions laid out in three styles, two questions per
  style, with an ungated Continue.
 */
module RatingComparison {
  import opened QuestionRatings

  /** Version A (icon anchors), B (positioned text) and C (icons and text). */
  datatype Version = IconAnchors | PositionedText | Combined

  /** The `ForEach(lo..<hi)` range of question indices a version shows. */
  function VersionStart(v: Version): nat {
    match v
    case IconAnchors => 0
    case PositionedText => 2
    case Combined => 4
  }

  function VersionEnd(v: Version): nat {
    match v
    case IconAnchors => 2
    case PositionedText => 4
    case Combined => 6
  }

  predicate Shows(v: Version, index: int) {
    VersionStart(v) <= index < VersionEnd(v)
  }

  /** The version that shows question `index`. */
  function VersionOf(index: nat): (v: Version)
    requires index < 6
    ensures Shows(v, index)
    ensures forall w: Version :: Shows(w, index) ==> w == v
  {
    if index < 2 then IconAnchors else if index < 4 then PositionedText else Combined
  }

  /** Each of the six questions appears in exactly one version, and no version shows anything else. */
  lemma EachQuestionInExactlyOneVersion(index: int)
    ensures (exists v: Version :: Shows(v, index)) <==> 0 <= index < |SixQuestions|
    ensures 0 <= index < |SixQuestions| ==> forall v, w :: Shows(v, index) && Shows(w, index) ==> v == w
  {
    if 0 <= index < 6 {
      var v := VersionOf(index);
      assert Shows(v, index);
    }
  }

  class RatingComparisonView {
    var questions: seq<QuestionRating>
    /** The parent's tab selection, bound into this view. */
    var selectedTab: int

    constructor (selectedTab: int)
      ensures questions == SixQuestions && this.selectedTab == selectedTab
    {
      questions := SixQuestions;
      this.selectedTab := selectedTab;
    }

    /** The circle `rating` of question `questionIndex`, in whichever version shows it. */
    method SelectRating(questionIndex: nat, rating: int)
      requires questionIndex < |questions| && OfferedRating(rating)
      modifies this
      ensures questions == WithRating(old(questions), questionIndex, rating)
      ensures selectedTab == old(selectedTab)
    {
      questions := questions[questionIndex := questions[questionIndex].(rating := rating)];
    }

    /** Continue switches tab with no gating. */
    method Continue()
      modifies this
      ensures selectedTab == ContinueTab && questions == old(questions)
    {
      selectedTab := ContinueTab;
    }
  }
}
