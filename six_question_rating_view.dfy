/** `SixQuestionRatingView`: one screen with all six questions and an ungated Continue. */
module SixQuestionRating {
  import opened QuestionRatings

  class SixQuestionRatingView {
    var questions: seq<QuestionRating>
    /** The parent's tab selection, bound into this view. */
    var selectedTab: int

    constructor (selectedTab: int)
      ensures questions == SixQuestions && this.selectedTab == selectedTab
    {
      questions := SixQuestions;
      this.selectedTab := selectedTab;
    }

    /** The circle `rating` of question `questionIndex`. */
    method SelectRating(questionIndex: nat, rating: int)
      requires questionIndex < |questions| && OfferedRating(rating)
      modifies this
      ensures questions == WithRating(old(questions), questionIndex, rating)
      ensures selectedTab == old(selectedTab)
    {
      questions := questions[questionIndex := questions[questionIndex].(rating := rating)];
    }

    /** Continue switches tab whatever has been rated. */
    method Continue()
      modifies this
      ensures selectedTab == ContinueTab && questions == old(questions)
    {
      selectedTab := ContinueTab;
    }
  }
}
