/**
  The rated question shared by the two six-question grids: fixed text and scale labels, and a
  rating that starts at 0 ("none chosen") and is set by tapping one of the circles 1..5.
 */
module QuestionRatings {

  datatype QuestionRating = QuestionRating(question: string, lowLabel: string, highLabel: string, rating: int)

  /** The memberwise initializer, whose `rating` defaults to 0. */
  function NewQuestionRating(question: string, lowLabel: string, highLabel: string): (q: QuestionRating)
    ensures q.rating == 0
    ensures q.question == question && q.lowLabel == lowLabel && q.highLabel == highLabel
  {
    QuestionRating(question, lowLabel, highLabel, 0)
  }

  /** The six questions both grids start from, none of them rated. */
  const SixQuestions: seq<QuestionRating> := [
    NewQuestionRating("How confident do you feel about your direction?", "Not confident", "Very confident"),
    NewQuestionRating("How motivated are you right now?", "Low motivation", "High motivation"),
    NewQuestionRating("How clear are your next steps?", "Unclear", "Crystal clear"),
    NewQuestionRating("How satisfied are you with progress?", "Unsatisfied", "Very satisfied"),
    NewQuestionRating("How connected do you feel to others?", "Disconnected", "Well connected"),
    NewQuestionRating("How energized do you feel daily?", "Low energy", "High energy")
  ]

  /** The tab both grids' Continue switches to. */
  const ContinueTab: int := 8

  /** Each question offers the circles 1 through 5. */
  predicate OfferedRating(rating: int) {
    1 <= rating <= 5
  }

  lemma SixQuestionsStartUnrated()
    ensures |SixQuestions| == 6
    ensures forall i :: 0 <= i < |SixQuestions| ==> SixQuestions[i].rating == 0
    ensures forall i, r :: 0 <= i < |SixQuestions| && OfferedRating(r) ==> !IsSelected(SixQuestions, i, r)
  {
  }

  /** `questions[index].rating = rating`: that one rating changes; texts, labels and other questions stay. */
  function WithRating(qs: seq<QuestionRating>, index: nat, rating: int): (r: seq<QuestionRating>)
    requires index < |qs|
    ensures |r| == |qs|
    ensures r[index].rating == rating
    ensures r[index].(rating := qs[index].rating) == qs[index]
    ensures forall k :: 0 <= k < |qs| && k != index ==> r[k] == qs[k]
  {
    qs[index := qs[index].(rating := rating)]
  }

  /** `isSelected(index, rating)`: the circle is filled exactly when it is that question's rating. */
  function IsSelected(qs: seq<QuestionRating>, index: nat, rating: int): (b: bool)
    requires index < |qs|
    ensures b <==> qs[index].rating == rating
  {
    qs[index].rating == rating
  }

  /** Tapping the same circle again changes nothing. */
  lemma WithRatingIdempotent(qs: seq<QuestionRating>, index: nat, rating: int)
    requires index < |qs|
    ensures WithRating(WithRating(qs, index, rating), index, rating) == WithRating(qs, index, rating)
  {
  }

  /** Ratings of different questions are independent: the order of two taps does not matter. */
  lemma WithRatingCommutes(qs: seq<QuestionRating>, i: nat, a: int, j: nat, b: int)
    requires i < |qs| && j < |qs| && i != j
    ensures WithRating(WithRating(qs, i, a), j, b) == WithRating(WithRating(qs, j, b), i, a)
  {
  }

  /** After a tap, exactly the tapped circle of that question is filled. */
  lemma TapFillsOneCircle(qs: seq<QuestionRating>, index: nat, rating: int, other: int)
    requires index < |qs| && OfferedRating(rating) && OfferedRating(other)
    ensures IsSelected(WithRating(qs, index, rating), index, other) <==> other == rating
  {
  }
}
