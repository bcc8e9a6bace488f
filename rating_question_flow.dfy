/**
  `RatingQuestionFlow`: four questions rated 1..5, one at a time. The ratings array grows
  lazily: a selection on a question not yet in the array appends, and moving forward pads
  the array with 0, which stands for "not rated".
 */
module RatingFlow {

  datatype RatingQuestion = RatingQuestion(text: string, lowLabel: string, highLabel: string)

  const Questions: seq<RatingQuestion> := [
    RatingQuestion("How confident are you in your career direction?", "Not confident", "Very confident"),
    RatingQuestion("How satisfied are you with your current progress?", "Not satisfied", "Very satisfied"),
    RatingQuestion("How motivated do you feel right now?", "Not motivated", "Very motivated"),
    RatingQuestion("How clear are your next steps?", "Not clear", "Very clear")
  ]

  /** The tab Complete switches to. */
  const NextTab: int := 7

  /** The rating buttons offer 1 through 5. */
  predicate OfferedRating(rating: int) {
    1 <= rating <= 5
  }

  /** `hasRating`: the current question has an entry, and it is positive. */
  function HasRating(ratings: seq<int>, index: int): (b: bool)
    ensures b <==> 0 <= index < |ratings| && ratings[index] > 0
  {
    0 <= index < |ratings| && ratings[index] > 0
  }

  /** `isSelected(rating)`: the current question's entry equals `rating`. */
  function IsSelected(ratings: seq<int>, index: int, rating: int): (b: bool)
    ensures b <==> 0 <= index < |ratings| && ratings[index] == rating
  {
    0 <= index < |ratings| && ratings[index] == rating
  }

  /** At most one button is highlighted. */
  lemma AtMostOneSelected(ratings: seq<int>, index: int, r1: int, r2: int)
    requires IsSelected(ratings, index, r1) && IsSelected(ratings, index, r2)
    ensures r1 == r2
  {
  }

  /** A highlighted button means the question counts as rated, and Next is enabled. */
  lemma SelectedOfferedMeansRated(ratings: seq<int>, index: int, rating: int)
    requires OfferedRating(rating) && IsSelected(ratings, index, rating)
    ensures HasRating(ratings, index)
  {
  }

  /** What `selectRating` leaves in the array: `rating` at `index`, every other entry kept. */
  function RatingsAfterSelect(ratings: seq<int>, index: nat, rating: int): (r: seq<int>)
    requires index <= |ratings|
    ensures |r| == if index < |ratings| then |ratings| else |ratings| + 1
    ensures r[index] == rating
    ensures forall k :: 0 <= k < |ratings| && k != index ==> r[k] == ratings[k]
  {
    if index < |ratings| then ratings[index := rating] else ratings + [rating]
  }

  /** What `goNext` leaves in the array when it moves to `index`: an entry exists there, 0 if it is new. */
  function RatingsPaddedTo(ratings: seq<int>, index: nat): (r: seq<int>)
    requires index <= |ratings|
    ensures index < |r| && |ratings| <= |r| && r[..|ratings|] == ratings
    ensures index < |ratings| ==> r == ratings
    ensures index == |ratings| ==> |r| == |ratings| + 1 && r[index] == 0
  {
    if index < |ratings| then ratings else ratings + [0]
  }

  /** Selecting an offered rating always enables Next, and selecting it twice is selecting it once. */
  lemma SelectEnablesNext(ratings: seq<int>, index: nat, rating: int)
    requires index <= |ratings| && OfferedRating(rating)
    ensures HasRating(RatingsAfterSelect(ratings, index, rating), index)
    ensures IsSelected(RatingsAfterSelect(ratings, index, rating), index, rating)
    ensures RatingsAfterSelect(RatingsAfterSelect(ratings, index, rating), index, rating) ==
            RatingsAfterSelect(ratings, index, rating)
  {
  }

  /** A question reached for the first time starts unrated. */
  lemma FreshQuestionUnrated(ratings: seq<int>)
    ensures !HasRating(RatingsPaddedTo(ratings, |ratings|), |ratings|)
  {
  }

  class RatingQuestionFlow {
    var currentIndex: int
    var ratings: seq<int>
    /** The parent's tab selection, bound into this view. */
    var selectedTab: int

    /**
      The cursor is on a question and never more than one past the array, and every entry is
      0 (unrated) or an offered rating.
     */
    ghost predicate Valid()
      reads this
    {
      0 <= currentIndex < |Questions| && currentIndex <= |ratings| && |ratings| <= |Questions| &&
      forall k :: 0 <= k < |ratings| ==> ratings[k] == 0 || OfferedRating(ratings[k])
    }

    constructor (selectedTab: int)
      ensures currentIndex == 0 && ratings == [] && this.selectedTab == selectedTab
      ensures Valid() && !HasRatingHere()
    {
      currentIndex := 0;
      ratings := [];
      this.selectedTab := selectedTab;
    }

    function HasRatingHere(): bool
      reads this
    {
      HasRating(ratings, currentIndex)
    }

    /** `isLastQuestion` */
    function IsLastQuestion(): (b: bool)
      reads this
      ensures b <==> currentIndex == 3
    {
      currentIndex == |Questions| - 1
    }

    /** A rating button: overwrites the current entry, or appends it when the array ends here. */
    method SelectRating(rating: int)
      requires Valid() && OfferedRating(rating)
      modifies this
      ensures Valid()
      ensures currentIndex == old(currentIndex) && selectedTab == old(selectedTab)
      ensures ratings == RatingsAfterSelect(old(ratings), currentIndex, rating)
      ensures HasRatingHere() && IsSelected(ratings, currentIndex, rating)
    {
      if 0 <= currentIndex < |ratings| {
        ratings := ratings[currentIndex := rating];
      } else {
        ratings := ratings + [rating];
      }
    }

    /**
      Next (Complete on the last question), enabled only once the current question is rated:
      moves forward and pads the array, or on the last question switches tab and stays.
     */
    method GoNext()
      requires Valid() && HasRatingHere()
      modifies this
      ensures Valid()
      ensures old(IsLastQuestion()) ==>
                selectedTab == NextTab && currentIndex == old(currentIndex) && ratings == old(ratings)
      ensures !old(IsLastQuestion()) ==>
                currentIndex == old(currentIndex) + 1 && selectedTab == old(selectedTab) &&
                ratings == RatingsPaddedTo(old(ratings), currentIndex)
    {
      if IsLastQuestion() {
        selectedTab := NextTab;
      } else {
        currentIndex := currentIndex + 1;
        if !(0 <= currentIndex < |ratings|) {
          ratings := ratings + [0];
        }
      }
    }

    /** Previous, offered from the second question on: the cursor moves back and the ratings stay. */
    method GoBack()
      requires Valid() && currentIndex > 0
      modifies this
      ensures Valid()
      ensures currentIndex == old(currentIndex) - 1
      ensures ratings == old(ratings) && selectedTab == old(selectedTab)
    {
      currentIndex := currentIndex - 1;
    }
  }
}
