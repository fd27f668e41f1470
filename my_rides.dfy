/** The ride-history page (frontend/src/pages/MyRides.js): the review
    button and the review modal. */
module MyRides {
  import opened Common

  const RATING_RANGE := "Please select a rating between 1 and 5"
  const REVIEW_FAILED := "Failed to submit review"
  const REVIEW_DONE := "Review submitted successfully!"

  datatype ReviewModal = ReviewModal(open: bool, tripId: Option<int>, trip: Option<Trip>)

  const CLOSED := ReviewModal(false, None, None)

  /** The 'Leave Review' button is rendered only for completed rides. */
  predicate HasReviewButton(ride: Trip)
  {
    ride.status == "Completed"
  }

  /** What handleSubmitReview does: the addReview call, then a refetch of
      the ride list (not awaited). */
  datatype Step = AddReviewCall(tripId: Option<int>, rating: int, comment: string) | FetchRides

  class MyRidesPage {
    const userId: int
    var rides: seq<Trip>
    var loading: bool
    var modal: ReviewModal
    var rating: int
    var comment: string
    var submittingReview: bool
    var error: string
    var success: string

    constructor (uid: int)
      ensures userId == uid && rides == [] && loading && modal == CLOSED
      ensures rating == 5 && comment == "" && !submittingReview && error == "" && success == ""
    {
      userId := uid;
      rides := [];
      loading := true;
      modal := CLOSED;
      rating := 5;
      comment := "";
      submittingReview := false;
      error := "";
      success := "";
    }

    /** fetchRides after its await: a fetched list replaces the rides; a
        failure keeps them. Loading ends either way. */
    method RidesLoaded(fetched: Remote<seq<Trip>>)
      modifies this`rides, this`loading
      ensures fetched.Done? ==> rides == fetched.value
      ensures fetched.Failed? ==> rides == old(rides)
      ensures !loading
    {
      if fetched.Done? {
        rides := fetched.value;
      }
      loading := false;
    }

    /** The rides that show a 'Leave Review' button. */
    function Reviewable(): (ids: set<int>)
      reads this
      ensures forall i :: 0 <= i < |rides| && HasReviewButton(rides[i]) ==> rides[i].tripId in ids
      ensures forall id :: id in ids ==> exists i :: 0 <= i < |rides| && rides[i].tripId == id && rides[i].status == "Completed"
    {
      set i | 0 <= i < |rides| && HasReviewButton(rides[i]) :: rides[i].tripId
    }

    /** A star button. */
    method SetRating(star: int)
      modifies this`rating
      ensures rating == star
    {
      rating := star;
    }

    method SetComment(text: string)
      modifies this`comment
      ensures comment == text
    {
      comment := text;
    }

    /** openReviewModal: records the ride and resets the form. */
    method OpenReviewModal(ride: Trip)
      modifies this`modal, this`rating, this`comment, this`error
      ensures modal == ReviewModal(true, Some(ride.tripId), Some(ride))
      ensures rating == 5 && comment == "" && error == ""
    {
      modal := ReviewModal(true, Some(ride.tripId), Some(ride));
      rating := 5;
      comment := "";
      error := "";
    }

    /** closeReviewModal: closed, with the same defaults. */
    method CloseReviewModal()
      modifies this`modal, this`rating, this`comment, this`error
      ensures modal == CLOSED && rating == 5 && comment == "" && error == ""
    {
      modal := CLOSED;
      rating := 5;
      comment := "";
      error := "";
    }

    /** handleSubmitReview. A rating outside [1, 5] sets an error and makes
        no call. Otherwise addReview is called; success shows the banner,
        closes the modal and refetches; failure keeps the modal open with
        the error. `submittingReview` is false afterwards. */
    method SubmitReview(outcome: Remote<()>) returns (steps: seq<Step>)
      modifies this`modal, this`rating, this`comment, this`error, this`success, this`submittingReview
      ensures !(1 <= old(rating) <= 5) ==>
                steps == [] && error == RATING_RANGE && modal == old(modal) &&
                rating == old(rating) && comment == old(comment) && success == old(success) &&
                submittingReview == old(submittingReview)
      ensures 1 <= old(rating) <= 5 ==>
                |steps| >= 1 && steps[0] == AddReviewCall(old(modal).tripId, old(rating), old(comment)) &&
                !submittingReview
      ensures 1 <= old(rating) <= 5 && outcome.Done? ==>
                steps == [AddReviewCall(old(modal).tripId, old(rating), old(comment)), FetchRides] &&
                success == REVIEW_DONE && modal == CLOSED && rating == 5 && comment == "" && error == ""
      ensures 1 <= old(rating) <= 5 && outcome.Failed? ==>
                |steps| == 1 && error == ErrorText(outcome.message, REVIEW_FAILED) &&
                modal == old(modal) && rating == old(rating) && comment == old(comment) &&
                success == old(success)
    {
      if rating < 1 || rating > 5 {
        error := RATING_RANGE;
        return [];
      }
      submittingReview := true;
      error := "";
      steps := [AddReviewCall(modal.tripId, rating, comment)];
      if outcome.Done? {
        success := REVIEW_DONE;
        CloseReviewModal();
        steps := steps + [FetchRides];
      } else {
        error := ErrorText(outcome.message, REVIEW_FAILED);
      }
      submittingReview := false;
    }
  }
}
