/** The storefront's review store: the reviews of the product shown and the flags. */
module ReviewSlice {
  import opened Wrappers
  import opened Models
  import Lists

  class ReviewState {
    var reviews: seq<Review>
    var loading: bool
    var error: Option<string>
    var success: bool
    var message: Option<string>

    constructor ()
      ensures reviews == [] && !loading && error == None && !success && message == None
    {
      reviews := [];
      loading := false;
      error := None;
      success := false;
      message := None;
    }

    /** Every `pending` case. */
    method Pending()
      modifies this
      ensures loading && error == None
      ensures reviews == old(reviews) && success == old(success) && message == old(message)
    {
      loading := true;
      error := None;
    }

    /** Every `rejected` case. */
    method Rejected(payload: string)
      modifies this
      ensures !loading && error == Some(payload)
      ensures reviews == old(reviews) && success == old(success) && message == old(message)
    {
      loading := false;
      error := Some(payload);
    }

    /** `createReview.fulfilled`: only the flags change; the list is refetched separately. */
    method CreateFulfilled()
      modifies this
      ensures !loading && success && message == Some("Review submitted successfully!")
      ensures reviews == old(reviews) && error == old(error)
    {
      loading := false;
      success := true;
      message := Some("Review submitted successfully!");
    }

    /** `getProductReviews.fulfilled`: the list is the answer. */
    method GetFulfilled(answer: seq<Review>)
      modifies this
      ensures !loading && reviews == answer
      ensures error == old(error) && success == old(success) && message == old(message)
    {
      loading := false;
      reviews := answer;
    }

    /** `deleteReview.fulfilled`: the reviews with that id are dropped, the rest keep their order. */
    method DeleteFulfilled(reviewId: Id)
      modifies this
      ensures !loading && success && message == Some("Review deleted!")
      ensures reviews == Lists.Without(old(reviews), ReviewId, reviewId)
      ensures error == old(error)
    {
      loading := false;
      success := true;
      message := Some("Review deleted!");
      reviews := Lists.Without(reviews, ReviewId, reviewId);
    }

    /** `clearReviews`. */
    method ClearReviews()
      modifies this
      ensures reviews == []
      ensures loading == old(loading) && error == old(error) && success == old(success) && message == old(message)
    {
      reviews := [];
    }

    /** `removeErrors`. */
    method RemoveErrors()
      modifies this
      ensures error == None
      ensures reviews == old(reviews) && loading == old(loading) && success == old(success) && message == old(message)
    {
      error := None;
    }

    /** `removeSuccess`. */
    method RemoveSuccess()
      modifies this
      ensures !success && message == None
      ensures reviews == old(reviews) && loading == old(loading) && error == old(error)
    {
      success := false;
      message := None;
    }
  }
}
