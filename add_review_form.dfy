/**
 * The review submission form of a stall's page: a rating must be picked,
 * then a comment must be written; the review is recorded as the current
 * user's, with the trimmed comment and the picked image if any, and the
 * form is cleared for the next review.
 */
module AddReviewForm {
  import opened Wrappers
  import opened Text
  import opened Types
  import opened LocalStorage

  datatype ReviewError = NoRating | NoComment | UploadFailed

  /** The text shown for each rejection. */
  function Message(e: ReviewError): string {
    match e
    case NoRating => "Please select a rating"
    case NoComment => "Please enter a comment"
    // the file reader rejects with an event that is not an `Error`
    case UploadFailed => "An error occurred"
  }

  /** The guard chain: a rating of 0 means none was picked; then the comment must not be blank. */
  function ValidateReview(rating: int, comment: string): (r: Option<ReviewError>)
    ensures r == Some(NoRating) <==> rating == 0
    ensures r == Some(NoComment) <==> rating != 0 && IsBlank(comment)
    ensures r.None? <==> rating != 0 && !IsBlank(comment)
  {
    TrimEmptyIffBlank(comment);
    if rating == 0 then Some(NoRating)
    else if Trim(comment) == "" then Some(NoComment)
    else None
  }

  /** The record handed to `addReview`. */
  function NewReviewData(stallId: string, rating: int, comment: string, imageUrl: Option<string>, now: Time): ReviewData {
    ReviewData(stallId, CurrentUser.id, CurrentUser.name, rating, Trim(comment), imageUrl, now, now)
  }

  /**
   * An accepted review is the current user's, for the form's stall, with a
   * picked rating, a non-empty comment free of surrounding white space and
   * the image URL given.
   */
  lemma AcceptedReviewIsWellFormed(stallId: string, rating: int, comment: string, imageUrl: Option<string>, now: Time)
    requires ValidateReview(rating, comment).None?
    ensures var d := NewReviewData(stallId, rating, comment, imageUrl, now);
      d.stallId == stallId && d.userId == "1" && d.userName == "Demo User" && d.rating != 0 &&
      Trimmed(d.comment) && d.imageUrl == imageUrl
  {
    TrimOfFilled(comment);
  }

  /** The checks pass and, if an image was picked, it could be read. */
  predicate Accepted(rating: int, comment: string, image: Option<ImageFile>, upload: Option<string>) {
    ValidateReview(rating, comment).None? && (image.Some? ==> upload.Some?)
  }

  /** The form's state on one stall's page. */
  class ReviewForm {
    const stallId: string
    var rating: int
    var comment: string
    var image: Option<ImageFile>
    var loading: bool
    var error: Option<string>

    /** The form as first shown: no rating, empty comment, no image, idle, no message. */
    constructor (stallId: string)
      ensures this.stallId == stallId
      ensures rating == 0 && comment == "" && image.None? && !loading && error.None?
    {
      this.stallId := stallId;
      rating := 0;
      comment := "";
      image := None;
      loading := false;
      error := None;
    }

    /**
     * `handleSubmit`. `upload` is what reading the picked image yields, its
     * data URL or `None` when the read fails; it is only consulted when an
     * image was picked. On any failure `addReview` is not called and the
     * entered values stay; on success the review is added and the form is
     * cleared. Either way the form ends idle.
     */
    method HandleSubmit(store: LocalStorageService, upload: Option<string>, now: Time)
      returns (added: Option<Review>)
      modifies this, store
      ensures !loading
      ensures ValidateReview(old(rating), old(comment)).Some? ==>
        error == Some(Message(ValidateReview(old(rating), old(comment)).value))
      ensures ValidateReview(old(rating), old(comment)).None? && old(image).Some? && upload.None? ==>
        error == Some(Message(UploadFailed))
      ensures !Accepted(old(rating), old(comment), old(image), upload) ==>
        added.None? && unchanged(store) &&
        rating == old(rating) && comment == old(comment) && image == old(image)
      ensures Accepted(old(rating), old(comment), old(image), upload) ==>
        added == Some(ReviewWithId(NewReviewData(stallId, old(rating), old(comment),
                                                 if old(image).Some? then upload else None, now),
                                   NewId(now), now))
      ensures Accepted(old(rating), old(comment), old(image), upload) ==>
        store.Contents() == WithReview(old(store.Contents()), added.value)
      ensures Accepted(old(rating), old(comment), old(image), upload) ==>
        rating == 0 && comment == "" && image.None? && error.None?
    {
      loading := true;
      error := None;
      var check := ValidateReview(rating, comment);
      if check.Some? {
        error := Some(Message(check.value));
        loading := false;
        return None;
      }
      var imageUrl: Option<string> := None;
      if image.Some? {
        if upload.None? {
          error := Some(Message(UploadFailed));
          loading := false;
          return None;
        }
        imageUrl := upload;
      }
      var review := Record(store, imageUrl, now);
      added := Some(review);
    }

    /**
     * The successful end of `handleSubmit`: `addReview`, and the form is
     * cleared and idle. The source calls `addReview` before clearing; the
     * two touch disjoint state, so the order here is immaterial.
     */
    method Record(store: LocalStorageService, imageUrl: Option<string>, now: Time) returns (review: Review)
      modifies this, store
      ensures review == ReviewWithId(NewReviewData(stallId, old(rating), old(comment), imageUrl, now), NewId(now), now)
      ensures store.Contents() == WithReview(old(store.Contents()), review)
      ensures rating == 0 && comment == "" && image.None? && !loading && error == old(error)
    {
      var newReview := NewReviewData(stallId, rating, comment, imageUrl, now);
      rating := 0;
      comment := "";
      image := None;
      loading := false;
      review := store.AddReview(newReview, now);
    }
  }
}
