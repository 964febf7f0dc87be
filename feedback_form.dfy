/**
 * The feedback dialog (src/components/FeedbackForm.tsx): five star
 * buttons, a comment, and a submit that goes through `isSubmitting` and
 * `error`. The callbacks `onSubmit` and `onClose` are recorded as the calls
 * the form makes; how the awaited `onSubmit` settles is a parameter.
 */
module FeedbackForm {
  import opened Types
  import opened Lists

  /** How the promise of `onSubmit` settles. */
  datatype SubmitCallback =
    | Resolves
    | RejectsWithError(message: string)   // thrown value is an `Error`
    | RejectsWithValue                    // thrown value is anything else

  /** The argument passed to `onSubmit`. */
  datatype Feedback = Feedback(orderId: string, rating: int, comment: string, timestamp: Timestamp)

  const NoRatingMessage := "Please select a rating"
  const SubmitFailedMessage := "Failed to submit feedback"

  /** `[1, 2, 3, 4, 5]`, the values of the star buttons. */
  const StarValues: seq<int> := [1, 2, 3, 4, 5]

  /** The first `n` star values, `[1, …, n]`. */
  function Stars(n: nat): (r: seq<int>)
    ensures |r| == n && forall i :: 0 <= i < n ==> r[i] == i + 1
  {
    if n == 0 then [] else Stars(n - 1) + [n]
  }

  lemma StarValuesAreFiveStars()
    ensures Stars(5) == StarValues
  {
  }

  /** `$selected={star <= rating}`. */
  predicate StarSelected(star: int, rating: int) {
    star <= rating
  }

  function SelectedStars(rating: int, stars: seq<int>): seq<int> {
    Filter((k: int) => StarSelected(k, rating), stars)
  }

  /** With a rating between 0 and `n`, exactly `rating` of the first `n` stars are lit. */
  lemma {:induction false} SelectedStarCount(n: nat, rating: int)
    requires 0 <= rating
    ensures |SelectedStars(rating, Stars(n))| == if rating < n then rating else n
  {
    if n > 0 {
      var s := Stars(n);
      assert s[..n - 1] == Stars(n - 1);
      SelectedStarCount(n - 1, rating);
    }
  }

  /** The lit stars are the first `rating` ones: 0 to 5 stars for ratings 0 to 5. */
  lemma LitStarsShowRating(rating: int)
    requires 0 <= rating <= 5
    ensures |SelectedStars(rating, StarValues)| == rating
    ensures forall k :: k in SelectedStars(rating, StarValues) <==> 1 <= k <= rating
  {
    StarValuesAreFiveStars();
    SelectedStarCount(5, rating);
  }

  class FeedbackDialog {
    const orderId: string
    var rating: int
    var comment: string
    var isSubmitting: bool
    var error: Option<string>
    /** The arguments of every `onSubmit` call so far. */
    var submitted: seq<Feedback>
    /** How many times `onClose` has been called. */
    var closeRequests: nat

    constructor (orderId: string)
      ensures this.orderId == orderId
      ensures rating == 0 && comment == "" && !isSubmitting && error.None?
      ensures submitted == [] && closeRequests == 0
    {
      this.orderId := orderId;
      rating := 0;
      comment := "";
      isSubmitting := false;
      error := None;
      submitted := [];
      closeRequests := 0;
    }

    /** A click on a star button: `setRating(star)`. */
    method ClickStar(star: int)
      requires star in StarValues
      modifies this
      ensures rating == star && 1 <= rating <= 5
      ensures comment == old(comment) && isSubmitting == old(isSubmitting) && error == old(error)
      ensures submitted == old(submitted) && closeRequests == old(closeRequests)
    {
      rating := star;
    }

    /** Typing in the comment box: `setComment(e.target.value)`. */
    method EditComment(text: string)
      modifies this
      ensures comment == text
      ensures rating == old(rating) && isSubmitting == old(isSubmitting) && error == old(error)
      ensures submitted == old(submitted) && closeRequests == old(closeRequests)
    {
      comment := text;
    }

    /** The Cancel button: `onClose()`. */
    method ClickCancel()
      modifies this
      ensures closeRequests == old(closeRequests) + 1
      ensures rating == old(rating) && comment == old(comment) && isSubmitting == old(isSubmitting)
      ensures error == old(error) && submitted == old(submitted)
    {
      closeRequests := closeRequests + 1;
    }

    /**
     * `handleSubmit`, with `now` for the timestamp and `callback` for how
     * `onSubmit` settles. Without a rating nothing is submitted; otherwise
     * the rating and comment are passed on as they are, and the dialog is
     * closed only when that succeeds. The error shown is that of this
     * submit alone, and the form is no longer submitting afterwards.
     */
    method HandleSubmit(now: Timestamp, callback: SubmitCallback)
      modifies this
      ensures !isSubmitting
      ensures rating == old(rating) && comment == old(comment)
      ensures old(rating) == 0 ==>
        && error == Some(NoRatingMessage)
        && submitted == old(submitted) && closeRequests == old(closeRequests)
      ensures old(rating) != 0 ==>
        && submitted == old(submitted) + [Feedback(orderId, old(rating), old(comment), now)]
        && match callback
           case Resolves => error.None? && closeRequests == old(closeRequests) + 1
           case RejectsWithError(m) => error == Some(m) && closeRequests == old(closeRequests)
           case RejectsWithValue => error == Some(SubmitFailedMessage) && closeRequests == old(closeRequests)
    {
      isSubmitting := true;
      error := None;
      if rating == 0 {
        error := Some(NoRatingMessage);
      } else {
        submitted := submitted + [Feedback(orderId, rating, comment, now)];
        match callback {
          case Resolves =>
            closeRequests := closeRequests + 1;
          case RejectsWithError(m) =>
            error := Some(m);
          case RejectsWithValue =>
            error := Some(SubmitFailedMessage);
        }
      }
      isSubmitting := false;
    }
  }
}
