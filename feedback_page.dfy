/** The feedback form: a type, a subject and a message are required; the
    star rating is optional. */
module FeedbackPage {
  import opened Wrappers
  import opened Text
  import opened Storage

  /** `formData.rating || null`: no star chosen is stored as null. */
  function StoredRating(rating: nat): (r: Option<int>)
    ensures r.None? <==> rating == 0
    ensures r.Some? ==> r.value == rating
  {
    if rating == 0 then None else Some(rating)
  }

  /** Star `star` (1 to 5) is drawn filled when the rating reaches it. */
  predicate StarHighlighted(rating: nat, star: nat) {
    rating >= star
  }

  /** How many of stars 1 to `n` are drawn filled. */
  function FilledStars(rating: nat, n: nat): nat {
    if n == 0 then 0 else FilledStars(rating, n - 1) + (if StarHighlighted(rating, n) then 1 else 0)
  }

  /** Exactly the first `rating` stars are filled, all five at most. */
  lemma {:induction false} FilledStarsCount(rating: nat, n: nat)
    ensures FilledStars(rating, n) == if rating < n then rating else n
  {
    if n > 0 {
      FilledStarsCount(rating, n - 1);
    }
  }

  /** Whether the form may be sent: a type is chosen and neither the
      subject nor the message is blank. */
  predicate Complete(kind: Option<FeedbackType>, subject: string, message: string)
    ensures Complete(kind, subject, message) <==> kind.Some? && !AllWhitespace(subject) && !AllWhitespace(message)
  {
    TrimEmptyIff(subject);
    TrimEmptyIff(message);
    kind.Some? && Trim(subject) != "" && Trim(message) != ""
  }

  class FeedbackForm {
    const store: Store
    const userId: Id
    /** The type select; None is the empty choice. */
    var kind: Option<FeedbackType>
    var subject: string
    var message: string
    var rating: nat
    var isSubmitting: bool
    var isSubmitted: bool

    constructor (store: Store, userId: Id)
      ensures this.store == store && this.userId == userId
      ensures kind.None? && subject == "" && message == "" && rating == 0
      ensures !isSubmitting && !isSubmitted
    {
      this.store := store;
      this.userId := userId;
      kind, subject, message, rating := None, "", "", 0;
      isSubmitting, isSubmitted := false, false;
    }

    /** A click on star `star`. */
    method SetRating(star: nat)
      modifies this`rating
      ensures rating == star
    {
      rating := star;
    }

    /** `handleSubmit`: an incomplete form stores nothing; a complete one
        stores one record, with the subject and message as typed. */
    method HandleSubmit(freshId: Id, now: Timestamp) returns (accepted: bool)
      modifies this`isSubmitting, this`isSubmitted, store`feedback
      ensures accepted <==> Complete(kind, subject, message)
      ensures !accepted ==>
        store.feedback == old(store.feedback) && isSubmitting == old(isSubmitting) && isSubmitted == old(isSubmitted)
      ensures accepted ==>
        store.feedback == old(store.feedback) + [Feedback(freshId, userId, kind.value, subject, message,
                                                          StoredRating(rating), now)]
      ensures accepted ==> !isSubmitting && isSubmitted
    {
      if kind.None? || Trim(subject) == "" || Trim(message) == "" {
        return false;
      }
      isSubmitting := true;
      var _ := store.CreateFeedback(userId, kind.value, subject, message, StoredRating(rating), freshId, now);
      isSubmitting := false;
      isSubmitted := true;
      return true;
    }

    /** `handleReset`: back to an empty form. */
    method HandleReset()
      modifies this`kind, this`subject, this`message, this`rating, this`isSubmitted
      ensures kind.None? && subject == "" && message == "" && rating == 0 && !isSubmitted
    {
      isSubmitted := false;
      kind, subject, message, rating := None, "", "", 0;
    }
  }

  /** A subject or message of blanks only is as good as none. */
  lemma BlankFieldRejected(kind: Option<FeedbackType>, subject: string, message: string)
    requires AllWhitespace(subject) || AllWhitespace(message)
    ensures !Complete(kind, subject, message)
  {
    TrimEmptyIff(subject);
    TrimEmptyIff(message);
  }
}
