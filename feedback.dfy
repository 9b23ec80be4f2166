/** The feedback form as a whole: the submit handler, the simulated submission
    with its three timers, and the list of review cards. Each timer callback
    is an explicit event; at most one timer is pending at any time. */
module Feedback {
  import opened Chars
  import opened Validation
  import opened RatingStars

  /** The submit button's label while a submission is in flight. */
  const SubmittingLabel: string := "सबमिट करत आहे... / Submitting..."

  /** A review card: author, the rating field's text, the star string, the
      review text and the display date (a locale-formatted month and year,
      taken as given). */
  datatype Review = Review(author: string, rating: string, stars: string, text: string, date: string)

  /** The card addNewReview builds from the submitted values. */
  function NewReview(d: FormData, date: string): (r: Review)
    requires IsChosenRating(d.rating)
    ensures r.author == d.name && r.text == d.review && r.rating == d.rating && r.date == date
    ensures |r.stars| == StarCount
    ensures r.stars == Rendered(Highlight(ParseRating(d.rating)))
  {
    var n := ParseRating(d.rating);
    StarStringMatchesPicker(n);
    Review(d.name, d.rating, StarString(n), d.review, date)
  }

  /** The timer that is waiting to fire, with what its callback captured. */
  datatype Pending =
    | NoTimer
      /** the submission delay: the values submitted and the label to restore */
    | SubmitDelay(data: FormData, originalText: string)
      /** the delay before the button comes back */
    | RestoreDelay(originalText: string)
      /** the delay inside resetForm before the form is shown again */
    | ResetDelay

  class FeedbackPage {
    /** The four text fields, as typed. */
    var name: string
    var email: string
    var phone: string
    var review: string
    /** The star picker, which owns the hidden rating field. */
    const selector: RatingSelector
    /** The error box; empty when none is shown. */
    var errorsShown: seq<ValidationError>
    var buttonLabel: string
    var buttonDisabled: bool
    var formShown: bool
    var successShown: bool
    /** The review cards, first card first. */
    var reviews: seq<Review>
    var pending: Pending
    /** The submit button's label as the page defines it. */
    ghost const idleLabel: string

    /** Each pending timer goes with one arrangement of button, form and
      success message: the button is enabled again while the form is still
      hidden, and a submission in flight always carries a chosen rating and
      values that passed validation. */
    ghost predicate Valid()
      reads this, selector
    {
      selector.Valid() &&
      match pending
      case NoTimer =>
        formShown && !successShown && !buttonDisabled && buttonLabel == idleLabel
      case SubmitDelay(data, originalText) =>
        formShown && !successShown && buttonDisabled && buttonLabel == SubmittingLabel &&
        originalText == idleLabel && IsChosenRating(data.rating) && Errors(data) == []
      case RestoreDelay(originalText) =>
        !formShown && successShown && buttonDisabled && buttonLabel == SubmittingLabel &&
        originalText == idleLabel
      case ResetDelay =>
        !formShown && successShown && !buttonDisabled && buttonLabel == idleLabel
    }

    /** The values the submit handler reads, before trimming. */
    function Fields(): FormData
      reads this, selector
    {
      FormData(name, email, phone, selector.ratingField, review)
    }

    /** Page load with the cards already on the page and the button's label. */
    constructor (cards: seq<Review>, buttonText: string)
      ensures Valid() && fresh(selector) && fresh(selector.stars)
      ensures Fields() == FormData("", "", "", "", "") && selector.selectedRating == 0
      ensures reviews == cards && buttonLabel == buttonText && errorsShown == [] && pending == NoTimer
    {
      name, email, phone, review := "", "", "", "";
      selector := new RatingSelector();
      errorsShown := [];
      buttonLabel := buttonText;
      idleLabel := buttonText;
      buttonDisabled := false;
      formShown := true;
      successShown := false;
      reviews := cards;
      pending := NoTimer;
    }

    /** The visitor types into the text fields. */
    method Edit(newName: string, newEmail: string, newPhone: string, newReview: string)
      requires Valid() && formShown
      modifies this
      ensures Valid()
      ensures name == newName && email == newEmail && phone == newPhone && review == newReview
      ensures errorsShown == old(errorsShown) && buttonLabel == old(buttonLabel)
      ensures buttonDisabled == old(buttonDisabled) && formShown == old(formShown)
      ensures successShown == old(successShown) && reviews == old(reviews) && pending == old(pending)
    {
      name, email, phone, review := newName, newEmail, newPhone, newReview;
    }

    /** The submit handler. With errors, only the error box changes. Without,
      the button is disabled with the in-progress label and the submission
      delay starts, carrying the trimmed values. The browser delivers the
      event only while the form is visible and the button enabled, which by
      Valid() means no timer is pending. */
    method Submit() returns (outcome: Outcome)
      requires Valid() && formShown && !buttonDisabled
      modifies this
      ensures Valid()
      ensures outcome == Decide(old(Fields()))
      ensures outcome.Rejected? ==>
        errorsShown == outcome.errors && buttonLabel == old(buttonLabel) &&
        !buttonDisabled && pending == NoTimer
      ensures outcome.Accepted? ==>
        errorsShown == old(errorsShown) && buttonLabel == SubmittingLabel && buttonDisabled &&
        pending == SubmitDelay(outcome.data, old(buttonLabel))
      ensures name == old(name) && email == old(email) && phone == old(phone) && review == old(review)
      ensures formShown && successShown == old(successShown) && reviews == old(reviews)
    {
      outcome := Decide(Fields());
      if outcome.Rejected? {
        errorsShown := outcome.errors;
        return;
      }
      var d := outcome.data;
      assert MissingRating !in Errors(d);
      RatingTextRoundTrip(selector.selectedRating, d.rating);
      var originalText := buttonLabel;
      buttonLabel := SubmittingLabel;
      buttonDisabled := true;
      pending := SubmitDelay(d, originalText);
    }

    /** The submission delay elapses: the form is hidden, the success message
      shown, the new card put in front of the existing ones, and the delay
      before the button comes back starts. */
    method SubmitDelayElapsed(date: string)
      requires Valid() && pending.SubmitDelay?
      modifies this
      ensures Valid()
      ensures !formShown && successShown
      ensures reviews == [NewReview(old(pending).data, date)] + old(reviews)
      ensures pending == RestoreDelay(old(pending).originalText)
      ensures buttonDisabled && buttonLabel == old(buttonLabel) && errorsShown == old(errorsShown)
      ensures name == old(name) && email == old(email) && phone == old(phone) && review == old(review)
    {
      formShown := false;
      successShown := true;
      reviews := [NewReview(pending.data, date)] + reviews;
      pending := RestoreDelay(pending.originalText);
    }

    /** The second delay elapses: resetForm schedules its own delay, and the
      button gets its label back and is enabled while the form stays hidden. */
    method RestoreDelayElapsed()
      requires Valid() && pending.RestoreDelay?
      modifies this
      ensures Valid()
      ensures pending == ResetDelay
      ensures !buttonDisabled && buttonLabel == old(pending).originalText && buttonLabel == idleLabel
      ensures !formShown && successShown
      ensures errorsShown == old(errorsShown) && reviews == old(reviews)
      ensures name == old(name) && email == old(email) && phone == old(phone) && review == old(review)
    {
      var originalText := pending.originalText;
      pending := ResetDelay;
      buttonLabel := originalText;
      buttonDisabled := false;
    }

    /** resetForm's delay elapses: the form is shown again with every field
      blank, the success message hidden, the rating back to none with every
      star empty, and the error box removed. */
    method ResetDelayElapsed()
      requires Valid() && pending.ResetDelay?
      modifies this, selector, selector.stars
      ensures Valid()
      ensures pending == NoTimer && formShown && !successShown
      ensures Fields() == FormData("", "", "", "", "")
      ensures selector.selectedRating == 0 && selector.stars[..] == Highlight(0)
      ensures errorsShown == []
      ensures reviews == old(reviews) && buttonLabel == old(buttonLabel) && !buttonDisabled
    {
      formShown := true;
      successShown := false;
      name, email, phone, review := "", "", "", "";
      selector.Reset();
      errorsShown := [];
      pending := NoTimer;
    }
  }

  /** Whenever the visitor can press the button of a visible form, no timer is
      pending: a second submission cannot start while one is in flight. */
  lemma SubmitOnlyWhenIdle(page: FeedbackPage)
    requires page.Valid() && page.formShown && !page.buttonDisabled
    ensures page.pending == NoTimer
  {
  }

  /** A full cycle: rate five stars, fill in name and review, submit, and let
      the three timers fire. */
  method SubmitScenario(cards: seq<Review>, buttonText: string, date: string)
  {
    var page := new FeedbackPage(cards, buttonText);
    page.selector.Hover(3);
    page.selector.Click(5);
    page.selector.MouseOut();
    assert page.selector.Shown() == "★★★★★";
    page.Edit("Asha", "", "", "Great service");
    AcceptedExample();
    var outcome := page.Submit();
    assert outcome.Accepted?;
    page.SubmitDelayElapsed(date);
    assert page.reviews == [Review("Asha", "5", "★★★★★", "Great service", date)] + cards;
    page.RestoreDelayElapsed();
    assert !page.buttonDisabled && page.buttonLabel == buttonText && !page.formShown;
    page.ResetDelayElapsed();
    assert page.Fields() == FormData("", "", "", "", "") && page.selector.selectedRating == 0;
  }

  /** Submitting the untouched form reports name, rating and review, in that
      order, and changes nothing else. */
  method EmptyFormScenario()
  {
    var page := new FeedbackPage([], "Submit");
    EmptyFormExample();
    var outcome := page.Submit();
    assert outcome == Rejected([MissingName, MissingRating, MissingReview]);
    assert page.pending == NoTimer && page.formShown && !page.buttonDisabled;
  }
}
