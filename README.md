# Feedback form of the Quick Quest Carriers site

This project models the one self-contained piece of logic in the site's
`app.js`: the customer feedback form. It covers:

- the validation the submit handler performs;
- the five-star rating picker;
- the simulated submission, which disables the button, hides the form, puts a
  review card at the front of the reviews grid, re-enables the button and
  finally shows a cleared form again.

The model has four modules:

- `Chars` (`chars.dfy`): the whitespace set shared by `String.prototype.trim`
  and the regular-expression class `\s`, ASCII digits, trimming and
  `repeat`.
- `Validation` (`validation.dfy`): the values the handler reads, the
  hand-written e-mail and phone checks, and the ordered error list. All pure
  functions and lemmas.
- `RatingStars` (`stars.dfy`): the `RatingSelector` class. It holds the
  committed `selectedRating`, the hidden rating field and an `array<bool>` of
  five stars (true = filled). Its event methods and the two loops
  `HighlightStars` / `ResetStars` are proved against the function
  `Highlight`.
- `Feedback` (`feedback.dfy`): the `FeedbackPage` class with the text fields,
  the button, form and success-message visibility, the error box, the review
  list and the pending timer. Each timer callback is an explicit event
  method. `Valid()` ties every pending timer to the state of the button, the
  form and the success message.

How the submission proceeds in `app.js`:

- The code uses three timers. After 1500 ms the card is added (app.js:187-197).
  After 3000 ms more, the button gets its label back and is enabled, and
  `resetForm` starts its own 2000 ms delay (app.js:199-203, 249). Only then
  is the form shown again and cleared. In between, the button is enabled
  while the form is still hidden: `Pending.ResetDelay`.
- The new card is inserted before the grid's first child (app.js:239).
- The rating the validator sees is the hidden field's string: it is missing
  exactly when the string is empty. The picker writes `"1"` to `"5"` into
  it, and `RatingSelector.Valid()` keeps it equal to
  `RatingText(selectedRating)`.

## Model

| member | source | states |
|---|---|---|
| `Chars.TrimStart` | app.js:94-98 | the leading-whitespace strip never lengthens the value |
| `Chars.TrimStartSpec` | app.js:94-98 | TrimStart removes the longest all-whitespace prefix and nothing else |
| `Chars.TrimEnd` | app.js:94-98 | the trailing-whitespace strip never lengthens the value |
| `Chars.TrimEndSpec` | app.js:94-98 | TrimEnd removes the longest all-whitespace suffix and nothing else |
| `Chars.TrimIsSlice` | app.js:94-98 | trim returns a slice of the input with only whitespace around it and no whitespace at either end |
| `Chars.TrimEmptyIffAllSpace` | app.js:94-98 | the trimmed value is empty exactly when the raw value is all whitespace |
| `Chars.Trim` | app.js:94-98 | trim never lengthens the value; `TrimIsSlice` states what it removes |
| `Chars.TrimIdempotent` | app.js:94-98 | trimming twice equals trimming once |
| `Chars.Repeat` | app.js:220 | `repeat(n)` of one glyph has length n and every position holds that glyph |
| `Validation.Capture` | app.js:93-99 | the handler keeps the rating field raw and trims the four text fields, none of which grows; `CaptureIdempotent` and `RequiredFieldErrors` state the rest |
| `Validation.CaptureIdempotent` | app.js:93-99 | reading the form from already-read values changes nothing (text trimmed, rating field kept raw) |
| `Validation.IndexOf` | app.js:135-138 | the position found is the first '@', or the length when there is none |
| `Validation.IsValidEmail` | app.js:135-138 | an accepted e-mail contains '@' and has at least five characters; `EmailMatchesPattern` states exactly which strings match |
| `Validation.EmailMatchesPattern` | app.js:135-138 | the e-mail check accepts exactly `L@A.B` with L, A, B non-empty, no whitespace anywhere and exactly one '@' (both directions) |
| `Validation.CleanPhone` | app.js:142 | the cleaned phone is no longer than the input and contains no whitespace, '-', '(' or ')' |
| `Validation.CleanPhoneAppend` | app.js:142 | cleaning distributes over concatenation, so the order of kept characters is preserved |
| `Validation.CleanPhoneKeeps` | app.js:142 | a value without separators is left unchanged |
| `Validation.CleanPhoneIdempotent` | app.js:142 | cleaning twice equals cleaning once |
| `Validation.CleanPhoneCounts` | app.js:142 | every separator is dropped and every other character keeps its number of occurrences |
| `Validation.IsMobileNumber` | app.js:141-143 | a cleaned number that passes is made of ASCII digits only |
| `Validation.IsValidPhone` | app.js:140-143 | an accepted phone was typed with at least ten characters; `PlainMobileAccepted` and `PhoneIgnoresSeparator` state what it accepts |
| `Validation.PlainMobileAccepted` | app.js:140-144 | ten digits starting with 6 to 9, typed without separators, are accepted as they are |
| `Validation.PhoneIgnoresSeparator` | app.js:140-144 | inserting a space, hyphen or parenthesis anywhere never changes whether a phone is accepted |
| `Validation.ValidationError.Message` | app.js:105-123 | every error has a non-empty bilingual message, the text the handler pushes for it |
| `Validation.Report` | app.js:102-124 | a conditional push adds exactly the failing error and keeps the list in reporting order |
| `Validation.Errors` | app.js:102-124 | at most five errors, no error twice, in the order name, rating, review, e-mail, phone, and an error is listed exactly when its rule fails |
| `Validation.RequiredFieldErrors` | app.js:94-114 | name and review errors occur exactly when the raw field is all whitespace; the rating error exactly when the field is the empty string |
| `Validation.BlankOptionalFieldsPass` | app.js:95-96 | a blank e-mail or phone field never produces an error |
| `Validation.Decide` | app.js:126-132 | a rejection lists one to five errors and an acceptance passes the rating on unchanged; `DecideAcceptsWellFormed` states exactly which forms are accepted |
| `Validation.DecideAcceptsWellFormed` | app.js:126-132 | a form is accepted exactly when name and review hold text, a rating is chosen and each optional field is blank or valid; a rejection carries a non-empty list |
| `Validation.AcceptedExample` | app.js:102-132 | name "Asha", rating 5, review "Great service" and no contact details are accepted |
| `Validation.EmptyFormExample` | app.js:102-114 | the untouched form reports exactly name, rating and review, in that order |
| `Validation.ShortPhoneRefused` | app.js:140-144 | "12345" is not a valid phone |
| `Validation.MobilePhoneAccepted` | app.js:140-144 | "9876543210" is a valid phone |
| `RatingStars.Highlight` | app.js:66-76 | a highlight covers exactly the five stars |
| `RatingStars.HighlightIsPrefix` | app.js:66-83 | highlightStars(r) fills a prefix of min(r, 5) stars and empties the rest; rating 0 empties all |
| `RatingStars.Rendered` | app.js:69-72 | each star shows the filled glyph exactly when it is filled |
| `RatingStars.StarString` | app.js:220 | the card's star string has five glyphs; `StarStringMatchesPicker` states which are filled |
| `RatingStars.StarStringMatchesPicker` | app.js:220 | the card's star string has length 5, n filled glyphs then 5-n empty ones, the same as the picker shows after a click on star n |
| `RatingStars.RatingText` | app.js:61 | the field text of a rating is at most one character and empty exactly for rating 0; `RatingTextRoundTrip` states that it parses back |
| `RatingStars.RatingTextRoundTrip` | app.js:60-61 | the field text and the committed rating determine each other: only rating 0 gives "", and a chosen text parses back to its rating |
| `RatingStars.RatingSelector.constructor` | app.js:42-44 | page load: no rating, blank field, every star empty |
| `RatingStars.RatingSelector.HighlightStars` | app.js:66-76 | the loop leaves the stars equal to Highlight(rating) |
| `RatingStars.RatingSelector.ResetStars` | app.js:78-83 | the loop leaves every star empty, the same state as highlightStars(0) |
| `RatingStars.RatingSelector.Hover` | app.js:47-49 | hovering star k shows k filled stars and changes neither the rating nor the field |
| `RatingStars.RatingSelector.MouseOut` | app.js:51-57 | mouse-out shows the committed rating (all empty when it is 0) and changes neither the rating nor the field |
| `RatingStars.RatingSelector.Click` | app.js:59-63 | a click on star k commits rating k, writes it to the field and fills k stars |
| `RatingStars.RatingSelector.Reset` | app.js:253-255 | the reset sets the rating to 0, the field to "" and empties every star |
| `Feedback.NewReview` | app.js:219-236 | the card carries the submitted name, review, rating text and date, and its stars are five glyphs matching the picker's highlight for that rating |
| `Feedback.FeedbackPage.constructor` | app.js:86-87 | page load: empty fields, no timer, form shown, button enabled with its own label |
| `Feedback.FeedbackPage.Edit` | app.js:93-98 | the visitor's typing sets the four text fields the handler reads and nothing else |
| `Feedback.FeedbackPage.Submit` | app.js:89-133 | the outcome is the validation of the current fields. On errors only the error box changes. Otherwise the button is disabled with the submitting label and the submission delay starts with the trimmed values and the original label |
| `Feedback.FeedbackPage.SubmitDelayElapsed` | app.js:187-197 | the form is hidden, the success message shown, the new card put in front with the other cards in their order, and the next delay starts |
| `Feedback.FeedbackPage.RestoreDelayElapsed` | app.js:198-203 | the button gets its original label back and is enabled while the form stays hidden; resetForm's delay starts |
| `Feedback.FeedbackPage.ResetDelayElapsed` | app.js:248-261 | the form is shown, the success message hidden, every field blank, the rating 0 with every star empty, the error box gone |
| `Feedback.SubmitOnlyWhenIdle` | app.js:183-184 | whenever the form is visible and its button enabled, no timer is pending |

`SubmitScenario` and `EmptyFormScenario` in `feedback.dfy` are client methods
with no contract of their own. They walk a rated, valid submission through all
three timers, and a submission of the untouched form.

## Left out

- Mobile navigation, smooth scrolling, the header colour on scroll, the
  IntersectionObserver animations and lazy loading, the ripple effect, the
  tooltips and the focus/blur effects: DOM and browser-geometry calls with no
  state the form depends on.
- The markup and CSS of the error box and the review card, `scrollIntoView`,
  and the 100 ms fade-in of the new card. The error box is modelled as the
  list of errors, each with its bilingual message (`ValidationError.Message`).
  The card is modelled as a `Review` record. No HTML escaping is modelled.
- The date on the card: `toLocaleDateString` is a locale library call, so the
  date is a parameter of `SubmitDelayElapsed`.
- Timer durations and the event loop: each timer callback is an event method
  that may fire only while its timer is pending.
- `Feedback.FeedbackPage.Submit`: requires the form to be visible and its
  button enabled. The handler itself has no reentrancy guard; it relies on
  the browser not delivering a submit for a hidden form or a disabled
  button. `SubmitOnlyWhenIdle` shows that under this condition no timer is
  ever pending.
- `RatingStars.RatingSelector.Hover` and `Click`: the number of star elements
  comes from the page markup (index.html is not part of this model). It is
  taken to be five, and the events cover stars 1 to 5.
- `RatingStars.ParseRating`: handles only the one-digit values the picker
  writes, not the rest of `parseInt`.
- The markup's initial values: every field is taken to be empty, and so is
  the value `form.reset()` restores; every star is taken to start as the
  empty glyph '☆', and the success message to start hidden
  (`RatingSelector.constructor`, `FeedbackPage.constructor`).
- The `console.log` at the end of the file.
