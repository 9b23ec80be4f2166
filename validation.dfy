/** The feedback form's field validation: the values the submit handler reads,
    the e-mail and phone checks, and the ordered list of errors it reports. */
module Validation {
  import opened Chars

  /** The five values of the feedback form. `rating` is the hidden rating
      field's string value: "" while no star has been chosen. */
  datatype FormData = FormData(name: string, email: string, phone: string, rating: string, review: string)

  /** What the submit handler reads: the four text fields trimmed, the rating
      field as it is. */
  function Capture(raw: FormData): (d: FormData)
    ensures d.rating == raw.rating
    ensures |d.name| <= |raw.name| && |d.email| <= |raw.email|
    ensures |d.phone| <= |raw.phone| && |d.review| <= |raw.review|
  {
    FormData(Trim(raw.name), Trim(raw.email), Trim(raw.phone), raw.rating, Trim(raw.review))
  }

  /** Reading the form again from what was read changes nothing. */
  lemma CaptureIdempotent(raw: FormData)
    ensures Capture(Capture(raw)) == Capture(raw)
  {
    TrimIdempotent(raw.name);
    TrimIdempotent(raw.email);
    TrimIdempotent(raw.phone);
    TrimIdempotent(raw.review);
  }

  // ---------------------------------------------------------------- e-mail

  /** Index of the first occurrence of c in s, or |s| when there is none. */
  function IndexOf(s: string, c: char): (r: nat)
    ensures r <= |s|
    ensures forall i :: 0 <= i < r ==> s[i] != c
    ensures r < |s| ==> s[r] == c
  {
    if s == [] || s[0] == c then 0 else 1 + IndexOf(s[1..], c)
  }

  /** The e-mail check, written out by hand: no whitespace anywhere, one '@'
      that is not the first character, and after it a '.' that has at least
      one character on each side. */
  predicate IsValidEmail(s: string)
    ensures IsValidEmail(s) ==> '@' in s && 5 <= |s|
  {
    var at := IndexOf(s, '@');
    NoSpace(s) && 0 < at && at + 3 < |s| && '@' !in s[at + 1..] && '.' in s[at + 2..|s| - 1]
  }

  /** The pattern ^[^\s@]+@[^\s@]+\.[^\s@]+$ in terms of positions: s is
      s[..at] + "@" + s[at+1..dot] + "." + s[dot+1..] with all three parts
      non-empty, no whitespace in s, and no '@' other than the one at `at`. */
  predicate EmailSplit(s: string, at: int, dot: int) {
    0 < at && at + 1 < dot && dot + 1 < |s| && s[at] == '@' && s[dot] == '.' &&
    forall j :: 0 <= j < |s| ==> !IsSpace(s[j]) && (s[j] == '@' ==> j == at)
  }

  /** The hand-written check accepts exactly the strings the pattern matches. */
  lemma EmailMatchesPattern(s: string)
    ensures IsValidEmail(s) <==> exists at, dot :: EmailSplit(s, at, dot)
  {
    var at := IndexOf(s, '@');
    if IsValidEmail(s) {
      var tail := s[at + 2..|s| - 1];
      var i :| 0 <= i < |tail| && tail[i] == '.';
      var dot := at + 2 + i;
      assert EmailSplit(s, at, dot);
    }
    if exists a, d :: EmailSplit(s, a, d) {
      var a, d :| EmailSplit(s, a, d);
      assert at == a;
      assert s[at + 2..|s| - 1][d - at - 2] == '.';
    }
  }

  // ----------------------------------------------------------------- phone

  /** The characters the phone check strips first: [\s\-\(\)]. */
  predicate IsPhoneSeparator(c: char) {
    IsSpace(c) || c == '-' || c == '(' || c == ')'
  }

  /** phone.replace(/[\s\-\(\)]/g, ''). */
  function CleanPhone(s: string): (r: string)
    ensures |r| <= |s|
    ensures forall i :: 0 <= i < |r| ==> !IsPhoneSeparator(r[i])
  {
    if s == [] then [] else (if IsPhoneSeparator(s[0]) then [] else [s[0]]) + CleanPhone(s[1..])
  }

  /** Cleaning works character by character, so it distributes over concatenation. */
  lemma {:induction false} CleanPhoneAppend(a: string, b: string)
    ensures CleanPhone(a + b) == CleanPhone(a) + CleanPhone(b)
  {
    if a == [] {
      assert a + b == b;
    } else {
      assert (a + b)[0] == a[0];
      assert (a + b)[1..] == a[1..] + b;
      CleanPhoneAppend(a[1..], b);
    }
  }

  /** A string without separators is left as it is. */
  lemma {:induction false} CleanPhoneKeeps(s: string)
    requires forall i :: 0 <= i < |s| ==> !IsPhoneSeparator(s[i])
    ensures CleanPhone(s) == s
  {
    if s != [] {
      CleanPhoneKeeps(s[1..]);
    }
  }

  /** Cleaning twice is cleaning once. */
  lemma CleanPhoneIdempotent(s: string)
    ensures CleanPhone(CleanPhone(s)) == CleanPhone(s)
  {
    CleanPhoneKeeps(CleanPhone(s));
  }

  /** Every separator is dropped and every other character survives as often
      as it occurs in the input. */
  lemma {:induction false} CleanPhoneCounts(s: string, c: char)
    ensures multiset(CleanPhone(s))[c] == if IsPhoneSeparator(c) then 0 else multiset(s)[c]
  {
    if s != [] {
      CleanPhoneCounts(s[1..], c);
      assert s == [s[0]] + s[1..];
    }
  }

  /** ^[6-9]\d{9}$: ten ASCII digits, the first of them 6, 7, 8 or 9. */
  predicate IsMobileNumber(c: string)
    ensures IsMobileNumber(c) ==> forall i :: 0 <= i < |c| ==> IsDigit(c[i])
  {
    |c| == 10 && '6' <= c[0] <= '9' && forall i :: 1 <= i < 10 ==> IsDigit(c[i])
  }

  /** The phone check: the value with its separators removed is a mobile
      number, so at least ten characters were typed. */
  predicate IsValidPhone(s: string)
    ensures IsValidPhone(s) ==> 10 <= |s|
  {
    IsMobileNumber(CleanPhone(s))
  }

  /** A number typed as ten digits, the first of them 6 to 9, with no
      separators, is accepted as it is. */
  lemma PlainMobileAccepted(s: string)
    requires IsMobileNumber(s)
    ensures IsValidPhone(s)
  {
    assert forall i :: 0 <= i < |s| ==> IsDigit(s[i]);
    CleanPhoneKeeps(s);
  }

  /** Inserting a space, hyphen or parenthesis anywhere never changes the verdict. */
  lemma PhoneIgnoresSeparator(a: string, c: char, b: string)
    requires IsPhoneSeparator(c)
    ensures IsValidPhone(a + [c] + b) == IsValidPhone(a + b)
  {
    CleanPhoneAppend(a + [c], b);
    CleanPhoneAppend(a, [c]);
    CleanPhoneAppend(a, b);
    assert [c][1..] == [];
    assert CleanPhone([c]) == [];
    assert CleanPhone(a + [c]) == CleanPhone(a);
    assert a + [c] + b == (a + [c]) + b;
    assert CleanPhone(a + [c] + b) == CleanPhone(a + b);
  }

  // ------------------------------------------------------------ error list

  /** One error per rule, in the order the handler checks them. */
  datatype ValidationError = MissingName | MissingRating | MissingReview | InvalidEmail | InvalidPhone {

    /** Position in the fixed reporting order. */
    function Rank(): nat {
      match this
      case MissingName => 0
      case MissingRating => 1
      case MissingReview => 2
      case InvalidEmail => 3
      case InvalidPhone => 4
    }

    /** The bilingual text shown to the visitor. */
    function Message(): (m: string)
      ensures |m| > 0
    {
      match this
      case MissingName => "नाव आवश्यक आहे / Name is required"
      case MissingRating => "कृपया रेटिंग द्या / Please provide a rating"
      case MissingReview => "कृपया आपला अनुभव लिहा / Please write your experience"
      case InvalidEmail => "कृपया वैध ईमेल पत्ता द्या / Please provide a valid email address"
      case InvalidPhone => "कृपया वैध फोन नंबर द्या / Please provide a valid phone number"
    }
  }

  /** The rule behind each error, judged on its own, on the captured values:
      a required field that is empty, or an optional field that is filled in
      and fails its check. */
  predicate Violates(d: FormData, e: ValidationError) {
    match e
    case MissingName => d.name == ""
    case MissingRating => d.rating == ""
    case MissingReview => d.review == ""
    case InvalidEmail => d.email != "" && !IsValidEmail(d.email)
    case InvalidPhone => d.phone != "" && !IsValidPhone(d.phone)
  }

  /** No error is listed twice and the list follows the reporting order. */
  predicate InReportingOrder(errors: seq<ValidationError>) {
    forall i, j :: 0 <= i < j < |errors| ==> errors[i].Rank() < errors[j].Rank()
  }

  /** errors.push(e) when the rule behind e fails. */
  function Report(errors: seq<ValidationError>, fails: bool, e: ValidationError): (r: seq<ValidationError>)
    ensures |r| <= |errors| + 1
    ensures forall x :: x in r <==> x in errors || (fails && x == e)
    ensures InReportingOrder(errors) && (forall x :: x in errors ==> x.Rank() < e.Rank()) ==>
      InReportingOrder(r) && forall x :: x in r ==> x.Rank() <= e.Rank()
  {
    if fails then errors + [e] else errors
  }

  /** The error list the submit handler builds: every rule that fails is
      reported, each once, in the order name, rating, review, e-mail, phone. */
  function Errors(d: FormData): (r: seq<ValidationError>)
    ensures |r| <= 5
    ensures InReportingOrder(r)
    ensures forall e :: e in r <==> Violates(d, e)
  {
    var afterName := Report([], d.name == "", MissingName);
    var afterRating := Report(afterName, d.rating == "", MissingRating);
    var afterReview := Report(afterRating, d.review == "", MissingReview);
    var afterEmail := Report(afterReview, d.email != "" && !IsValidEmail(d.email), InvalidEmail);
    Report(afterEmail, d.phone != "" && !IsValidPhone(d.phone), InvalidPhone)
  }

  /** Name and review are reported missing exactly when the raw field is all
      whitespace; the rating exactly when its field is the empty string. */
  lemma RequiredFieldErrors(raw: FormData)
    ensures MissingName in Errors(Capture(raw)) <==> AllSpace(raw.name)
    ensures MissingRating in Errors(Capture(raw)) <==> raw.rating == ""
    ensures MissingReview in Errors(Capture(raw)) <==> AllSpace(raw.review)
  {
    TrimEmptyIffAllSpace(raw.name);
    TrimEmptyIffAllSpace(raw.review);
  }

  /** An e-mail or phone field left blank (or holding only whitespace) never
      produces an error. */
  lemma BlankOptionalFieldsPass(raw: FormData)
    ensures AllSpace(raw.email) ==> InvalidEmail !in Errors(Capture(raw))
    ensures AllSpace(raw.phone) ==> InvalidPhone !in Errors(Capture(raw))
  {
    TrimEmptyIffAllSpace(raw.email);
    TrimEmptyIffAllSpace(raw.phone);
  }

  /** The outcome of pressing Submit: the error list when it is non-empty,
      otherwise the captured values that go on to the submission. */
  datatype Outcome = Rejected(errors: seq<ValidationError>) | Accepted(data: FormData)

  function Decide(raw: FormData): (o: Outcome)
    ensures o.Rejected? ==> 0 < |o.errors| <= 5
    ensures o.Accepted? ==> o.data.rating == raw.rating
  {
    var d := Capture(raw);
    var errors := Errors(d);
    if errors != [] then Rejected(errors) else Accepted(d)
  }

  /** A form is accepted exactly when name and review hold more than
      whitespace, a star has been chosen, and each optional field is either
      blank or passes its check. A rejection carries a non-empty list. */
  lemma DecideAcceptsWellFormed(raw: FormData)
    ensures Decide(raw).Accepted? <==>
      !AllSpace(raw.name) && raw.rating != "" && !AllSpace(raw.review) &&
      (AllSpace(raw.email) || IsValidEmail(Trim(raw.email))) &&
      (AllSpace(raw.phone) || IsValidPhone(Trim(raw.phone)))
    ensures Decide(raw).Rejected? ==> Decide(raw).errors != []
  {
    var d := Capture(raw);
    TrimEmptyIffAllSpace(raw.name);
    TrimEmptyIffAllSpace(raw.review);
    TrimEmptyIffAllSpace(raw.email);
    TrimEmptyIffAllSpace(raw.phone);
    if Errors(d) != [] {
      assert Errors(d)[0] in Errors(d);
    }
  }

  // ------------------------------------------------------------- examples

  /** Name, five stars and review, no contact details: accepted. */
  lemma AcceptedExample()
    ensures Decide(FormData("Asha", "", "", "5", "Great service")) ==
      Accepted(FormData("Asha", "", "", "5", "Great service"))
  {
  }

  /** The untouched form: name, rating and review are missing, in that order. */
  lemma EmptyFormExample()
    ensures Decide(FormData("", "", "", "", "")) == Rejected([MissingName, MissingRating, MissingReview])
  {
  }

  /** A five-digit phone number is refused. */
  lemma ShortPhoneRefused()
    ensures !IsValidPhone("12345")
  {
  }

  /** A ten-digit number starting with 9 is accepted. */
  lemma MobilePhoneAccepted()
    ensures IsValidPhone("9876543210")
  {
    var s := "9876543210";
    assert IsMobileNumber(s) by {
      assert |s| == 10 && s[0] == '9';
      forall i | 1 <= i < 10 ensures IsDigit(s[i]) { }
    }
    PlainMobileAccepted(s);
  }
}
