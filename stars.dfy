/** The five-star rating picker of the feedback form: the committed rating,
    the hidden rating field it writes, and the filled or empty state of each
    star while the visitor hovers and clicks. */
module RatingStars {
  import opened Chars

  /** Number of star elements in the picker. */
  const StarCount: nat := 5

  const FilledStar: char := '\U{2605}'
  const EmptyStar: char := '\U{2606}'

  /** The star state highlightStars(rating) produces: star i (0-based) is
      filled exactly when i < rating. */
  function Highlight(rating: nat): (h: seq<bool>)
    ensures |h| == StarCount
  {
    seq(StarCount, i => i < rating)
  }

  /** A highlight is min(rating, 5) filled stars followed by the rest empty;
      rating 0 leaves every star empty. */
  lemma HighlightIsPrefix(rating: nat)
    ensures var m := if rating < StarCount then rating else StarCount;
      Highlight(rating) == Repeat(true, m) + Repeat(false, StarCount - m)
    ensures Highlight(0) == Repeat(false, StarCount)
  {
  }

  /** The glyph a star element shows. */
  function Glyph(filled: bool): char {
    if filled then FilledStar else EmptyStar
  }

  /** The text of the star elements, left to right. */
  function Rendered(stars: seq<bool>): (t: string)
    ensures |t| == |stars|
    ensures forall i :: 0 <= i < |stars| ==> (t[i] == FilledStar <==> stars[i])
  {
    seq(|stars|, i requires 0 <= i < |stars| => Glyph(stars[i]))
  }

  /** The star string of a review card: n filled stars, then 5 - n empty ones. */
  function StarString(n: nat): (r: string)
    requires n <= StarCount
    ensures |r| == StarCount
  {
    Repeat(FilledStar, n) + Repeat(EmptyStar, StarCount - n)
  }

  /** A review card rated n shows the same stars as the picker after a click
      on star n: five glyphs, the first n filled and the others empty. */
  lemma StarStringMatchesPicker(n: nat)
    requires n <= StarCount
    ensures |StarString(n)| == StarCount
    ensures forall i :: 0 <= i < StarCount ==> StarString(n)[i] == if i < n then FilledStar else EmptyStar
    ensures StarString(n) == Rendered(Highlight(n))
  {
  }

  /** The hidden rating field's value for a committed rating: "" for none,
      otherwise the decimal digit (String(selectedRating)). */
  function RatingText(k: nat): (t: string)
    requires k <= StarCount
    ensures |t| <= 1 && (t == "" <==> k == 0)
  {
    if k == 0 then "" else [('0' as int + k) as char]
  }

  /** A rating field value that a click on a star can produce. */
  predicate IsChosenRating(t: string) {
    |t| == 1 && '1' <= t[0] <= (('0' as int) + StarCount) as char
  }

  /** parseInt on a one-digit rating field value. */
  function ParseRating(t: string): (k: nat)
    requires |t| == 1 && IsDigit(t[0])
  {
    (t[0] as int) - ('0' as int)
  }

  /** The field text and the committed rating determine each other: a chosen
      rating's text parses back to it, a chosen text is the text of the rating
      it parses to, and only rating 0 gives the empty field. */
  lemma RatingTextRoundTrip(k: nat, t: string)
    requires k <= StarCount
    ensures RatingText(k) == "" <==> k == 0
    ensures k != 0 ==> IsChosenRating(RatingText(k)) && ParseRating(RatingText(k)) == k
    ensures IsChosenRating(t) ==> 1 <= ParseRating(t) <= StarCount && RatingText(ParseRating(t)) == t
  {
  }

  /** The picker: the committed rating, the hidden form field that mirrors
      it, and one element per star, true when it shows a filled star. */
  class RatingSelector {
    var selectedRating: nat
    var ratingField: string
    const stars: array<bool>

    /** Five stars, a rating of at most five, and the field mirroring it. */
    ghost predicate Valid()
      reads this
    {
      stars.Length == StarCount && selectedRating <= StarCount &&
      ratingField == RatingText(selectedRating)
    }

    /** Page load: nothing chosen, every star empty, the field blank. */
    constructor ()
      ensures Valid() && fresh(stars)
      ensures selectedRating == 0 && ratingField == "" && stars[..] == Highlight(0)
    {
      selectedRating := 0;
      ratingField := "";
      stars := new bool[StarCount](_ => false);
    }

    /** The star glyphs as the visitor sees them. */
    function Shown(): (t: string)
      reads this, stars
    {
      Rendered(stars[..])
    }

    /** highlightStars: fill the first `rating` stars, empty the others. */
    method HighlightStars(rating: nat)
      requires stars.Length == StarCount
      modifies stars
      ensures stars[..] == Highlight(rating)
    {
      for i := 0 to stars.Length
        invariant forall j :: 0 <= j < i ==> stars[j] == (j < rating)
      {
        stars[i] := i < rating;
      }
      assert stars[..] == Highlight(rating);
    }

    /** resetStars: empty every star, the state highlightStars(0) gives. */
    method ResetStars()
      requires stars.Length == StarCount
      modifies stars
      ensures stars[..] == Highlight(0)
    {
      for i := 0 to stars.Length
        invariant forall j :: 0 <= j < i ==> !stars[j]
      {
        stars[i] := false;
      }
      assert stars[..] == Highlight(0);
    }

    /** The pointer enters star k (1-based): a preview that commits nothing. */
    method Hover(k: nat)
      requires Valid() && 1 <= k <= StarCount
      modifies stars
      ensures Valid()
      ensures selectedRating == old(selectedRating) && ratingField == old(ratingField)
      ensures stars[..] == Highlight(k)
    {
      HighlightStars(k);
    }

    /** The pointer leaves a star: the preview falls back to the committed
      rating, every star empty when none is chosen. */
    method MouseOut()
      requires Valid()
      modifies stars
      ensures Valid()
      ensures selectedRating == old(selectedRating) && ratingField == old(ratingField)
      ensures stars[..] == Highlight(selectedRating)
    {
      if selectedRating == 0 {
        ResetStars();
      } else {
        HighlightStars(selectedRating);
      }
    }

    /** A click on star k commits rating k, writes it to the field and fills
      the first k stars. */
    method Click(k: nat)
      requires Valid() && 1 <= k <= StarCount
      modifies this, stars
      ensures Valid()
      ensures selectedRating == k && ratingField == RatingText(k)
      ensures stars[..] == Highlight(k)
    {
      selectedRating := k;
      ratingField := RatingText(selectedRating);
      HighlightStars(selectedRating);
    }

    /** The rating part of the form reset: back to no rating, every star
      empty, the field blank. */
    method Reset()
      requires Valid()
      modifies this, stars
      ensures Valid()
      ensures selectedRating == 0 && ratingField == "" && stars[..] == Highlight(0)
    {
      selectedRating := 0;
      ResetStars();
      ratingField := "";
    }
  }
}
