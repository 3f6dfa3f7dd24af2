/**
 * src/pages/FeedbackPage.jsx: a star rating with hover preview, a free-text field that the
 * quick-option buttons edit, and a submit that needs a rating.
 */
module Feedback {
  import opened JsBuiltins

  // ---------------------------------------------------------------- rating display

  /** The texts `getRatingText` gives one to five stars, in order. */
  const RatingLabels := ["Poor", "Fair", "Good", "Very Good", "Excellent"]

  /** `getRatingText`'s default. */
  const Unrated := "Rate your experience"

  const Red := "text-red-500"
  const Yellow := "text-yellow-500"
  const Green := "text-green-500"

  /** The colour of the rating text while nothing is rated or hovered. */
  const Gray := "text-gray-500"

  /** `getRatingText(stars)`: the label of one to five stars, the invitation otherwise. */
  function RatingText(stars: int): (r: string)
    ensures 1 <= stars <= |RatingLabels| ==> r == RatingLabels[stars - 1]
    ensures !(1 <= stars <= |RatingLabels|) ==> r == Unrated
    ensures r in RatingLabels <==> 1 <= stars <= 5
  {
    match stars
    case 1 => "Poor"
    case 2 => "Fair"
    case 3 => "Good"
    case 4 => "Very Good"
    case 5 => "Excellent"
    case _ => "Rate your experience"
  }

  /** `getRatingColor(stars)`: red up to two stars, yellow at three, green above. */
  function RatingColor(stars: int): (r: string)
    ensures r == Red <==> stars <= 2
    ensures r == Yellow <==> stars == 3
    ensures r == Green <==> stars >= 4
  {
    if stars <= 2 then Red else if stars == 3 then Yellow else Green
  }

  /** On a real rating the colour follows the label: red for Poor and Fair, yellow for Good, green for the rest. */
  lemma ColorFollowsLabel(stars: int)
    requires 1 <= stars <= 5
    ensures RatingColor(stars) == Red <==> RatingText(stars) in {"Poor", "Fair"}
    ensures RatingColor(stars) == Yellow <==> RatingText(stars) == "Good"
    ensures RatingColor(stars) == Green <==> RatingText(stars) in {"Very Good", "Excellent"}
  {
  }

  /** `hoveredRating || rating`: the hovered star while the pointer is over one, the rating otherwise. */
  function DisplayedRating(hoveredRating: int, rating: int): (r: int)
    ensures hoveredRating != 0 ==> r == hoveredRating
    ensures hoveredRating == 0 ==> r == rating
  {
    if hoveredRating != 0 then hoveredRating else rating
  }

  /** Whether star number `star` is drawn filled. */
  predicate StarFilled(star: int, hoveredRating: int, rating: int)
  {
    star <= DisplayedRating(hoveredRating, rating)
  }

  /** How many of the stars 1..n are drawn filled. */
  function FilledCount(hoveredRating: int, rating: int, n: nat): (c: nat)
    ensures c <= n
  {
    if n == 0 then 0
    else FilledCount(hoveredRating, rating, n - 1) + if StarFilled(n, hoveredRating, rating) then 1 else 0
  }

  /** Of the stars 1..n, as many are filled as the displayed rating says, clamped to 0..n. */
  lemma {:induction false} FilledCountIsClamped(hoveredRating: int, rating: int, n: nat)
    ensures var shown := DisplayedRating(hoveredRating, rating);
      FilledCount(hoveredRating, rating, n) == if shown <= 0 then 0 else if shown >= n then n else shown
  {
    if n > 0 {
      FilledCountIsClamped(hoveredRating, rating, n - 1);
    }
  }

  /**
   * The five stars show the displayed rating: the number of filled ones is that rating clamped
   * to 0..5, and they form a prefix.
   */
  lemma FilledStarsArePrefix(hoveredRating: int, rating: int)
    ensures var shown := DisplayedRating(hoveredRating, rating);
      FilledCount(hoveredRating, rating, 5) == if shown <= 0 then 0 else if shown >= 5 then 5 else shown
    ensures forall s, t :: 1 <= s <= t <= 5 && StarFilled(t, hoveredRating, rating) ==> StarFilled(s, hoveredRating, rating)
  {
    FilledCountIsClamped(hoveredRating, rating, 5);
  }

  /** The class of the rating text: the colour of the displayed rating, gray while it is zero. */
  function DisplayedColor(hoveredRating: int, rating: int): (r: string)
    ensures DisplayedRating(hoveredRating, rating) == 0 ==> r == Gray
    ensures DisplayedRating(hoveredRating, rating) != 0 ==> r == RatingColor(DisplayedRating(hoveredRating, rating))
  {
    var shown := DisplayedRating(hoveredRating, rating);
    if shown != 0 then RatingColor(shown) else Gray
  }

  /** The submit button's `disabled`. */
  predicate SubmitDisabled(rating: int, isSubmitting: bool)
  {
    rating == 0 || isSubmitting
  }

  // ---------------------------------------------------------------- quick options

  /** The quick-feedback buttons. */
  const QuickOptions := ["Fast service", "Helpful staff", "Clear process", "Good facilities", "Easy to understand", "Professional service"]

  /** The separator the toggle writes between options. */
  const Separator := ". "

  /** Without an `option + ". "`, the two replacements cut out exactly the first `option`. */
  lemma CutBareOption(feedback: string, option: string)
    requires Includes(feedback, option) && !Includes(feedback, option + Separator)
    ensures var r := ReplaceFirst(ReplaceFirst(feedback, option + Separator, ""), option, "");
      var j := IndexOf(feedback, option);
      r == feedback[..j] + feedback[j + |option|..]
  {
    ReplaceByEmptyCuts(feedback, option);
  }

  /** With an `option + ". "`, its first occurrence is cut out, then the first bare `option` left, if any. */
  lemma CutOptionWithSeparator(feedback: string, option: string)
    requires Includes(feedback, option + Separator)
    ensures var r := ReplaceFirst(ReplaceFirst(feedback, option + Separator, ""), option, "");
      var i := IndexOf(feedback, option + Separator);
      var m := feedback[..i] + feedback[i + |option| + |Separator|..];
      && |r| <= |feedback| - |option|
      && (!Includes(m, option) ==> r == m)
      && (Includes(m, option) ==> r == m[..IndexOf(m, option)] + m[IndexOf(m, option) + |option|..])
  {
    var cut := ReplaceFirst(feedback, option + Separator, "");
    ReplaceByEmptyCuts(feedback, option + Separator);
    ReplaceByEmptyCuts(cut, option);
    var i := IndexOf(feedback, option + Separator);
    assert cut == feedback[..i] + feedback[i + |option| + |Separator|..];
  }

  /**
   * A quick option's click on the text `feedback`: an option already contained is cut out
   * (first `option + ". "`, then the first bare `option`); a missing one is added, after a
   * separator unless the text is empty.
   */
  function ToggleOption(feedback: string, option: string): (r: string)
    ensures !Includes(feedback, option) ==> Includes(r, option)
    ensures !Includes(feedback, option) && feedback == "" ==> r == option
    ensures !Includes(feedback, option) && feedback != "" ==> r == feedback + Separator + option
    ensures Includes(feedback, option) ==> |r| <= |feedback| - |option|
    ensures Includes(feedback, option) && !Includes(feedback, option + Separator) ==>
      var j := IndexOf(feedback, option);
      r == feedback[..j] + feedback[j + |option|..]
    ensures Includes(feedback, option + Separator) ==>
      var i := IndexOf(feedback, option + Separator);
      var m := feedback[..i] + feedback[i + |option| + |Separator|..];
      && (!Includes(m, option) ==> r == m)
      && (Includes(m, option) ==> r == m[..IndexOf(m, option)] + m[IndexOf(m, option) + |option|..])
  {
    IncludesLongerPattern(feedback, option, Separator);
    if Includes(feedback, option) then
      var cutBoth := ReplaceFirst(ReplaceFirst(feedback, option + Separator, ""), option, "");
      if Includes(feedback, option + Separator) then
        CutOptionWithSeparator(feedback, option);
        cutBoth
      else
        CutBareOption(feedback, option);
        cutBoth
    else
      var added := if feedback != "" then feedback + Separator + option else option;
      IncludesWitness(added, option, |added| - |option|);
      added
  }

  /** Clicking an option twice on an empty text gives the empty text back. */
  lemma ToggleTwiceFromEmpty(option: string)
    requires option != ""
    ensures ToggleOption("", option) == option
    ensures ToggleOption(ToggleOption("", option), option) == ""
  {
    assert !Includes("", option);
    IncludesWitness(option, option, 0);
    assert !Includes(option, option + Separator);
    assert IndexOf(option, option) == 0;
  }

  /**
   * Clicking a second option twice does not restore the text: the separator written before
   * it stays behind.
   */
  lemma ToggleTwiceLeavesSeparator()
    ensures ToggleOption(ToggleOption("Fast service", "Helpful staff"), "Helpful staff") == "Fast service. "
  {
    var f := "Fast service";
    var o := "Helpful staff";
    var t := f + Separator + o;
    assert ToggleOption(f, o) == t by {
      assert !OccursAt(f, o, 0);
    }
    // 'H' starts both patterns and does not occur before index 14.
    assert 'H' !in t[..14];
    assert IndexOf(t, o) == 14 by {
      IncludesWitness(t, o, 14);
      forall j | 0 <= j < 14 ensures !OccursAt(t, o, j) {
        assert t[j] in t[..14];
        assert t[j..j + |o|][0] == t[j];
      }
    }
    assert !Includes(t, o + Separator) by {
      var p := o + Separator;
      forall j | 0 <= j && j + |p| <= |t| ensures !OccursAt(t, p, j) {
        assert t[j] in t[..14];
        assert t[j..j + |p|][0] == t[j];
      }
    }
    assert t[..14] + t[14 + |o|..] == f + Separator;
  }

  // ---------------------------------------------------------------- the component

  class FeedbackForm {
    var rating: int
    var hoveredRating: int
    var feedback: string
    var submitted: bool
    var isSubmitting: bool

    /** Ratings come only from the five star buttons. */
    ghost predicate Valid()
      reads this`rating, this`hoveredRating
    {
      0 <= rating <= 5 && 0 <= hoveredRating <= 5
    }

    constructor ()
      ensures Valid()
      ensures rating == 0 && hoveredRating == 0 && feedback == "" && !submitted && !isSubmitting
    {
      rating, hoveredRating, feedback := 0, 0, "";
      submitted, isSubmitting := false, false;
    }

    /** `onMouseEnter` of star `star`. */
    method HoverStar(star: int)
      requires Valid() && 1 <= star <= 5
      modifies this`hoveredRating
      ensures Valid() && hoveredRating == star
    {
      hoveredRating := star;
    }

    /** `onMouseLeave` of any star. */
    method LeaveStar()
      requires Valid()
      modifies this`hoveredRating
      ensures Valid() && hoveredRating == 0
    {
      hoveredRating := 0;
    }

    /** `onClick` of star `star`. */
    method ClickStar(star: int)
      requires Valid() && 1 <= star <= 5
      modifies this`rating
      ensures Valid() && rating == star
    {
      rating := star;
    }

    /** The textarea's `onChange`. */
    method EditFeedback(text: string)
      modifies this`feedback
      ensures feedback == text
    {
      feedback := text;
    }

    /** The `onClick` of a quick-option button. */
    method ToggleQuickOption(option: string)
      requires option in QuickOptions
      modifies this`feedback
      ensures feedback == ToggleOption(old(feedback), option)
    {
      feedback := ToggleOption(feedback, option);
    }

    /** `handleSubmit` up to its `await`: without a rating nothing happens; `started` says whether it went on. */
    method BeginSubmit() returns (started: bool)
      requires Valid()
      modifies this`isSubmitting
      ensures Valid()
      ensures started <==> rating != 0
      ensures !SubmitDisabled(rating, old(isSubmitting)) ==> started
      ensures started ==> SubmitDisabled(rating, isSubmitting)
      ensures isSubmitting == (old(isSubmitting) || started)
    {
      if rating == 0 {
        return false;
      }
      isSubmitting := true;
      started := true;
    }

    /** `handleSubmit` after the delay. */
    method FinishSubmit()
      requires Valid()
      modifies this`submitted, this`isSubmitting
      ensures Valid() && submitted && !isSubmitting
    {
      submitted := true;
      isSubmitting := false;
    }

    /** `resetForm`. */
    method ResetForm()
      modifies this
      ensures Valid()
      ensures rating == 0 && hoveredRating == 0 && feedback == "" && !submitted && !isSubmitting
    {
      rating, hoveredRating, feedback := 0, 0, "";
      submitted, isSubmitting := false, false;
    }
  }
}
