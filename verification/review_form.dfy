/** The review form: a name, a star rating and a comment; submitting
    trims the text fields, refuses blank ones and resets the form. */
module ReviewForm {
  import opened Strings
  import opened ReviewsStore

  datatype FormState = FormState(reviewerName: string, rating: int, comment: string)

  /** A fresh form: empty fields and five stars. */
  function Initial(): (f: FormState)
    ensures f.reviewerName == [] && f.comment == [] && f.rating == 5
  {
    FormState("", 5, "")
  }

  /** What the submit handler does: a "Missing Information" rejection, or a
      review handed to `onSubmit`. */
  datatype Outcome = Rejected | Submitted(review: ReviewInput)

  /** Text with something other than whitespace in it: `!!s.trim()`. */
  predicate Filled(s: string) {
    Trim(s) != []
  }

  /** The submit handler: blank name or comment leaves the form as it was;
      otherwise the trimmed fields and the current rating are submitted and
      the form goes back to its initial state. */
  function Submit(f: FormState): (r: (Outcome, FormState))
    ensures r.0.Rejected? <==> !Filled(f.reviewerName) || !Filled(f.comment)
    ensures r.0.Rejected? ==> r.1 == f
    ensures r.0.Submitted? ==> r.1 == Initial()
    ensures r.0.Submitted? ==>
      && r.0.review.rating == f.rating
      && r.0.review.reviewerName == Trim(f.reviewerName)
      && r.0.review.comment == Trim(f.comment)
  {
    if !Filled(f.reviewerName) || !Filled(f.comment) then (Rejected, f)
    else (Submitted(ReviewInput(Trim(f.reviewerName), f.rating, Trim(f.comment))), Initial())
  }

  /** A submitted review has non-empty name and comment without surrounding
      whitespace, and each is a contiguous piece of what was typed. */
  lemma SubmittedIsClean(f: FormState)
    requires Submit(f).0.Submitted?
    ensures var v := Submit(f).0.review;
      && v.reviewerName != [] && !IsWhite(v.reviewerName[0]) && !IsWhite(v.reviewerName[|v.reviewerName| - 1])
      && v.comment != [] && !IsWhite(v.comment[0]) && !IsWhite(v.comment[|v.comment| - 1])
      && (exists i, j :: 0 <= i <= j <= |f.reviewerName| && v.reviewerName == f.reviewerName[i..j])
      && (exists i, j :: 0 <= i <= j <= |f.comment| && v.comment == f.comment[i..j])
  {
  }

  /** A name or comment made of whitespace only is refused. */
  lemma WhitespaceRejected(f: FormState)
    requires forall i :: 0 <= i < |f.reviewerName| ==> IsWhite(f.reviewerName[i])
    ensures Submit(f) == (Rejected, f)
  {
    TrimEmptyIff(f.reviewerName);
  }

  /** Typing the submitted values back in submits the same review again:
      trimming already-trimmed text changes nothing. */
  lemma ResubmitSame(f: FormState)
    requires Submit(f).0.Submitted?
    ensures var v := Submit(f).0.review;
      Submit(FormState(v.reviewerName, v.rating, v.comment)).0 == Submit(f).0
  {
    TrimIdempotent(f.reviewerName);
    TrimIdempotent(f.comment);
  }

  /** A fresh form is refused until both text fields are filled in. */
  lemma InitialRejected()
    ensures Submit(Initial()) == (Rejected, Initial())
  {
  }

  /** Clicking the star at `index` (0-based, five buttons) selects
      `index + 1` stars; the text fields are untouched. */
  function ClickStar(f: FormState, index: int): (g: FormState)
    requires 0 <= index < 5
    ensures 1 <= g.rating <= 5 && g.rating - 1 == index
    ensures g.reviewerName == f.reviewerName && g.comment == f.comment
  {
    f.(rating := index + 1)
  }

  predicate ValidRating(f: FormState) {
    1 <= f.rating <= 5
  }

  /** The rating stays between one and five stars whatever the user does,
      so every submitted review carries such a rating. */
  lemma RatingStaysInRange(f: FormState, index: int)
    requires ValidRating(f) && 0 <= index < 5
    ensures ValidRating(Initial())
    ensures ValidRating(ClickStar(f, index))
    ensures ValidRating(Submit(f).1)
    ensures Submit(f).0.Submitted? ==> 1 <= Submit(f).0.review.rating <= 5
  {
  }

  /** Which of the five stars are drawn filled for a rating. */
  function Stars(rating: int): (stars: seq<bool>)
    ensures |stars| == 5
    ensures forall i :: 0 <= i < 5 ==> (stars[i] <==> i < rating)
  {
    seq(5, i => i < rating)
  }

  function CountFilled(stars: seq<bool>): nat {
    if |stars| == 0 then 0 else (if stars[0] then 1 else 0) + CountFilled(stars[1..])
  }

  /** Filled stars come first, followed by empty ones. */
  predicate FilledFirst(stars: seq<bool>) {
    forall i, j :: 0 <= i < j < |stars| && stars[j] ==> stars[i]
  }

  lemma {:induction false} CountPrefix(stars: seq<bool>, k: nat)
    requires k <= |stars|
    requires forall i :: 0 <= i < |stars| ==> (stars[i] <==> i < k)
    ensures CountFilled(stars) == k
    decreases |stars|
  {
    if |stars| > 0 {
      if k > 0 {
        CountPrefix(stars[1..], k - 1);
      } else {
        CountPrefix(stars[1..], 0);
      }
    }
  }

  /** A rating of `n` stars draws exactly `n` filled stars, all before the
      empty ones. */
  lemma StarsShowRating(rating: int)
    requires 0 <= rating <= 5
    ensures CountFilled(Stars(rating)) == rating
    ensures FilledFirst(Stars(rating))
  {
    CountPrefix(Stars(rating), rating);
  }
}
