/** The reviews hook: an append-only map from place id to that place's
    reviews, with totals, an average rounded to one decimal, and a
    newest-first view. */
module ReviewsStore {
  import opened Wrappers
  import opened Maps
  import opened Sorting

  /** `date` is a timestamp in milliseconds; `placeId` is absent on
      reviews added through the form, which passes only name, rating and
      comment. */
  datatype Review = Review(id: string, placeId: Option<string>, reviewerName: string, rating: int, comment: string, date: int)

  /** What `addReview` receives: a review without `id` and `date`. */
  datatype ReviewInput = ReviewInput(reviewerName: string, rating: int, comment: string)

  type Reviews = map<string, seq<Review>>

  function Length(l: seq<Review>): nat {
    |l|
  }

  function Date(r: Review): int {
    r.date
  }

  /** `getReviewsForPlace(placeId)`: the place's list, empty when unknown. */
  function ReviewsForPlace(rs: Reviews, p: string): seq<Review> {
    if p in rs then rs[p] else []
  }

  /** `addReview(placeId, review)`; `id` and `now` stand for the generated
      UUID and the clock reading. */
  function AddReview(rs: Reviews, p: string, input: ReviewInput, id: string, now: int): (rs': Reviews)
    ensures var added := Review(id, None, input.reviewerName, input.rating, input.comment, now);
      ReviewsForPlace(rs', p) == ReviewsForPlace(rs, p) + [added]
    ensures forall q :: q != p ==> (q in rs' <==> q in rs) && ReviewsForPlace(rs', q) == ReviewsForPlace(rs, q)
  {
    var added := Review(id, None, input.reviewerName, input.rating, input.comment, now);
    rs[p := ReviewsForPlace(rs, p) + [added]]
  }

  /** An unknown place has no reviews. */
  lemma UnknownPlaceHasNone(rs: Reviews, p: string)
    requires p !in rs
    ensures ReviewsForPlace(rs, p) == []
  {
  }

  /** `getTotalReviews()`: the list lengths summed. */
  method TotalReviews(rs: Reviews) returns (n: nat)
    ensures n == Sum(rs, Length)
  {
    n := SumValues(rs, Length);
  }

  /** Every `addReview` raises the total by exactly one. */
  lemma AddReviewTotal(rs: Reviews, p: string, input: ReviewInput, id: string, now: int)
    ensures Sum(AddReview(rs, p, input, id, now), Length) == Sum(rs, Length) + 1
  {
    var l := ReviewsForPlace(rs, p);
    var added := Review(id, None, input.reviewerName, input.rating, input.comment, now);
    SumUpdate(rs, Length, p, l + [added]);
  }

  /** `getAllReviews()`: every place's reviews in one list, as many as the
      total counts. */
  method AllReviews(rs: Reviews) returns (all: seq<Review>)
    ensures |all| == Sum(rs, Length)
    ensures forall q, x :: q in rs && x in rs[q] ==> x in all
    ensures forall x :: x in all ==> exists q :: q in rs && x in rs[q]
  {
    all := [];
    var rest := rs;
    while |rest| > 0
      invariant rest.Keys <= rs.Keys
      invariant forall q :: q in rest ==> rest[q] == rs[q]
      invariant |all| + Sum(rest, Length) == Sum(rs, Length)
      invariant forall q, x :: q in rs && q !in rest && x in rs[q] ==> x in all
      invariant forall x :: x in all ==> exists q :: q in rs && x in rs[q]
      decreases |rest|
    {
      var q :| q in rest;
      SumRemove(rest, Length, q);
      CardRemove(rest, q);
      all := all + rest[q];
      rest := rest - {q};
    }
  }

  function SumRatings(l: seq<Review>): int {
    if |l| == 0 then 0 else l[0].rating + SumRatings(l[1..])
  }

  /** `getAverageRating(placeId)` in tenths: the mean rating times ten,
      rounded half up as `Math.round` does, and 0 for a place without
      reviews. */
  function AverageRatingTenths(rs: Reviews, p: string): (t: int)
    ensures var l := ReviewsForPlace(rs, p);
      && (|l| == 0 ==> t == 0)
      && (|l| > 0 ==> 20 * SumRatings(l) - |l| < 2 * |l| * t <= 20 * SumRatings(l) + |l|)
  {
    var l := ReviewsForPlace(rs, p);
    if |l| == 0 then 0 else (20 * SumRatings(l) + |l|) / (2 * |l|)
  }

  predicate RatingsInRange(l: seq<Review>) {
    forall i :: 0 <= i < |l| ==> 1 <= l[i].rating <= 5
  }

  lemma {:induction false} SumRatingsBounds(l: seq<Review>)
    requires RatingsInRange(l)
    ensures |l| <= SumRatings(l) <= 5 * |l|
  {
    if |l| > 0 {
      SumRatingsBounds(l[1..]);
    }
  }

  /** Bounds on a quotient from bounds on the dividend. */
  lemma DivBetween(a: int, b: int, lo: int, hi: int)
    requires b > 0 && b * lo <= a < b * (hi + 1)
    ensures lo <= a / b <= hi
  {
    var q := a / b;
    assert b * q <= a < b * q + b;
    assert b * q + b == b * (q + 1);
    MulCancel(b, lo, q + 1);
    MulCancel(b, q, hi + 1);
  }

  lemma MulCancel(b: int, x: int, y: int)
    requires b > 0 && b * x < b * y
    ensures x < y
  {
    assert b * (y - x) == b * y - b * x;
  }

  /** With every rating between 1 and 5, a reviewed place averages between
      1.0 and 5.0. */
  lemma AverageInRange(rs: Reviews, p: string)
    requires RatingsInRange(ReviewsForPlace(rs, p)) && |ReviewsForPlace(rs, p)| > 0
    ensures 10 <= AverageRatingTenths(rs, p) <= 50
  {
    var l := ReviewsForPlace(rs, p);
    var n, total := |l|, SumRatings(l);
    SumRatingsBounds(l);
    DivBetween(20 * total + n, 2 * n, 10, 50);
  }

  /** Ratings 5 and 3 average to 4.0; ratings 5, 4 and 4 to 4.3. */
  lemma AverageExamples(a: Review, b: Review, c: Review)
    requires a.rating == 5 && b.rating == 3 && c.rating == 4
    ensures AverageRatingTenths(map["x" := [a, b]], "x") == 40
    ensures AverageRatingTenths(map["x" := [a, c, c]], "x") == 43
  {
    assert [a, b][1..] == [b] && [b][1..] == [];
    assert SumRatings([b]) == 3;
    assert SumRatings([a, b]) == 8;
    assert [a, c, c][1..] == [c, c] && [c, c][1..] == [c] && [c][1..] == [];
    assert SumRatings([c]) == 4;
    assert SumRatings([c, c]) == 8;
    assert SumRatings([a, c, c]) == 13;
  }

  /** `getReviewsSortedByDate(placeId)`: a newest-first copy of the list;
      the stored list is a value and stays as it was. */
  function ReviewsSortedByDate(rs: Reviews, p: string): (r: seq<Review>)
    ensures NonIncreasing(r, Date)
    ensures multiset(r) == multiset(ReviewsForPlace(rs, p))
  {
    SortDesc(ReviewsForPlace(rs, p), Date)
  }
}
