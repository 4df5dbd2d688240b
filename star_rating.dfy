/**
 * `ArticleValidator.convert_score_to_rating`: a 0-100 score becomes a rating
 * of one to five stars, a five-character star string and a fixed
 * explanation sentence.
 */
module StarRating {
  import opened Text

  const FullStar: char := '\U{2B50}'
  const EmptyStar: char := '\U{2606}'

  const Explanations: map<int, string> := map[
    1 := "The source is unreliable and likely misleading.",
    2 := "The source has some credibility but contains potential misinformation.",
    3 := "The source is moderately reliable but may have biases.",
    4 := "The source is generally trustworthy with good readability.",
    5 := "The source is highly credible, relevant, and well-structured."
  ]

  const NoExplanation: string := "No explanation available."

  /**
   * Python 3's `round(x)`: the nearest integer, ties going to the even
   * neighbour.
   */
  function RoundHalfEven(x: real): (n: int)
    ensures -0.5 <= x - n as real <= 0.5
    ensures (x - n as real == 0.5 || n as real - x == 0.5) ==> n % 2 == 0
  {
    var f := x.Floor;
    var d := x - f as real;
    if d < 0.5 then f
    else if d > 0.5 then f + 1
    else if f % 2 == 0 then f
    else f + 1
  }

  /** Rounding never reverses the order of two numbers. */
  lemma RoundMonotone(x: real, y: real)
    requires x <= y
    ensures RoundHalfEven(x) <= RoundHalfEven(y)
  {
  }

  /** `max(lo, min(x, hi))` */
  function Clamp(x: int, lo: int, hi: int): (r: int)
    requires lo <= hi
    ensures lo <= r <= hi
    ensures lo <= x <= hi ==> r == x
    ensures x < lo ==> r == lo
    ensures x > hi ==> r == hi
  {
    if x < lo then lo else if x > hi then hi else x
  }

  /** `"⭐" * rating + "☆" * (5 - rating)` */
  function Stars(rating: int): (s: string)
    requires 0 <= rating <= 5
    ensures |s| == 5
    ensures forall i :: 0 <= i < rating ==> s[i] == FullStar
    ensures forall i :: rating <= i < 5 ==> s[i] == EmptyStar
  {
    Repeat(FullStar, rating) + Repeat(EmptyStar, 5 - rating)
  }

  datatype Rating = Rating(rating: int, stars: string, explanation: string)

  /** `explanations.get(rating, "No explanation available.")` */
  function ExplanationFor(rating: int): (text: string)
    ensures 1 <= rating <= 5 ==> text == Explanations[rating] && text != NoExplanation
    ensures !(1 <= rating <= 5) ==> text == NoExplanation
  {
    if rating in Explanations then Explanations[rating] else NoExplanation
  }

  /** `convert_score_to_rating(final_score)` */
  function ConvertScoreToRating(finalScore: real): (r: Rating)
    ensures 1 <= r.rating <= 5
    ensures r.stars == Stars(r.rating)
    ensures r.explanation == Explanations[r.rating] && r.explanation != NoExplanation
    ensures r.rating == 1 <==> finalScore < 30.0
    ensures r.rating == 5 <==> finalScore > 90.0
    ensures 1 < r.rating < 5 ==>
      20.0 * r.rating as real - 10.0 <= finalScore <= 20.0 * r.rating as real + 10.0
  {
    var rating := Clamp(RoundHalfEven(finalScore / 100.0 * 5.0), 1, 5);
    Rating(rating, Stars(rating), ExplanationFor(rating))
  }

  /** A higher score never earns fewer stars. */
  lemma RatingMonotone(low: real, high: real)
    requires low <= high
    ensures ConvertScoreToRating(low).rating <= ConvertScoreToRating(high).rating
  {
    RoundMonotone(low / 100.0 * 5.0, high / 100.0 * 5.0);
  }

  /**
   * Ties between tiers go to the even tier: 50 gives two stars while 70 gives
   * four, and 30 already gives two.
   */
  lemma TiesRoundToEvenTier()
    ensures ConvertScoreToRating(30.0).rating == 2
    ensures ConvertScoreToRating(50.0).rating == 2
    ensures ConvertScoreToRating(70.0).rating == 4
    ensures ConvertScoreToRating(90.0).rating == 4
  {
  }
}
