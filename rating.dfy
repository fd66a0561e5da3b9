/** The popularity "star rating" of `ProductService.convertToStarRating`:
    `score * 5 / 100` as a `BigDecimal` quotient of scale 1 rounded with
    `ROUND_HALF_UP`.  A rating at scale 1 is an integer count of tenths of a
    star, so the model computes it exactly on integers. */
module Rating {

  function Abs(x: int): nat
  {
    if x < 0 then -x else x
  }

  /** The integer nearest to n / d, a tie going away from zero: the
      `ROUND_HALF_UP` rule of `java.math.BigDecimal`. */
  function RoundHalfUp(n: int, d: int): (r: int)
    requires d > 0
    // r*d is within half a unit of n ...
    ensures 2 * Abs(n - r * d) <= d
    // ... and on a tie r lies on the far side of n from zero
    ensures 2 * Abs(n - r * d) == d ==> Abs(r * d) > Abs(n)
    // the sign of n is kept
    ensures n >= 0 ==> r >= 0
    ensures n <= 0 ==> r <= 0
  {
    if n >= 0 then UpHalf(n, d) as int else -(UpHalf(-n, d) as int)
  }

  /** Rounding of a non-negative quotient, a tie rounding up. */
  function UpHalf(n: nat, d: int): (r: nat)
    requires d > 0
    ensures -d <= 2 * (n - r * d) < d
  {
    var q := (2 * n + d) / (2 * d);
    var rem := (2 * n + d) % (2 * d);
    assert 2 * n + d == q * (2 * d) + rem && 0 <= rem < 2 * d;
    assert q * (2 * d) == 2 * (q * d);
    q
  }

  /** `BigDecimal.valueOf(score).multiply(5).divide(100, 1, ROUND_HALF_UP)`,
      as its unscaled value: the exact quotient `score * 5 / 100` is
      `score * 5 * 10 / 100` tenths, rounded half-up to a whole tenth. */
  function StarRatingTenths(score: int): (r: int)
    // nearest whole tenth of score / 2 tenths
    ensures -1 <= score - 2 * r <= 1
    // a score halfway between two tenths rounds away from zero
    ensures score - 2 * r == 1 ==> score < 0
    ensures score - 2 * r == -1 ==> score > 0
  {
    RoundHalfUp(score * 5 * 10, 100)
  }

  /** The contract of StarRatingTenths determines it: a count of tenths
      nearest to score / 2 that, on a tie, lies away from zero is the rating. */
  lemma StarRatingUnique(score: int, t: int)
    requires -1 <= score - 2 * t <= 1
    requires score - 2 * t == 1 ==> score < 0
    requires score - 2 * t == -1 ==> score > 0
    ensures t == StarRatingTenths(score)
  {
  }

  /** `rating.doubleValue()`: the rating in stars. */
  function StarRating(score: int): real
  {
    StarRatingTenths(score) as real / 10.0
  }

  /** The rating in closed form: for a non-negative score (score + 1) / 2
      tenths, and the mirror image for a negative one. */
  lemma StarRatingClosedForm(score: int)
    ensures score >= 0 ==> StarRatingTenths(score) == (score + 1) / 2
    ensures score < 0 ==> StarRatingTenths(score) == -((1 - score) / 2)
  {
  }

  /** Every catalogue score 0..100 gets 0 to 50 tenths, that is 0.0 to 5.0
      stars. */
  lemma StarRatingRange(score: int)
    requires 0 <= score <= 100
    ensures 0 <= StarRatingTenths(score) <= 50
    ensures 0.0 <= StarRating(score) <= 5.0
  {
  }

  /** A higher score never gets a lower rating. */
  lemma StarRatingMonotonic(s: int, t: int)
    requires s <= t
    ensures StarRatingTenths(s) <= StarRatingTenths(t)
    ensures StarRating(s) <= StarRating(t)
  {
  }

  /** Worked values: 87 gives 4.35 stars, which rounds to 4.4; 1 gives 0.05,
      which rounds to 0.1; 100 gives 5.0; -1 gives -0.05, which rounds to
      -0.1. */
  lemma StarRatingExamples()
    ensures StarRatingTenths(87) == 44 && StarRating(87) == 4.4
    ensures StarRatingTenths(1) == 1 && StarRating(1) == 0.1
    ensures StarRatingTenths(100) == 50 && StarRating(100) == 5.0
    ensures StarRatingTenths(0) == 0 && StarRatingTenths(50) == 25
    ensures StarRatingTenths(-1) == -1
  {
  }
}
