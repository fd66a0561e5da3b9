/** The price formula of `ProductService.calculatePrice` and the fallback of
    `ProductService.fetchGoldPrice`.  Prices are real numbers: the double
    rounding of each multiplication and of the division is not modelled. */
module Pricing {
  import opened Wrappers
  import opened Model

  /** Grams per troy ounce, the divisor that turns the quote into a price per
      gram. */
  const GramsPerTroyOunce: real := 31.1035

  /** The gold price used when the quote cannot be obtained. */
  const FallbackGoldPrice: real := 2000.0

  /** Java's `score + 1` on an `int`: two's-complement addition, so the
      largest `int` wraps to the smallest. */
  function Increment(x: int32): (r: int32)
    // r is x + 1 modulo 2^32 ...
    ensures (r as int - x as int - 1) % 0x1_0000_0000 == 0
    // ... and equals x + 1 whenever that fits
    ensures x as int < Int32Max ==> r as int == x as int + 1
  {
    if x as int == Int32Max then Int32Min as int32 else x + 1
  }

  /** The price the code assigns: `(popularityScore + 1) * weight *
      (goldPrice / 31.1035)`. */
  function Price(score: int32, weight: real, goldPrice: real): real
  {
    (Increment(score) as int as real) * weight * (goldPrice / GramsPerTroyOunce)
  }

  /** The gold price `fetchGoldPrice` returns, given the outcome of its HTTP
      exchange: `Some(p)` when a response body carrying the price field
      arrived, `None` when the body was null or the exchange threw. */
  function FetchGoldPrice(response: Option<real>): real
  {
    match response
    case Some(p) => p
    case None => FallbackGoldPrice
  }

  /** For every score that does not wrap, the price is (score + 1) grams'
      worth of gold per gram of weight: a price per gram of gold times the
      weight times one more than the score. */
  lemma PriceAsWritten(score: int32, weight: real, goldPrice: real)
    requires score as int < Int32Max
    ensures Price(score, weight, goldPrice)
         == (score as int + 1) as real * weight * goldPrice / GramsPerTroyOunce
  {
  }

  /** The price is proportional to the gold price: scaling the quote by k
      scales every price by k. */
  lemma PriceProportionalToGold(score: int32, weight: real, goldPrice: real, k: real)
    ensures Price(score, weight, k * goldPrice) == k * Price(score, weight, goldPrice)
  {
  }

  /** A catalogue product (score 0..100, positive weight) priced against a
      positive quote gets a positive price, and a higher score never a lower
      price. */
  lemma PriceMonotonicInScore(s: int32, t: int32, weight: real, goldPrice: real)
    requires 0 <= s <= t <= 100
    requires weight > 0.0 && goldPrice > 0.0
    ensures 0.0 < Price(s, weight, goldPrice) <= Price(t, weight, goldPrice)
  {
  }

  /** The scoring rule wraps at the top of the `int` range: the largest score
      is priced at minus 2^31 times the weight's worth of gold. */
  lemma PriceAtLargestScore(weight: real, goldPrice: real)
    ensures Price(Int32Max as int32, weight, goldPrice)
         == -0x8000_0000 as real * weight * (goldPrice / GramsPerTroyOunce)
  {
  }
}
