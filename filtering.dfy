/** The listing filter of `ProductService.getFilteredProducts`: a sequential
    stream filter over the product list whose predicate folds a `matches`
    flag through the four optional, inclusive bounds. */
module Filtering {
  import opened Wrappers
  import opened Model
  import opened Rating

  /** The four optional query parameters.  The price bounds apply to the
      stored price, the popularity bounds to the star rating. */
  datatype Bounds = Bounds(minPrice: Option<real>, maxPrice: Option<real>,
                           minPopularity: Option<real>, maxPopularity: Option<real>)

  const NoBounds: Bounds := Bounds(None, None, None, None)

  /** Reference definition: a product with this price and score meets every
      bound that is present. */
  predicate MeetsAll(price: real, score: int32, b: Bounds)
  {
    && (b.minPrice.Some? ==> b.minPrice.value <= price)
    && (b.maxPrice.Some? ==> price <= b.maxPrice.value)
    && (b.minPopularity.Some? ==> b.minPopularity.value <= StarRating(score as int))
    && (b.maxPopularity.Some? ==> StarRating(score as int) <= b.maxPopularity.value)
  }

  /** The filter's lambda: `matches` starts true and each present bound
      conjoins its comparison. */
  function Matches(price: real, score: int32, b: Bounds): (m: bool)
    ensures m <==> MeetsAll(price, score, b)
  {
    var m0 := true;
    var m1 := if b.minPrice.Some? then m0 && price >= b.minPrice.value else m0;
    var m2 := if b.maxPrice.Some? then m1 && price <= b.maxPrice.value else m1;
    var m3 := if b.minPopularity.Some? then m2 && StarRating(score as int) >= b.minPopularity.value else m2;
    var m4 := if b.maxPopularity.Some? then m3 && StarRating(score as int) <= b.maxPopularity.value else m3;
    m4
  }

  /** `a` is `b` with some elements dropped, the rest in order. */
  predicate IsSubsequence<T(==)>(a: seq<T>, b: seq<T>)
  {
    || a == []
    || (b != [] && ((a[0] == b[0] && IsSubsequence(a[1..], b[1..])) || IsSubsequence(a, b[1..])))
  }

  /** Selected(p, b): p's current price and score meet the bounds. */
  predicate Selected(p: Product, b: Bounds)
    reads p
  {
    MeetsAll(p.price, p.popularityScore, b)
  }

  /** `products.stream().filter(...).collect(toList())`. */
  function Filter(ps: seq<Product>, b: Bounds): (r: seq<Product>)
    reads set p | p in ps
    // order is kept: the result is a subsequence of the list
    ensures IsSubsequence(r, ps)
    // sound and complete: exactly the listed products meeting every bound
    ensures forall i :: 0 <= i < |r| ==> r[i] in ps && Selected(r[i], b)
    ensures forall i :: 0 <= i < |ps| && Selected(ps[i], b) ==> ps[i] in r
    decreases |ps|
  {
    if ps == [] then []
    else
      var head := if Matches(ps[0].price, ps[0].popularityScore, b) then [ps[0]] else [];
      var tail := Filter(ps[1..], b);
      assert ps == [ps[0]] + ps[1..];
      assert head != [] ==> (head + tail)[0] == ps[0] && (head + tail)[1..] == tail;
      assert head == [] ==> head + tail == tail;
      head + tail
  }

  /** With no bound given the filter returns the list itself, in order. */
  lemma {:induction false} FilterNoBounds(ps: seq<Product>)
    ensures Filter(ps, NoBounds) == ps
    decreases |ps|
  {
    if ps != [] {
      FilterNoBounds(ps[1..]);
      assert ps == [ps[0]] + ps[1..];
    }
  }

  /** Duplicates are kept: each product occurs in the result as often as in
      the list when it meets the bounds, and not at all otherwise.  With
      IsSubsequence this determines the result. */
  lemma {:induction false} FilterCounts(ps: seq<Product>, b: Bounds, p: Product)
    ensures multiset(Filter(ps, b))[p] == if Selected(p, b) then multiset(ps)[p] else 0
    decreases |ps|
  {
    if ps != [] {
      FilterCounts(ps[1..], b, p);
      assert ps == [ps[0]] + ps[1..];
      var head := if Matches(ps[0].price, ps[0].popularityScore, b) then [ps[0]] else [];
      assert Filter(ps, b) == head + Filter(ps[1..], b);
      assert multiset(Filter(ps, b)) == multiset(head) + multiset(Filter(ps[1..], b));
      assert multiset(ps) == multiset([ps[0]]) + multiset(ps[1..]);
    }
  }

  /** FilterCounts for every listed product at once. */
  lemma FilterCountsListed(ps: seq<Product>, b: Bounds)
    ensures forall i :: 0 <= i < |ps| ==>
              multiset(Filter(ps, b))[ps[i]] == if Selected(ps[i], b) then multiset(ps)[ps[i]] else 0
  {
    forall i | 0 <= i < |ps|
      ensures multiset(Filter(ps, b))[ps[i]] == if Selected(ps[i], b) then multiset(ps)[ps[i]] else 0
    {
      FilterCounts(ps, b, ps[i]);
    }
  }

  /** The tighter of two optional lower bounds. */
  function Higher(x: Option<real>, y: Option<real>): Option<real>
  {
    if x.None? then y else if y.None? then x
    else if x.value >= y.value then x else y
  }

  /** The tighter of two optional upper bounds. */
  function Lower(x: Option<real>, y: Option<real>): Option<real>
  {
    if x.None? then y else if y.None? then x
    else if x.value <= y.value then x else y
  }

  /** The query that asks for both b1 and b2, bound by bound. */
  function Meet(b1: Bounds, b2: Bounds): (b: Bounds)
    ensures forall price, score :: MeetsAll(price, score, b) <==> MeetsAll(price, score, b1) && MeetsAll(price, score, b2)
  {
    Bounds(Higher(b1.minPrice, b2.minPrice), Lower(b1.maxPrice, b2.maxPrice),
           Higher(b1.minPopularity, b2.minPopularity), Lower(b1.maxPopularity, b2.maxPopularity))
  }

  /** Filtering by b1 and then by b2 is filtering once by both. */
  lemma {:induction false} FilterCompose(ps: seq<Product>, b1: Bounds, b2: Bounds)
    ensures Filter(Filter(ps, b1), b2) == Filter(ps, Meet(b1, b2))
    decreases |ps|
  {
    if ps != [] {
      FilterCompose(ps[1..], b1, b2);
      var rest := Filter(ps[1..], b1);
      if Selected(ps[0], b1) {
        var f1 := [ps[0]] + rest;
        assert Filter(ps, b1) == f1;
        assert f1[0] == ps[0] && f1[1..] == rest;
        assert Filter(f1, b2) == (if Selected(ps[0], b2) then [ps[0]] else []) + Filter(rest, b2);
      } else {
        assert Filter(ps, b1) == rest;
      }
    }
  }

  /** Several bounds give the intersection of the single-bound results: the
      filter equals the four one-bound filters applied in turn. */
  lemma FilterIntersection(ps: seq<Product>, b: Bounds)
    ensures Filter(ps, b)
         == Filter(Filter(Filter(Filter(ps,
              Bounds(b.minPrice, None, None, None)),
              Bounds(None, b.maxPrice, None, None)),
              Bounds(None, None, b.minPopularity, None)),
              Bounds(None, None, None, b.maxPopularity))
  {
    var b1 := Bounds(b.minPrice, None, None, None);
    var b2 := Bounds(None, b.maxPrice, None, None);
    var b3 := Bounds(None, None, b.minPopularity, None);
    var b4 := Bounds(None, None, None, b.maxPopularity);
    FilterCompose(ps, b1, b2);
    FilterCompose(ps, Meet(b1, b2), b3);
    FilterCompose(ps, Meet(Meet(b1, b2), b3), b4);
    assert Meet(Meet(Meet(b1, b2), b3), b4) == b;
  }

  /** Re-filtering a result with the same bounds leaves it unchanged. */
  lemma FilterIdempotent(ps: seq<Product>, b: Bounds)
    ensures Filter(Filter(ps, b), b) == Filter(ps, b)
  {
    FilterCompose(ps, b, b);
    assert Meet(b, b) == b;
  }

  /** A price range whose minimum exceeds its maximum selects nothing, and
      so does such a star-rating range. */
  lemma FilterEmptyRange(ps: seq<Product>, b: Bounds)
    requires || (b.minPrice.Some? && b.maxPrice.Some? && b.minPrice.value > b.maxPrice.value)
             || (b.minPopularity.Some? && b.maxPopularity.Some? && b.minPopularity.value > b.maxPopularity.value)
    ensures Filter(ps, b) == []
  {
    var r := Filter(ps, b);
    if r != [] {
      assert false;
    }
  }
}
