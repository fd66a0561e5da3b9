# Kutez product catalogue: pricing and filtering

This project is a Dafny model of `ProductService`, the service at the heart of the Kutez product catalogue (`src/main/java/akuslu/kutez/service/ProductService.java`). At start-up the service loads a fixed list of products. It prices each product from the product's weight and popularity score and a gold spot price. It then answers listing queries with four optional, inclusive bounds: two on price, and two on a star rating derived from the popularity score.

Modules:

- `Wrappers`: the `Option` type. Absent query parameters and missing gold-price responses are `None`.
- `Model`: the `Product` class. It has `id`, `name`, `weight`, `popularityScore` and `price`. The score is a Java `int`, modelled as the newtype `int32`. `akuslu.kutez.model.Product` is not part of this model. The service reads `weight`, `popularityScore` and `price`, and writes `price`. `id` and `name` are carried for completeness; the service does not touch them. Products reach the service as inputs, already built by deserialisation.
- `Rating`: `convertToStarRating`, computed exactly on integers as a count of tenths of a star. This matches the `BigDecimal` quotient at scale 1 with `ROUND_HALF_UP`.
- `Pricing`: the price formula of `calculatePrice`, including the two's-complement `int` increment. It also holds the fallback rule of `fetchGoldPrice` as a plain definition, used by `CalculatePrice` and `Init`.
- `Filtering`: the stream filter of `getFilteredProducts`. It is a recursive function over the product list.
- `Service`: the `ProductService` class. It holds the mutable `products` list. `Init` and `CalculatePrice` are methods that update state in place. `GetAllProducts` and `GetFilteredProducts` are functions of the state, so neither can change the list or any product.

The price formula in the code is `(popularityScore + 1) * weight * goldPrice / 31.1035` (ProductService.java:84-86). It adds 1 to the raw score, not to score/100, so a score of 100 multiplies the price by 101. The model follows the code.

The code reads the quote's per-gram 24k field and then divides it by 31.1035 as if it were a per-ounce price. The model keeps that arithmetic unchanged.

## Model

| member | source | states |
|---|---|---|
| Rating.RoundHalfUp | src/main/java/akuslu/kutez/service/ProductService.java:94 | `ROUND_HALF_UP` division. The result times the divisor is within half a unit of the dividend. On a tie the result lies away from zero, and the sign is kept. |
| Rating.StarRatingTenths | src/main/java/akuslu/kutez/service/ProductService.java:91-96 | The rating is `score*5/100` rounded half-up to one decimal, in tenths. It is the nearest whole tenth to score/2 tenths, and a halfway score rounds away from zero. |
| Rating.StarRatingUnique | src/main/java/akuslu/kutez/service/ProductService.java:92-94 | Any count of tenths that satisfies that nearest-tenth and ties-away-from-zero description equals the computed rating. |
| Rating.StarRatingClosedForm | src/main/java/akuslu/kutez/service/ProductService.java:92-94 | For a score ≥ 0 the rating is `(score+1)/2` tenths. For a negative score it is `-((1-score)/2)` tenths. |
| Rating.StarRatingRange | src/main/java/akuslu/kutez/service/ProductService.java:91-96 | Every score in 0..100 gets 0..50 tenths, which is 0.0 to 5.0 stars. |
| Rating.StarRatingMonotonic | src/main/java/akuslu/kutez/service/ProductService.java:91-96 | A higher score never gets a lower rating. |
| Rating.StarRatingExamples | src/main/java/akuslu/kutez/service/ProductService.java:92-95 | 87 gives 4.4, 1 gives 0.1, 100 gives 5.0, 50 gives 2.5, 0 gives 0.0 and -1 gives -0.1. |
| Pricing.Increment | src/main/java/akuslu/kutez/service/ProductService.java:86 | Java `int` `score + 1` is congruent to score+1 modulo 2^32. It equals score+1 when that does not overflow. |
| Pricing.PriceAsWritten | src/main/java/akuslu/kutez/service/ProductService.java:83-86 | For every score that does not wrap, the price is `(score+1) * weight * gold / 31.1035`. |
| Pricing.PriceProportionalToGold | src/main/java/akuslu/kutez/service/ProductService.java:84-86 | Multiplying the gold price by k multiplies the price by k. |
| Pricing.PriceMonotonicInScore | src/main/java/akuslu/kutez/service/ProductService.java:86 | For scores in 0..100, positive weight and positive gold price, the price is positive and does not decrease as the score grows. |
| Pricing.PriceAtLargestScore | src/main/java/akuslu/kutez/service/ProductService.java:86 | At the largest `int` score, `score + 1` wraps, and the price multiplier is -2^31. |
| Filtering.Matches | src/main/java/akuslu/kutez/service/ProductService.java:59-78 | The folded `matches` flag is true exactly when every bound that is given holds: min price ≤ price ≤ max price, and min popularity ≤ star rating ≤ max popularity. |
| Filtering.Filter | src/main/java/akuslu/kutez/service/ProductService.java:58-79 | The result is a subsequence of the list, so order is kept. Every element of the result is listed and meets every bound. Every listed product that meets them is in the result. |
| Filtering.FilterCounts | src/main/java/akuslu/kutez/service/ProductService.java:58-79 | A selected product occurs in the result as often as in the list. A product that is not selected does not occur. |
| Filtering.FilterCountsListed | src/main/java/akuslu/kutez/service/ProductService.java:58-79 | FilterCounts for every listed product: each one appears in the result as often as in the list if selected, and otherwise not at all. |
| Filtering.FilterNoBounds | src/main/java/akuslu/kutez/service/ProductService.java:58-79 | With all four bounds absent, the result is exactly the list, in the same order. |
| Filtering.Meet | src/main/java/akuslu/kutez/service/ProductService.java:60-77 | Combining two queries bound by bound (the tighter of each pair) gives exactly the products that meet both. |
| Filtering.FilterCompose | src/main/java/akuslu/kutez/service/ProductService.java:58-79 | Filtering by b1 and then by b2 equals filtering once by `Meet(b1, b2)`. |
| Filtering.FilterIntersection | src/main/java/akuslu/kutez/service/ProductService.java:62-75 | The filter with all its bounds equals the four single-bound filters applied one after another. |
| Filtering.FilterIdempotent | src/main/java/akuslu/kutez/service/ProductService.java:58-79 | Filtering a result again with the same bounds returns it unchanged. |
| Filtering.FilterEmptyRange | src/main/java/akuslu/kutez/service/ProductService.java:62-75 | If minPrice > maxPrice, or minPopularity > maxPopularity, the result is empty. |
| Service.ProductService.constructor | src/main/java/akuslu/kutez/service/ProductService.java:26-33 | The service starts with an empty product list. |
| Service.ProductService.Init | src/main/java/akuslu/kutez/service/ProductService.java:35-46 | On a successful load, the list becomes the loaded list. Product i is priced from its own score and weight, using the gold price that the i-th fetch yields; a failed fetch prices it at the 2000.0 fallback. Only `products` and the loaded products' `price` fields may change. A failed load leaves the list as it was. |
| Service.ProductService.GetFilteredProducts | src/main/java/akuslu/kutez/service/ProductService.java:56-80 | The listing is a subsequence of the catalogue. It holds exactly the catalogue products that meet every given bound. A selected product appears as often as it is catalogued, so duplicates are kept. Being a function, it changes neither the list nor any product. |
| Service.AllProductsUnfiltered | src/main/java/akuslu/kutez/service/ProductService.java:52-58 | With no query parameters, the listing equals `getAllProducts`: the whole catalogue in load order. |
| Service.ProductService.CalculatePrice | src/main/java/akuslu/kutez/service/ProductService.java:82-89 | Sets the price to `(score+1) * weight * gold/31.1035`, where gold is the quote the exchange carried, or exactly 2000.0 when the exchange failed or had no body (lines 113-120). Returns the same object. Id, name, weight and score stay unchanged. |

## Left out

- The HTTP exchange of `fetchGoldPrice`: the API key header, the URL and the logging. Each call's outcome is an input (`Option<real>`). Only the fallback decision is modelled.
- Service.ProductService.GetAllProducts: returns a snapshot of the list. Java hands out the mutable internal list itself (ProductService.java:52-54), so a caller's additions or removals through it, and their effect on later listings, are not modelled.
- Reading `products.json` with Jackson in `init`. The loaded list, or the failure (`None`), is an input.
- Service.ProductService.Init: the `RuntimeException` thrown on a failed load is modelled as `ok == false` with the list unchanged, not as an exception that aborts start-up.
- Service.ProductService.Init: asks for a pairwise-distinct loaded list. Deserialisation builds a fresh object per record, so a product that occurs twice (later fetch wins) is not considered.
- IEEE-754 `double` behaviour. Prices, weights, bounds and the gold price are reals, so the model leaves out rounding in the multiplications and the division by 31.1035, NaN bounds, and the error of `BigDecimal.doubleValue()`.
- `ProductController`: Spring routing, `@RequestParam` binding and CORS. It only forwards the four optional parameters to `getFilteredProducts`.
