/** `akuslu.kutez.service.ProductService`: the in-memory catalogue, its
    load-time pricing and its filtered listing.  The gold-price lookup is an
    input: each call of CalculatePrice is given the outcome of the HTTP
    exchange it would have made. */
module Service {
  import opened Wrappers
  import opened Model
  import opened Pricing
  import opened Filtering

  /** The objects a successful load yields. */
  function Loaded(loaded: Option<seq<Product>>): set<Product>
  {
    if loaded.Some? then set p | p in loaded.value else {}
  }

  class ProductService {
    var products: seq<Product>

    constructor ()
      ensures products == []
    {
      products := [];
    }

    /** `init`: replace the list by the loaded one and price every product,
        one gold-price fetch per product.  `loaded` is `None` when reading
        the resource failed; the code then throws before touching the list,
        which the model reports as `ok == false`. */
    method Init(loaded: Option<seq<Product>>, responses: seq<Option<real>>) returns (ok: bool)
      requires loaded.Some? ==> Distinct(loaded.value) && |responses| == |loaded.value|
      modifies this`products, Loaded(loaded)`price
      ensures ok <==> loaded.Some?
      ensures !ok ==> products == old(products)
      ensures ok ==> products == loaded.value
      ensures ok ==> forall i :: 0 <= i < |products| ==>
                products[i].price == Price(products[i].popularityScore, products[i].weight,
                                           FetchGoldPrice(responses[i]))
      // a product whose fetch failed is priced at the fallback quote
      ensures ok ==> forall i :: 0 <= i < |products| && responses[i].None? ==>
                products[i].price == Price(products[i].popularityScore, products[i].weight, FallbackGoldPrice)
    {
      if loaded.None? {
        return false;
      }
      products := loaded.value;
      var i := 0;
      while i < |products|
        invariant 0 <= i <= |products|
        invariant products == loaded.value
        invariant forall k :: 0 <= k < i ==>
                    products[k].price == Price(products[k].popularityScore, products[k].weight,
                                               FetchGoldPrice(responses[k]))
      {
        var _ := CalculatePrice(products[i], responses[i]);
        i := i + 1;
      }
      return true;
    }

    /** `getAllProducts`: the catalogue as loaded. */
    function GetAllProducts(): seq<Product>
      reads this
    {
      products
    }

    /** `getFilteredProducts`: the products meeting every bound given, in
        catalogue order.  A function of the state: it changes neither the
        list nor any product. */
    function GetFilteredProducts(minPrice: Option<real>, maxPrice: Option<real>,
                                 minPopularity: Option<real>, maxPopularity: Option<real>): (r: seq<Product>)
      reads this, set p | p in products
      ensures IsSubsequence(r, products)
      ensures forall i :: 0 <= i < |r| ==>
                r[i] in products && Selected(r[i], Bounds(minPrice, maxPrice, minPopularity, maxPopularity))
      ensures forall i :: 0 <= i < |products| && Selected(products[i], Bounds(minPrice, maxPrice, minPopularity, maxPopularity))
                ==> products[i] in r
      // a selected product is listed as often as it is catalogued, any other not at all
      ensures forall i :: 0 <= i < |products| ==>
                multiset(r)[products[i]]
                == if Selected(products[i], Bounds(minPrice, maxPrice, minPopularity, maxPopularity))
                   then multiset(products)[products[i]] else 0
    {
      FilterCountsListed(products, Bounds(minPrice, maxPrice, minPopularity, maxPopularity));
      Filter(products, Bounds(minPrice, maxPrice, minPopularity, maxPopularity))
    }

    /** `calculatePrice`: overwrite the product's price from its score, its
        weight and the gold price fetched for it, and hand the same object
        back.  Nothing but `price` may change. */
    method CalculatePrice(product: Product, response: Option<real>) returns (r: Product)
      modifies product`price
      ensures r == product
      ensures product.price == Price(product.popularityScore, product.weight, FetchGoldPrice(response))
      // a failed or empty gold-price exchange prices the product at the fallback quote
      ensures response.None? ==> product.price == Price(product.popularityScore, product.weight, FallbackGoldPrice)
      ensures response.Some? ==> product.price == Price(product.popularityScore, product.weight, response.value)
      ensures product.id == old(product.id) && product.name == old(product.name)
      ensures product.weight == old(product.weight) && product.popularityScore == old(product.popularityScore)
    {
      var goldPrice := FetchGoldPrice(response);
      var goldPricePerGram := goldPrice / GramsPerTroyOunce;
      product.price := (Increment(product.popularityScore) as int as real) * product.weight * goldPricePerGram;
      return product;
    }
  }

  /** With every query parameter absent the listing is the whole catalogue,
      in load order. */
  lemma AllProductsUnfiltered(s: ProductService)
    ensures s.GetFilteredProducts(None, None, None, None) == s.GetAllProducts()
  {
    FilterNoBounds(s.products);
  }
}
