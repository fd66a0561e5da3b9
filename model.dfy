/** The catalog entity `akuslu.kutez.model.Product`.  Its Java source is not
    part of this model.  The service reads `weight`, `popularityScore` and
    `price` and writes `price`; `id` and `name` are carried for completeness
    and the service does not touch them. */
module Model {

  /** Java's `int`: the type of the popularity score. */
  newtype int32 = x: int | -0x8000_0000 <= x < 0x8000_0000

  const Int32Min: int := -0x8000_0000
  const Int32Max: int := 0x7fff_ffff

  /** A product record.  The service overwrites `price` in place, so the
      product is an object rather than a value.  Products are created by
      deserialisation, outside this model, and reach the service as inputs. */
  class Product {
    var id: int
    var name: string
    var weight: real
    var popularityScore: int32
    var price: real
  }

  /** No product object occurs twice in the list. */
  predicate Distinct(ps: seq<Product>)
  {
    forall j, k :: 0 <= j < k < |ps| ==> ps[j] != ps[k]
  }
}
