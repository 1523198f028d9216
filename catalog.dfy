/** The product records the purchase screens receive from the API. */
module Catalog {
  import opened Wrappers

  /**
   * A product: `_id`, `name`, `purchasePrice` and the `_id` of its
   * `supplier`, which is `undefined` when the record has no supplier.
   */
  datatype Product = Product(id: string, name: string, purchasePrice: int, supplier: Option<string>)

  /** The predicate `p => p._id === id`. */
  function HasId(id: string): Product -> bool {
    (p: Product) => p.id == id
  }
}
