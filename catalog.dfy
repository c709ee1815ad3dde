/** The catalog entities the dashboard works on, as received from the catalog service. */
module Catalog {

  datatype Option<+T> = None | Some(value: T)

  /** A price as it arrives in the JSON payload. Only whether it is a number matters
      to the dashboard (`typeof price === "number"`); no arithmetic is done on it. */
  datatype Price = Num(amount: real) | NotNum

  datatype Product = Product(id: int, title: string, price: Price)

  /** The response of the per-category endpoint; `total` is carried but never read. */
  datatype ProductResponse = ProductResponse(products: seq<Product>, total: int)
}
