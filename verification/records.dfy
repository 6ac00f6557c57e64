/** Values shared by the purchase-order and purchase-request screens. */
module Records {

  datatype Option<+T> = None | Some(value: T)

  datatype Result<+T, +E> = Success(value: T) | Failure(error: E)

  /** A numeric form field. `None` is a missing or empty value (falsy in the
      front-end, so `x || 0` reads it as 0); `Some(v)` is a value whose numeric
      reading is `v`. */
  type Num = Option<real>

  /** The `x || 0` fallback of the front-end: a missing value reads as 0. */
  function OrZero(n: Num): real
  {
    match n
    case None => 0.0
    case Some(v) => v
  }

  /** An entry of the `/items` catalog. A missing `unidade` is the empty string. */
  datatype CatalogItem = CatalogItem(discriminacao: string, unidade: string, precoUnitario: Num)

  /** A populated construction-site ("obra") document. */
  datatype ObraDoc = ObraDoc(id: string, name: string)
}
