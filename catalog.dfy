/** The values that travel between the storefront's screens. */
module Catalog {
  import opened Js

  /** A product record as the catalog endpoints return it. Prices are whole
      cents. `id` is the key the full catalog uses, `productId` the one the
      category endpoint returns as `product_id`. */
  datatype Product = Product(
    id: int,
    productId: int,
    name: string,
    price: int,
    category: string,
    description: Option<string>,
    healthBenefits: string,
    imageUrl: string,
    stock: int)

  /** The product an order hands to the payment screen: the catalog record
      itself, or the four fields the diabetes page copies out of it. */
  datatype OrderedProduct =
    | Listed(record: Product)
    | Summary(productId: int, name: string, price: int, imageUrl: string)
  {
    function Price(): int
    {
      match this
      case Listed(p) => p.price
      case Summary(_, _, price, _) => price
    }
  }

  /** The navigation state the payment screen reads: `{product}` or
      `{product, quantity}`. */
  datatype OrderIntent = OrderIntent(product: OrderedProduct, quantity: Option<int>)

  /** A call of `navigate(path, {state})`, recorded instead of performed. */
  datatype Route = Route(path: string, state: Option<OrderIntent>)

  const PaymentPath := "/MpesaPayment"
  const HomePath := "/"
}
