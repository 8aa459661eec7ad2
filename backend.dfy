/** The record shapes that the remote store service exchanges with the storefront. */
module Backend {
  import opened Wrappers

  /** Product and order identifiers are arbitrary-precision integers. */
  type ProductId = int
  type OrderId = int

  /** A catalogue product; `price` is an integer count of minor currency units. */
  datatype Product = Product(
    id: ProductId,
    name: string,
    description: string,
    sizes: seq<string>,
    imageUrl: string,
    category: string,
    colors: seq<string>,
    price: int)

  /** One line of an order submission; an absent size or color is `None`. */
  datatype OrderItem = OrderItem(
    productId: ProductId,
    quantity: int,
    size: Option<string>,
    color: Option<string>)
}
