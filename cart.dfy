/**
 * The interface of the cart store (src/context/CartContext.jsx), which is not part of this model.
 * Pages read its line items and its total, and ask it to change through the calls below;
 * how it merges, clamps or totals is not modelled.
 */
module Cart {
  import opened Wrappers

  /** A product as the product service returns it. A missing stock count is `None`. */
  datatype Product = Product(
    id: string,
    name: string,
    price: real,
    image: string,
    category: string,
    countInStock: Option<int>)

  /** One line of the cart, as the cart store exposes it. */
  datatype CartItem = CartItem(
    id: string,
    name: string,
    price: real,
    image: string,
    category: string,
    quantity: int,
    countInStock: Option<int>)

  /** A request a page makes of the cart store. */
  datatype CartCall =
    | AddToCart(product: Product, quantity: int)
    | UpdateQuantity(productId: string, quantity: int)
    | RemoveFromCart(productId: string)
    | ClearCart
}
