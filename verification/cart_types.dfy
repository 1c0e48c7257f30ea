/** The data shapes of the cart store: a line item, the cart state and the
    two action payloads that carry more than an id. */
module CartTypes {

  datatype Option<T> = None | Some(value: T)

  /** One distinct product in the cart. `price` is the unit price as the
      decimal string the catalogue supplies; it is only turned into a number
      when a subtotal is computed. */
  datatype CartItem = CartItem(
    id: string,
    name: string,
    price: string,
    image: string,
    brand: string,
    quantity: int)

  /** The aggregate root: the ordered line items and the running unit count. */
  datatype CartState = CartState(items: seq<CartItem>, totalItems: int)

  /** What the screens pass when a product is added: an item without a quantity. */
  datatype AddToCartPayload = AddToCartPayload(
    id: string,
    name: string,
    price: string,
    image: string,
    brand: string)

  datatype UpdateQuantityPayload = UpdateQuantityPayload(id: string, quantity: int)
}
