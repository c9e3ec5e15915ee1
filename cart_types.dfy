/** The cart shapes returned by the cart endpoints. The total is computed by
    the server and displayed as received. */
module CartTypes {
  import opened Common

  datatype CartItem = CartItem(
    id: string,
    cartId: string,
    productVariantId: string,
    quantity: int,
    productName: string,
    productVariantColor: string,
    productVariantSize: string,
    productVariantPrice: int,
    productVariantImageUrl: string)

  datatype Cart = Cart(id: string, userId: string, items: seq<CartItem>, totalCartPrice: int)

  /** The body of an update-quantity request. */
  datatype UpdateCartItemRequest = UpdateCartItemRequest(cartItemId: string, quantity: int)

  /** `!cart || cart.items.length === 0`: there is nothing to check out. */
  predicate CartIsEmpty(cart: Option<Cart>)
  {
    cart.None? || |cart.value.items| == 0
  }
}
