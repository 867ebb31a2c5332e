/** The cart slice of the client store as the checkout screens and the totals engine see it.
    The reducers that build it (add, remove, clear, save address, save payment method) are
    not part of this model; this module only fixes the shape of the state. */
module CartModel {
  import opened Wrappers

  /** One cart line: the product's id, display data, unit price and quantity. */
  datatype CartItem = CartItem(product: string, name: string, image: string, price: real, qty: int)

  /** The saved shipping address; a field that was never filled in is `None`. */
  datatype ShippingAddress = ShippingAddress(
    address: Option<string>, city: Option<string>, postalCode: Option<string>, country: Option<string>)

  /** The cart state object. It carries two sets of price fields: `itemsTotal`, `shippingCost`,
      `taxAmount`, `grandTotal` are the ones the totals engine writes; `itemsPrice`,
      `shippingPrice`, `taxPrice`, `totalPrice` are the ones the order review screen reads.
      `None` is a field that is absent (undefined). */
  datatype Cart = Cart(
    cartItems: seq<CartItem>,
    shippingAddress: ShippingAddress,
    paymentMethod: Option<string>,
    itemsTotal: Option<string>,
    shippingCost: Option<string>,
    taxAmount: Option<string>,
    grandTotal: Option<string>,
    itemsPrice: Option<string>,
    shippingPrice: Option<string>,
    taxPrice: Option<string>,
    totalPrice: Option<string>)

  /** The body of the create-order request. */
  datatype OrderRequest = OrderRequest(
    orderItems: seq<CartItem>,
    shippingAddress: ShippingAddress,
    paymentMethod: Option<string>,
    itemsPrice: Option<string>,
    shippingPrice: Option<string>,
    taxPrice: Option<string>,
    totalPrice: Option<string>)

  /** JavaScript truthiness of a string that may be undefined: present and not empty. */
  predicate Truthy(s: Option<string>) {
    s.Some? && s.value != ""
  }
}
