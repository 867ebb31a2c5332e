/** The order review screen: the checkout gate that sends the shopper back for a missing
    address or payment method, the create-order request built from the cart, what happens
    after the request succeeds or fails, the disabled place-order button, and the line
    totals it displays. */
module OrderReviewScreen {
  import opened Wrappers
  import opened JsNumber
  import opened Decimal
  import opened CartModel
  import opened CartsUtility
  import opened Effects
  import opened BaseQuery
  import opened UserApiSlice

  /** Where the gate effect sends the shopper: to the shipping step when the address is
      missing or empty, else to the payment step when no payment method is chosen, else
      nowhere. */
  function RedirectTarget(cart: Cart): (target: Option<string>)
    ensures target == Some("/shipping") <==> !Truthy(cart.shippingAddress.address)
    ensures target == Some("/paymentSection") <==> Truthy(cart.shippingAddress.address) && !Truthy(cart.paymentMethod)
    ensures target.None? <==> Truthy(cart.shippingAddress.address) && Truthy(cart.paymentMethod)
  {
    if !Truthy(cart.shippingAddress.address) then Some("/shipping")
    else if !Truthy(cart.paymentMethod) then Some("/paymentSection")
    else None
  }

  /** A missing address wins over a missing payment method. */
  lemma AddressCheckedFirst(cart: Cart)
    requires !Truthy(cart.shippingAddress.address) && !Truthy(cart.paymentMethod)
    ensures RedirectTarget(cart) == Some("/shipping")
  {
  }

  /** The gate effect: one navigation when a step is missing, nothing otherwise. */
  method CheckoutGate(rt: Runtime, cart: Cart)
    modifies rt
    ensures RedirectTarget(cart).Some? ==> rt.log == old(rt.log) + [Navigate(RedirectTarget(cart).value)]
    ensures RedirectTarget(cart).None? ==> rt.log == old(rt.log)
  {
    if !Truthy(cart.shippingAddress.address) {
      rt.Emit(Navigate("/shipping"));
    } else if !Truthy(cart.paymentMethod) {
      rt.Emit(Navigate("/paymentSection"));
    }
  }

  /** The body of the create-order request: the cart's items, address, payment method and
      the four price fields the screen reads. */
  function OrderPayload(cart: Cart): (request: OrderRequest)
    ensures request.orderItems == cart.cartItems && request.shippingAddress == cart.shippingAddress
    ensures request.paymentMethod == cart.paymentMethod
    ensures request.itemsPrice == cart.itemsPrice && request.shippingPrice == cart.shippingPrice
    ensures request.taxPrice == cart.taxPrice && request.totalPrice == cart.totalPrice
  {
    OrderRequest(cart.cartItems, cart.shippingAddress, cart.paymentMethod,
                 cart.itemsPrice, cart.shippingPrice, cart.taxPrice, cart.totalPrice)
  }

  /** The request carries none of the fields the totals engine writes: recomputing the
      totals leaves it as it was. */
  lemma PayloadIgnoresComputedTotals(cart: Cart)
    ensures OrderPayload(UpdatedCart(cart)) == OrderPayload(cart)
  {
    UpdatedCartFrame(cart);
  }

  /** Two carts give the same request exactly when they agree on the seven fields it copies. */
  lemma PayloadDeterminedByReadFields(a: Cart, b: Cart)
    ensures OrderPayload(a) == OrderPayload(b) <==>
      a.cartItems == b.cartItems && a.shippingAddress == b.shippingAddress && a.paymentMethod == b.paymentMethod
      && a.itemsPrice == b.itemsPrice && a.shippingPrice == b.shippingPrice
      && a.taxPrice == b.taxPrice && a.totalPrice == b.totalPrice
  {
  }

  /** What placing the order does, in order: the request goes out through the user API's
      base query, which logs the user out on a 401; on success the cart is cleared and the
      new order's page opened, on any failure an error toast shows the error. The base
      query's result (the new order's id, or the error) is a parameter. */
  function PlaceOrderEffects(cart: Cart, response: QueryResult): (effects: seq<Effect>)
    ensures 2 <= |effects| <= 3 && effects[0] == CreateOrder(OrderPayload(cart))
  {
    [CreateOrder(OrderPayload(cart))] + AuthEffects(response) +
      match response
      case Data(id) => [ClearCartItems, Navigate("/orderDetails/" + id)]
      case Error(error) => [ToastError(error)]
  }

  /** The cart is cleared exactly when the request succeeds, and then the clear comes
      immediately before the navigation to the new order. */
  lemma ClearOnlyOnSuccess(cart: Cart, response: QueryResult)
    ensures ClearCartItems in PlaceOrderEffects(cart, response) <==> response.Data?
    ensures response.Data? ==>
      PlaceOrderEffects(cart, response)[1..] == [ClearCartItems, Navigate("/orderDetails/" + response.value)]
  {
  }

  /** A failed request, whatever its status, neither clears the cart nor navigates, and ends
      with the error toast. */
  lemma FailureNeverNavigates(cart: Cart, error: QueryError)
    ensures forall e :: e in PlaceOrderEffects(cart, Error(error)) ==> !e.Navigate? && !e.ClearCartItems?
    ensures PlaceOrderEffects(cart, Error(error))[|PlaceOrderEffects(cart, Error(error))| - 1] == ToastError(error)
  {
  }

  /** A failure other than 401: its only consequence after the request is one error toast. */
  lemma FailureOnlyToasts(cart: Cart, error: QueryError)
    requires error.status != HttpStatus(401)
    ensures PlaceOrderEffects(cart, Error(error))[1..] == [ToastError(error)]
  {
  }

  /** A 401 failure: the base query logs the user out before the screen shows the toast. */
  lemma UnauthorizedOrderLogsOut(cart: Cart, error: QueryError)
    requires error.status == HttpStatus(401)
    ensures PlaceOrderEffects(cart, Error(error)) == [CreateOrder(OrderPayload(cart)), LogoutUser, ToastError(error)]
  {
  }

  /** The place-order button is disabled when the cart has no items. */
  predicate PlaceOrderDisabled(cart: Cart) {
    |cart.cartItems| == 0
  }

  /** `handlePlaceOrder`, the click handler of the place-order button, so only reachable
      while the button is enabled: sends the request through the base query (which logs
      out on a 401), then clears the cart and navigates, or shows the error. The request it
      sends always carries at least one item. */
  method HandlePlaceOrder(rt: Runtime, cart: Cart, baseResponse: QueryResult)
    requires !PlaceOrderDisabled(cart)
    modifies rt
    ensures rt.log == old(rt.log) + PlaceOrderEffects(cart, baseResponse)
    ensures rt.log[|old(rt.log)|].CreateOrder? && |rt.log[|old(rt.log)|].request.orderItems| > 0
  {
    rt.Emit(CreateOrder(OrderPayload(cart)));
    var response := HandleAuthQuery(rt, baseResponse);
    match response {
      case Data(id) =>
        rt.Emit(ClearCartItems);
        rt.Emit(Navigate("/orderDetails/" + id));
      case Error(error) =>
        rt.Emit(ToastError(error));
    }
  }

  /** The line total shown beside each item: quantity times price, `toFixed(2)`. */
  function LineTotalText(item: CartItem): (s: string)
    ensures |s| >= 4 && s[|s| - 3] == '.' && IsDigit(s[|s| - 2]) && IsDigit(s[|s| - 1])
  {
    ToFixed2(item.qty as real * item.price)
  }

  /** For a line worth nothing or more, the displayed total is the amount the totals engine
      would write for it. */
  lemma LineTotalMatchesFormatPrice(item: CartItem)
    requires item.qty as real * item.price >= 0.0
    ensures LineTotalText(item) == FormatPrice(LineAmount(item))
  {
  }

  /** For a negative line they part: `toFixed` rounds the tie -0.005 away from zero, while
      the totals engine's `Math.round` takes it up to zero. */
  lemma LineTotalNegativeTie()
    ensures LineTotalText(CartItem("p", "P", "p.jpg", 0.005, -1)) == "-0.01"
    ensures FormatPrice(LineAmount(CartItem("p", "P", "p.jpg", 0.005, -1))) == "0.00"
  {
  }
}
