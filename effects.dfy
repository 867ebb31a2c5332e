/** What the screens and the API layer do to the world outside the model: navigation, store
    dispatches, the create-order request and error toasts. They are recorded, in the order
    they happen, in the log of a `Runtime`. */
module Effects {
  import opened CartModel
  import opened BaseQuery

  datatype Effect =
    | Navigate(path: string)            // react-router `navigate(path)`
    | ClearCartItems                    // dispatch of the cart slice's `clearCartItems()`
    | SavePaymentMethod(choice: string) // dispatch of the cart slice's `savePaymentMethod(choice)`
    | LogoutUser                        // dispatch of the auth slice's `logoutUserAction()`
    | CreateOrder(request: OrderRequest) // the create-order mutation being sent
    | ToastError(error: QueryError)     // `toast.error(err)` with the rejected request's error

  /** The router, the store's dispatch and the toast container, seen only through what is
      sent to them. */
  class Runtime {
    var log: seq<Effect>

    constructor ()
      ensures log == []
    {
      log := [];
    }

    method Emit(e: Effect)
      modifies this
      ensures log == old(log) + [e]
    {
      log := log + [e];
    }
  }
}
