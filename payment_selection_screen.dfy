/** The payment step of checkout: sends the shopper back to the shipping step without an
    address, offers a single payment option, and on submit saves the chosen method before
    moving on to the review step. */
module PaymentSelectionScreen {
  import opened Wrappers
  import opened CartModel
  import opened Effects
  import OrderReviewScreen

  /** The address gate: back to the shipping step when the address is missing or empty. */
  function PaymentRedirect(address: ShippingAddress): (target: Option<string>)
    ensures target.Some? <==> !Truthy(address.address)
    ensures target.Some? ==> target.value == "/shipping"
  {
    if !Truthy(address.address) then Some("/shipping") else None
  }

  /** Both checkout gates send a cart without an address to the same place. */
  lemma GatesAgreeOnAddress(cart: Cart)
    requires PaymentRedirect(cart.shippingAddress).Some?
    ensures OrderReviewScreen.RedirectTarget(cart) == PaymentRedirect(cart.shippingAddress)
  {
  }

  /** The value of the one radio option the form offers. */
  const OfferedMethod: string := "PayPal"

  /** The screen's local state: the selected payment method. */
  class PaymentSelectionScreen {
    var selectedPaymentMethod: string

    /** Every value the selection can take: the initial one and the one option's value
        coincide, so it is always "PayPal". */
    predicate Valid()
      reads this
    {
      selectedPaymentMethod == OfferedMethod
    }

    /** The selection starts as 'PayPal'. */
    constructor ()
      ensures Valid()
    {
      selectedPaymentMethod := "PayPal";
    }

    /** The gate effect: one navigation when the address is missing. */
    method AddressGate(rt: Runtime, address: ShippingAddress)
      modifies rt
      ensures PaymentRedirect(address).Some? ==> rt.log == old(rt.log) + [Navigate("/shipping")]
      ensures PaymentRedirect(address).None? ==> rt.log == old(rt.log)
    {
      if !Truthy(address.address) {
        rt.Emit(Navigate("/shipping"));
      }
    }

    /** Choosing the radio option stores the option's value, the only one on offer. */
    method OnChange()
      modifies this
      ensures Valid()
    {
      selectedPaymentMethod := OfferedMethod;
    }

    /** `handlePaymentSelectionSubmit`: saves the selected method, then moves on to the
        review step. */
    method HandleSubmit(rt: Runtime)
      requires Valid()
      modifies rt
      ensures Valid()
      ensures rt.log == old(rt.log) + [SavePaymentMethod(selectedPaymentMethod), Navigate("/placeorderscreen")]
      ensures rt.log[|old(rt.log)|] == SavePaymentMethod("PayPal")
    {
      rt.Emit(SavePaymentMethod(selectedPaymentMethod));
      rt.Emit(Navigate("/placeorderscreen"));
    }
  }
}
