/** The checkout store: the shipping address entered before payment, the
    payment provider's client secret, and the flags of the payment-intent
    request. */
module CheckoutSlice {
  import opened Wrappers
  import opened StoreTypes

  datatype ShippingAddress = ShippingAddress(
    street: string, city: string, state: string, zipCode: string, country: string)

  datatype CheckoutState = CheckoutState(
    isLoading: bool,
    error: Option<string>,
    clientSecret: Option<string>,
    shippingAddress: Option<ShippingAddress>,
    success: bool)

  const InitialCheckout := CheckoutState(false, None, None, None, false)

  /** The two reducers and the outcome events of `createPaymentIntent`; the
      fulfilled event carries the response's `clientSecret`. */
  datatype CheckoutAction =
    | SetShippingAddress(address: Option<ShippingAddress>)
    | ResetCheckout
    | PaymentIntentPending
    | PaymentIntentFulfilled(clientSecret: Option<string>)
    | PaymentIntentRejected(failure: RequestFailure)

  /** The value `createPaymentIntent` rejects with: the server's non-empty
      message, read as `error.response?.data?.message`, and otherwise
      "Failed to create payment intent". */
  function PaymentIntentRejection(f: RequestFailure): (r: string)
    ensures f.HttpError? && f.message.Some? && f.message.value != "" ==> r == f.message.value
    ensures !(f.HttpError? && f.message.Some? && f.message.value != "") ==> r == "Failed to create payment intent"
  {
    RejectValue(f, "Failed to create payment intent", "Failed to create payment intent")
  }

  function Reduce(s: CheckoutState, a: CheckoutAction): CheckoutState
  {
    match a
    case SetShippingAddress(address) => s.(shippingAddress := address)
    case ResetCheckout => s.(isLoading := false, error := None, clientSecret := None, success := false)
    case PaymentIntentPending => s.(isLoading := true, error := None)
    case PaymentIntentFulfilled(secret) => s.(isLoading := false, clientSecret := secret, error := None)
    case PaymentIntentRejected(f) => s.(isLoading := false, error := Some(PaymentIntentRejection(f)))
  }

  /** The store object; the reducers assign its fields in place. */
  class CheckoutStore {
    var isLoading: bool
    var error: Option<string>
    var clientSecret: Option<string>
    var shippingAddress: Option<ShippingAddress>
    var success: bool

    function State(): CheckoutState
      reads this
    {
      CheckoutState(isLoading, error, clientSecret, shippingAddress, success)
    }

    constructor ()
      ensures State() == InitialCheckout
    {
      isLoading := false;
      error := None;
      clientSecret := None;
      shippingAddress := None;
      success := false;
    }

    method Dispatch(a: CheckoutAction)
      modifies this
      ensures State() == Reduce(old(State()), a)
    {
      match a
      case SetShippingAddress(address) =>
        shippingAddress := address;
      case ResetCheckout =>
        isLoading := false;
        error := None;
        clientSecret := None;
        success := false;
      case PaymentIntentPending =>
        isLoading := true;
        error := None;
      case PaymentIntentFulfilled(secret) =>
        isLoading := false;
        clientSecret := secret;
        error := None;
      case PaymentIntentRejected(f) =>
        isLoading := false;
        error := Some(PaymentIntentRejection(f));
    }
  }

  /** `setShippingAddress` changes the address and nothing else. */
  lemma SetShippingAddressOnly(s: CheckoutState, address: Option<ShippingAddress>)
    ensures var r := Reduce(s, SetShippingAddress(address));
      r.shippingAddress == address && r == s.(shippingAddress := r.shippingAddress)
  {
  }

  /** `resetCheckout` clears the flags, the error and the client secret and
      keeps the shipping address; resetting twice is resetting once. */
  lemma ResetCheckoutKeepsAddress(s: CheckoutState)
    ensures var r := Reduce(s, ResetCheckout);
      && !r.isLoading && r.error.None? && r.clientSecret.None? && !r.success
      && r.shippingAddress == s.shippingAddress
      && Reduce(r, ResetCheckout) == r
      && (s.shippingAddress.None? ==> r == InitialCheckout)
  {
  }

  /** The three payment-intent events: pending clears the error, fulfilled
      stores the client secret, rejected records its rejection value, a
      non-empty error, and keeps the client secret; none of them touches the shipping address. */
  lemma PaymentIntentEvents(s: CheckoutState, secret: Option<string>, f: RequestFailure)
    ensures var r := Reduce(s, PaymentIntentPending);
      r.isLoading && r.error.None? && r.clientSecret == s.clientSecret && r.shippingAddress == s.shippingAddress
    ensures var r := Reduce(s, PaymentIntentFulfilled(secret));
      !r.isLoading && r.error.None? && r.clientSecret == secret && r.shippingAddress == s.shippingAddress
    ensures var r := Reduce(s, PaymentIntentRejected(f));
      && !r.isLoading && r.error == Some(PaymentIntentRejection(f)) && r.error.value != ""
      && r.clientSecret == s.clientSecret && r.shippingAddress == s.shippingAddress
  {
  }
}
