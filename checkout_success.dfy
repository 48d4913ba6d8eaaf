/** The page the payment provider returns to: it checks the return URL and
    the stored shipping address, creates the order from the cart, and on
    success empties the cart and resets the checkout. */
module CheckoutSuccess {
  import opened Wrappers
  import opened StoreTypes
  import CartSlice
  import CheckoutSlice
  import OrderSlice

  type CartItem = CartSlice.CartItem
  type ShippingAddress = CheckoutSlice.ShippingAddress
  type OrderItem = OrderSlice.OrderItem
  type CreateOrderPayload = OrderSlice.CreateOrderPayload

  const PaymentVerificationFailed := "Payment verification failed"
  const ShippingAddressNotFound := "Shipping address not found"
  const OrderCreationFailed := "Failed to create your order. Please contact support."

  /** A non-empty `payment_intent` and `redirect_status === "succeeded"`. */
  predicate PaymentConfirmed(paymentIntent: Option<string>, redirectStatus: Option<string>)
  {
    paymentIntent.Some? && paymentIntent.value != "" && redirectStatus == Some("succeeded")
  }

  /** The two checks, payment first: the payment intent id and the address
      an order is created with, or the error the page shows. */
  function VerifyReturn(paymentIntent: Option<string>, redirectStatus: Option<string>,
                        shipping: Option<ShippingAddress>): (r: Result<(string, ShippingAddress), string>)
    ensures r == Failure(PaymentVerificationFailed) <==> !PaymentConfirmed(paymentIntent, redirectStatus)
    ensures r == Failure(ShippingAddressNotFound) <==> PaymentConfirmed(paymentIntent, redirectStatus) && shipping.None?
    ensures r.Success? <==> PaymentConfirmed(paymentIntent, redirectStatus) && shipping.Some?
    ensures r.Success? ==> r.value.0 == paymentIntent.value && r.value.0 != "" && r.value.1 == shipping.value
  {
    if paymentIntent.None? || paymentIntent.value == "" || redirectStatus != Some("succeeded") then
      Failure(PaymentVerificationFailed)
    else if shipping.None? then
      Failure(ShippingAddressNotFound)
    else
      Success((paymentIntent.value, shipping.value))
  }

  /** `items.map(item => ({ productId: item.id, quantity, price }))`. */
  function ToOrderItems(items: seq<CartItem>): (r: seq<OrderItem>)
    ensures |r| == |items|
    ensures forall j :: 0 <= j < |items| ==>
      r[j] == OrderSlice.OrderItem(items[j].product.id, items[j].quantity, items[j].product.price)
  {
    if items == [] then []
    else [OrderSlice.OrderItem(items[0].product.id, items[0].quantity, items[0].product.price)]
         + ToOrderItems(items[1..])
  }

  /** The order payload built from the cart. */
  function OrderPayload(items: seq<CartItem>, totalPrice: int, paymentIntentId: string,
                        shipping: ShippingAddress): (p: CreateOrderPayload)
    ensures |p.items| == |items|
    ensures forall j :: 0 <= j < |items| ==>
      p.items[j].productId == items[j].product.id && p.items[j].quantity == items[j].quantity
      && p.items[j].price == items[j].product.price
    ensures p.totalAmount == totalPrice && p.status == "completed"
    ensures p.paymentIntentId == paymentIntentId && p.shippingAddress == shipping
  {
    OrderSlice.CreateOrderPayload(ToOrderItems(items), totalPrice, paymentIntentId, "completed", shipping)
  }

  /** Σ price·quantity over order items. */
  function OrderItemsTotal(items: seq<OrderItem>): int
  {
    if items == [] then 0 else items[0].price * items[0].quantity + OrderItemsTotal(items[1..])
  }

  /** Σ quantity over order items. */
  function OrderItemsCount(items: seq<OrderItem>): int
  {
    if items == [] then 0 else items[0].quantity + OrderItemsCount(items[1..])
  }

  /** Mapping the lines keeps both sums. */
  lemma {:induction false} ToOrderItemsSums(items: seq<CartItem>)
    ensures OrderItemsTotal(ToOrderItems(items)) == CartSlice.TotalPrice(items)
    ensures OrderItemsCount(ToOrderItems(items)) == CartSlice.TotalQuantity(items)
    decreases |items|
  {
    if items != [] {
      ToOrderItemsSums(items[1..]);
      assert ToOrderItems(items)[1..] == ToOrderItems(items[1..]);
    }
  }

  /** From a consistent cart, the payload's totalAmount is the sum of its own
      items' price times quantity, and they hold as many units as the cart. */
  lemma PayloadAgreesWithCart(s: CartSlice.CartState, paymentIntentId: string, shipping: ShippingAddress)
    requires CartSlice.Consistent(s)
    ensures var p := OrderPayload(s.items, s.totalPrice, paymentIntentId, shipping);
      p.totalAmount == OrderItemsTotal(p.items) && OrderItemsCount(p.items) == s.totalItems
  {
    ToOrderItemsSums(s.items);
  }

  /** `createOrderFromPayment`, with `response` standing for the server's
      answer to `createOrder` and `shownError` for the page's error state
      before the run. It returns the payload it sent, if any, and the error
      state after the run: the page sets it on each failure and never clears
      it, so a successful run leaves it as it was. */
  method CreateOrderFromPayment(cart: CartSlice.CartStore, checkout: CheckoutSlice.CheckoutStore,
                                orders: OrderSlice.OrderStore,
                                paymentIntent: Option<string>, redirectStatus: Option<string>,
                                response: Result<OrderSlice.Order, RequestFailure>, shownError: Option<string>)
    returns (payload: Option<CreateOrderPayload>, error: Option<string>)
    modifies cart, checkout, orders
    ensures var v := VerifyReturn(paymentIntent, redirectStatus, old(checkout.State()).shippingAddress);
      && (v.Failure? ==>
            && payload.None? && error == Some(v.error)
            && cart.State() == old(cart.State()) && checkout.State() == old(checkout.State())
            && orders.State() == old(orders.State()))
      && (v.Success? ==>
            payload == Some(OrderPayload(old(cart.State()).items, old(cart.State()).totalPrice, v.value.0, v.value.1)))
      && (v.Success? && response.Success? ==>
            && error == shownError
            && cart.State() == CartSlice.InitialCart
            && checkout.State() == CheckoutSlice.Reduce(old(checkout.State()), CheckoutSlice.ResetCheckout)
            && orders.State() == OrderSlice.Reduce(
                 OrderSlice.Reduce(old(orders.State()), OrderSlice.Pending(OrderSlice.CreateOrder)),
                 OrderSlice.CreateOrderFulfilled(response.value)))
      && (v.Success? && response.Failure? ==>
            && error == Some(OrderCreationFailed)
            && cart.State() == old(cart.State()) && checkout.State() == old(checkout.State())
            && orders.State() == OrderSlice.Reduce(
                 OrderSlice.Reduce(old(orders.State()), OrderSlice.Pending(OrderSlice.CreateOrder)),
                 OrderSlice.Rejected(OrderSlice.CreateOrder, response.error)))
  {
    var v := VerifyReturn(paymentIntent, redirectStatus, checkout.shippingAddress);
    if v.Failure? {
      return None, Some(v.error);
    }
    var p := OrderPayload(cart.items, cart.totalPrice, v.value.0, v.value.1);
    payload := Some(p);
    orders.Dispatch(OrderSlice.Pending(OrderSlice.CreateOrder));
    if response.Failure? {
      orders.Dispatch(OrderSlice.Rejected(OrderSlice.CreateOrder, response.error));
      return payload, Some(OrderCreationFailed);
    }
    orders.Dispatch(OrderSlice.CreateOrderFulfilled(response.value));
    cart.Dispatch(CartSlice.ClearCart);
    checkout.Dispatch(CheckoutSlice.ResetCheckout);
    error := shownError;
  }

  /** After a successful run the cart is empty while the address survives
      the reset, so when the page runs its payment check again (its effect depends on
      the cart's items) the return URL still passes and the payload it builds
      holds no items and a totalAmount of 0. */
  lemma RerunAfterSuccessSendsEmptyOrder(checkout: CheckoutSlice.CheckoutState,
                                         paymentIntent: Option<string>, redirectStatus: Option<string>)
    requires VerifyReturn(paymentIntent, redirectStatus, checkout.shippingAddress).Success?
    ensures var after := CheckoutSlice.Reduce(checkout, CheckoutSlice.ResetCheckout);
      var v := VerifyReturn(paymentIntent, redirectStatus, after.shippingAddress);
      && v.Success?
      && var p := OrderPayload(CartSlice.InitialCart.items, CartSlice.InitialCart.totalPrice, v.value.0, v.value.1);
      && p.items == [] && p.totalAmount == 0
  {
  }
}
