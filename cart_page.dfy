/** The cart page: its quantity guard, the −, + and remove buttons of each
    line, and the checkout button's routing. */
module CartPage {
  import opened Wrappers
  import Lists
  import CartSlice
  import AuthSlice

  type CartAction = CartSlice.CartAction
  type CartItem = CartSlice.CartItem
  type CartState = CartSlice.CartState

  /** `handleUpdateQuantity`: dispatches only a positive quantity. */
  function HandleUpdateQuantity(productId: int, newQuantity: int): (r: Option<CartAction>)
    ensures r.Some? <==> newQuantity > 0
    ensures r.Some? ==> r.value.UpdateQuantity? && r.value.id == productId && r.value.quantity == newQuantity
  {
    if newQuantity > 0 then Some(CartSlice.UpdateQuantity(productId, newQuantity)) else None
  }

  function HandleRemoveItem(productId: int): CartAction
  {
    CartSlice.RemoveFromCart(productId)
  }

  /** The three buttons on a cart line. */
  datatype LineButton = Minus | Plus | Remove

  /** What a click on a line's button dispatches, if anything. */
  function Click(line: CartItem, b: LineButton): Option<CartAction>
  {
    match b
    case Minus => HandleUpdateQuantity(line.product.id, line.quantity - 1)
    case Plus => HandleUpdateQuantity(line.product.id, line.quantity + 1)
    case Remove => Some(HandleRemoveItem(line.product.id))
  }

  /** The cart after an optional dispatch. */
  function Apply(s: CartState, a: Option<CartAction>): CartState
  {
    if a.Some? then CartSlice.Reduce(s, a.value) else s
  }

  predicate AllPositive(items: seq<CartItem>)
  {
    forall j :: 0 <= j < |items| ==> items[j].quantity >= 1
  }

  /** "−" on a line of quantity 1 dispatches nothing and leaves the cart as it is. */
  lemma MinusAtOneDoesNothing(s: CartState, j: int)
    requires 0 <= j < |s.items| && s.items[j].quantity == 1
    ensures Click(s.items[j], Minus).None?
    ensures Apply(s, Click(s.items[j], Minus)) == s
  {
  }

  /** "+" requests one more of that line's product; with unique ids that line
      goes up by exactly one and the total item count with it. */
  lemma PlusAddsOne(s: CartState, j: int)
    requires 0 <= j < |s.items| && s.items[j].quantity >= 0
    ensures Click(s.items[j], Plus) == Some(CartSlice.UpdateQuantity(s.items[j].product.id, s.items[j].quantity + 1))
    ensures CartSlice.UniqueIds(s.items) && CartSlice.Consistent(s) ==>
      var r := Apply(s, Click(s.items[j], Plus));
      && r.items == s.items[j := s.items[j].(quantity := s.items[j].quantity + 1)]
      && r.totalItems == s.totalItems + 1
      && r.totalPrice == s.totalPrice + s.items[j].product.price
      && CartSlice.Consistent(r)
  {
    var line := s.items[j];
    if CartSlice.UniqueIds(s.items) && CartSlice.Consistent(s) {
      var i := Lists.IndexOf(s.items, CartSlice.LineId, line.product.id);
      assert i == j;
      CartSlice.UpdateQuantityPreservesTotals(s, line.product.id, line.quantity + 1);
    }
  }

  /** "Remove" dispatches `removeFromCart` with the line's own id, which
      (with unique ids) leaves no line for that product. */
  lemma RemoveUsesLineId(s: CartState, j: int)
    requires 0 <= j < |s.items|
    ensures Click(s.items[j], Remove) == Some(CartSlice.RemoveFromCart(s.items[j].product.id))
    ensures CartSlice.UniqueIds(s.items) ==>
      !CartSlice.Contains(Apply(s, Click(s.items[j], Remove)).items, s.items[j].product.id)
  {
    CartSlice.RemoveFromCartPreserves(s, s.items[j].product.id);
  }

  /** The actions the pages can dispatch (a line button, adding a product,
      clearing the cart) keep every quantity at least 1. */
  lemma UiActionsKeepQuantitiesPositive(s: CartState, j: int, b: LineButton, p: CartSlice.Product)
    requires AllPositive(s.items)
    ensures 0 <= j < |s.items| ==> AllPositive(Apply(s, Click(s.items[j], b)).items)
    ensures AllPositive(CartSlice.Reduce(s, CartSlice.AddToCart(p)).items)
    ensures AllPositive(CartSlice.Reduce(s, CartSlice.ClearCart).items)
  {
    if 0 <= j < |s.items| {
      var a := Click(s.items[j], b);
      if a.Some? && a.value.RemoveFromCart? {
        var i := Lists.IndexOf(s.items, CartSlice.LineId, a.value.id);
        if i != -1 {
          var r := Apply(s, a).items;
          assert r == s.items[..i] + s.items[i + 1..];
          assert forall k :: 0 <= k < |r| ==> r[k] == (if k < i then s.items[k] else s.items[k + 1]);
        }
      }
    }
  }

  /** `handleCheckout`: the login page without a user, the checkout otherwise. */
  function CheckoutRoute(user: Option<AuthSlice.User>): (r: string)
    ensures user.None? <==> r == "/login"
    ensures user.Some? <==> r == "/checkout"
  {
    if user.None? then "/login" else "/checkout"
  }

  /** After logging out, or before any sign-in, checkout leads to the login
      page; after a sign-in that returned a user it leads to the checkout. */
  lemma CheckoutRouteAfterAuth(s: AuthSlice.AuthState, t: AuthSlice.AuthThunk, u: AuthSlice.User, token: string)
    ensures CheckoutRoute(AuthSlice.InitialAuth.user) == "/login"
    ensures CheckoutRoute(AuthSlice.Reduce(s, AuthSlice.Logout).user) == "/login"
    ensures CheckoutRoute(AuthSlice.Reduce(s, AuthSlice.Fulfilled(t, Some(u), token)).user) == "/checkout"
  {
  }
}
