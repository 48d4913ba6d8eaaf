/** The product detail page: adding the chosen quantity to the cart one
    `addToCart` at a time, and the stock label, colour and button state. */
module ProductDetail {
  import opened Wrappers
  import CartSlice

  type Product = CartSlice.Product
  type CartState = CartSlice.CartState

  /** The quantity input starts at 1. */
  const InitialQuantity := 1

  /** The cart after `n` dispatches of `addToCart(p)`; none when `n <= 0`. */
  function AddRepeatedly(s: CartState, p: Product, n: int): CartState
    decreases n
  {
    if n <= 0 then s else CartSlice.Reduce(AddRepeatedly(s, p, n - 1), CartSlice.AddToCart(p))
  }

  /** `handleAddToCart`: with no product loaded nothing is dispatched;
      otherwise `addToCart` is dispatched `quantity` times. */
  method HandleAddToCart(cart: CartSlice.CartStore, selectedProduct: Option<Product>, quantity: int)
    modifies cart
    ensures selectedProduct.None? ==> cart.State() == old(cart.State())
    ensures selectedProduct.Some? ==> cart.State() == AddRepeatedly(old(cart.State()), selectedProduct.value, quantity)
  {
    if selectedProduct.Some? {
      var i := 0;
      while i < quantity
        invariant 0 <= i && (quantity > 0 ==> i <= quantity) && (quantity <= 0 ==> i == 0)
        invariant cart.State() == AddRepeatedly(old(cart.State()), selectedProduct.value, i)
        decreases quantity - i
      {
        cart.Dispatch(CartSlice.AddToCart(selectedProduct.value));
        i := i + 1;
      }
    }
  }

  /** Adding `n` times raises the product's quantity and the item count by `n`
      and the price by `n` times the product's price, changes no other
      product's quantity, and keeps the cart invariant. */
  lemma {:induction false} AddRepeatedlyEffect(s: CartState, p: Product, n: int)
    ensures n <= 0 ==> AddRepeatedly(s, p, n) == s
    ensures n >= 0 ==>
      var r := AddRepeatedly(s, p, n);
      && r.totalItems == s.totalItems + n
      && r.totalPrice == s.totalPrice + n * p.price
      && CartSlice.QuantityOf(r.items, p.id) == CartSlice.QuantityOf(s.items, p.id) + n
      && (forall id :: id != p.id ==> CartSlice.QuantityOf(r.items, id) == CartSlice.QuantityOf(s.items, id))
      && (CartSlice.PriceAgrees(s.items, p) ==> CartSlice.PriceAgrees(r.items, p))
      && (CartSlice.Consistent(s) && CartSlice.PriceAgrees(s.items, p) ==> CartSlice.Consistent(r))
      && (CartSlice.UniqueIds(s.items) ==> CartSlice.UniqueIds(r.items))
    decreases n
  {
    if n > 0 {
      var q := AddRepeatedly(s, p, n - 1);
      AddRepeatedlyEffect(s, p, n - 1);
      CartSlice.AddToCartEffect(q, p);
      if CartSlice.PriceAgrees(s.items, p) {
        CartSlice.AddToCartKeepsPriceAgrees(q, p);
        if CartSlice.Consistent(s) {
          CartSlice.AddToCartPreservesTotals(q, p);
        }
      }
      if CartSlice.UniqueIds(s.items) {
        CartSlice.AddToCartKeepsUniqueIds(q, p);
      }
      assert (n - 1) * p.price + p.price == n * p.price;
    }
  }

  /** With the initial quantity, one click adds exactly one of the product. */
  lemma InitialQuantityAddsOne(s: CartState, p: Product)
    ensures AddRepeatedly(s, p, InitialQuantity) == CartSlice.Reduce(s, CartSlice.AddToCart(p))
  {
  }

  /** The stock text: "N available" or "Out of Stock". */
  datatype StockLabel = Available(count: int) | OutOfStock

  function StockLabelOf(stock: int): StockLabel
  {
    if stock > 0 then Available(stock) else OutOfStock
  }

  /** The stock text's colour. */
  datatype StockTier = Green | Yellow | Red

  function StockTierOf(stock: int): StockTier
  {
    if stock > 10 then Green else if stock > 0 then Yellow else Red
  }

  /** `disabled={stock === 0}`. */
  predicate AddDisabled(stock: int)
  {
    stock == 0
  }

  /** The label shows the count exactly when some stock is left; green above
      10, yellow from 1 to 10, red otherwise; the button is disabled exactly
      at stock 0, where the label says "Out of Stock" in red. A negative stock
      also shows "Out of Stock" in red but leaves the button enabled. */
  lemma StockDisplay(stock: int)
    ensures StockLabelOf(stock) == Available(stock) <==> stock > 0
    ensures StockLabelOf(stock) == OutOfStock <==> stock <= 0
    ensures StockTierOf(stock) == Green <==> stock > 10
    ensures StockTierOf(stock) == Yellow <==> 0 < stock <= 10
    ensures StockTierOf(stock) == Red <==> StockLabelOf(stock) == OutOfStock
    ensures AddDisabled(stock) <==> stock == 0
    ensures AddDisabled(stock) ==> StockLabelOf(stock) == OutOfStock && StockTierOf(stock) == Red
    ensures stock < 0 ==> StockLabelOf(stock) == OutOfStock && !AddDisabled(stock)
  {
  }
}
