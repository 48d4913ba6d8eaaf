/** The cart store: one line per product id with its quantity, and running
    totals of items and price (integer cents). */
module CartSlice {
  import Lists
  import ProductSlice

  type Product = ProductSlice.Product

  /** `{ ...product, quantity }`. */
  datatype CartItem = CartItem(product: Product, quantity: int)

  datatype CartState = CartState(items: seq<CartItem>, totalItems: int, totalPrice: int)

  const InitialCart := CartState([], 0, 0)

  datatype CartAction =
    | AddToCart(product: Product)
    | RemoveFromCart(id: int)
    | UpdateQuantity(id: int, quantity: int)
    | ClearCart

  function LineId(line: CartItem): int { line.product.id }

  function LineTotal(line: CartItem): int { line.product.price * line.quantity }

  /** Σ quantity over the lines. */
  function TotalQuantity(items: seq<CartItem>): int
  {
    if items == [] then 0 else items[0].quantity + TotalQuantity(items[1..])
  }

  /** Σ price·quantity over the lines. */
  function TotalPrice(items: seq<CartItem>): int
  {
    if items == [] then 0 else LineTotal(items[0]) + TotalPrice(items[1..])
  }

  /** Σ quantity over the lines holding product `id`. */
  function QuantityOf(items: seq<CartItem>, id: int): int
  {
    if items == [] then 0
    else (if LineId(items[0]) == id then items[0].quantity else 0) + QuantityOf(items[1..], id)
  }

  /** The running totals agree with the lines. */
  predicate Consistent(s: CartState)
  {
    s.totalItems == TotalQuantity(s.items) && s.totalPrice == TotalPrice(s.items)
  }

  predicate UniqueIds(items: seq<CartItem>)
  {
    forall i, j :: 0 <= i < j < |items| ==> LineId(items[i]) != LineId(items[j])
  }

  /** Every stored line for `p`'s id carries `p`'s price. */
  predicate PriceAgrees(items: seq<CartItem>, p: Product)
  {
    forall j :: 0 <= j < |items| && LineId(items[j]) == p.id ==> items[j].product.price == p.price
  }

  predicate Contains(items: seq<CartItem>, id: int)
  {
    exists j :: 0 <= j < |items| && LineId(items[j]) == id
  }

  function Reduce(s: CartState, a: CartAction): CartState
  {
    match a
    case AddToCart(p) =>
      var i := Lists.IndexOf(s.items, LineId, p.id);
      var items := if i != -1 then s.items[i := s.items[i].(quantity := s.items[i].quantity + 1)]
                   else s.items + [CartItem(p, 1)];
      CartState(items, s.totalItems + 1, s.totalPrice + p.price)
    case RemoveFromCart(id) =>
      var i := Lists.IndexOf(s.items, LineId, id);
      if i == -1 then s
      else
        var line := s.items[i];
        CartState(s.items[..i] + s.items[i + 1..],
                  s.totalItems - line.quantity,
                  s.totalPrice - line.product.price * line.quantity)
    case UpdateQuantity(id, quantity) =>
      var i := Lists.IndexOf(s.items, LineId, id);
      if i == -1 then s
      else
        var diff := quantity - s.items[i].quantity;
        CartState(s.items[i := s.items[i].(quantity := quantity)],
                  s.totalItems + diff,
                  s.totalPrice + s.items[i].product.price * diff)
    case ClearCart => InitialCart
  }

  /** The store object; the reducers mutate its fields in place. */
  class CartStore {
    var items: seq<CartItem>
    var totalItems: int
    var totalPrice: int

    function State(): CartState
      reads this
    {
      CartState(items, totalItems, totalPrice)
    }

    constructor ()
      ensures State() == InitialCart
    {
      items := [];
      totalItems := 0;
      totalPrice := 0;
    }

    method Dispatch(a: CartAction)
      modifies this
      ensures State() == Reduce(old(State()), a)
    {
      match a
      case AddToCart(p) =>
        var i := Lists.IndexOf(items, LineId, p.id);
        if i != -1 {
          items := items[i := items[i].(quantity := items[i].quantity + 1)];
        } else {
          items := items + [CartItem(p, 1)];
        }
        totalItems := totalItems + 1;
        totalPrice := totalPrice + p.price;
      case RemoveFromCart(id) =>
        var i := Lists.IndexOf(items, LineId, id);
        if i != -1 {
          var line := items[i];
          totalItems := totalItems - line.quantity;
          totalPrice := totalPrice - line.product.price * line.quantity;
          items := items[..i] + items[i + 1..];
        }
      case UpdateQuantity(id, quantity) =>
        var i := Lists.IndexOf(items, LineId, id);
        if i != -1 {
          var diff := quantity - items[i].quantity;
          items := items[i := items[i].(quantity := quantity)];
          totalItems := totalItems + diff;
          totalPrice := totalPrice + items[i].product.price * diff;
        }
      case ClearCart =>
        items := [];
        totalItems := 0;
        totalPrice := 0;
    }
  }

  /** The three sums distribute over concatenation. */
  lemma {:induction false} SumsAppend(a: seq<CartItem>, b: seq<CartItem>, id: int)
    ensures TotalQuantity(a + b) == TotalQuantity(a) + TotalQuantity(b)
    ensures TotalPrice(a + b) == TotalPrice(a) + TotalPrice(b)
    ensures QuantityOf(a + b, id) == QuantityOf(a, id) + QuantityOf(b, id)
    decreases |a|
  {
    if a == [] {
      assert a + b == b;
    } else {
      assert (a + b)[1..] == a[1..] + b;
      SumsAppend(a[1..], b, id);
    }
  }

  /** Splitting the lines around position `i`. */
  lemma SumsSplit(items: seq<CartItem>, i: int, id: int)
    requires 0 <= i < |items|
    ensures TotalQuantity(items) == TotalQuantity(items[..i]) + items[i].quantity + TotalQuantity(items[i + 1..])
    ensures TotalPrice(items) == TotalPrice(items[..i]) + LineTotal(items[i]) + TotalPrice(items[i + 1..])
    ensures QuantityOf(items, id) == QuantityOf(items[..i], id) + (if LineId(items[i]) == id then items[i].quantity else 0)
                                     + QuantityOf(items[i + 1..], id)
  {
    assert items == items[..i] + ([items[i]] + items[i + 1..]);
    SumsAppend(items[..i], [items[i]] + items[i + 1..], id);
    SumsAppend([items[i]], items[i + 1..], id);
    assert ([items[i]] + items[i + 1..])[1..] == items[i + 1..];
  }

  /** Replacing the line at position `i` changes each sum by the difference. */
  lemma SumsUpdate(items: seq<CartItem>, i: int, x: CartItem, id: int)
    requires 0 <= i < |items|
    ensures TotalQuantity(items[i := x]) == TotalQuantity(items) - items[i].quantity + x.quantity
    ensures TotalPrice(items[i := x]) == TotalPrice(items) - LineTotal(items[i]) + LineTotal(x)
    ensures QuantityOf(items[i := x], id) == QuantityOf(items, id)
              - (if LineId(items[i]) == id then items[i].quantity else 0)
              + (if LineId(x) == id then x.quantity else 0)
  {
    var u := items[i := x];
    assert u[..i] == items[..i] && u[i + 1..] == items[i + 1..];
    SumsSplit(items, i, id);
    SumsSplit(u, i, id);
  }

  /** With no line for `id`, its quantity is 0. */
  lemma {:induction false} QuantityOfAbsent(items: seq<CartItem>, id: int)
    requires forall j :: 0 <= j < |items| ==> LineId(items[j]) != id
    ensures QuantityOf(items, id) == 0
    decreases |items|
  {
    if items != [] {
      QuantityOfAbsent(items[1..], id);
    }
  }

  /** With unique ids, the quantity of a product is that of its one line. */
  lemma QuantityOfUnique(items: seq<CartItem>, i: int)
    requires UniqueIds(items) && 0 <= i < |items|
    ensures QuantityOf(items, LineId(items[i])) == items[i].quantity
  {
    var id := LineId(items[i]);
    SumsSplit(items, i, id);
    var pre, post := items[..i], items[i + 1..];
    assert forall j :: 0 <= j < |pre| ==> pre[j] == items[j];
    assert forall j :: 0 <= j < |post| ==> post[j] == items[i + 1 + j];
    QuantityOfAbsent(pre, id);
    QuantityOfAbsent(post, id);
  }

  /** `addToCart` raises totalItems by 1 and totalPrice by the payload price;
      a new id appends one line with quantity 1, a known id adds 1 to its
      first line and appends nothing; the product's quantity rises by exactly
      1 and no other product's quantity changes. */
  lemma AddToCartEffect(s: CartState, p: Product)
    ensures var r := Reduce(s, AddToCart(p));
      && r.totalItems == s.totalItems + 1
      && r.totalPrice == s.totalPrice + p.price
      && (!Contains(s.items, p.id) ==> r.items == s.items + [CartItem(p, 1)])
      && (Contains(s.items, p.id) ==>
            |r.items| == |s.items| && forall j :: 0 <= j < |s.items| ==> r.items[j].product == s.items[j].product)
      && QuantityOf(r.items, p.id) == QuantityOf(s.items, p.id) + 1
      && forall id :: id != p.id ==> QuantityOf(r.items, id) == QuantityOf(s.items, id)
  {
    var r := Reduce(s, AddToCart(p));
    var i := Lists.IndexOf(s.items, LineId, p.id);
    if i == -1 {
      forall id ensures QuantityOf(r.items, id) == QuantityOf(s.items, id) + (if id == p.id then 1 else 0) {
        SumsAppend(s.items, [CartItem(p, 1)], id);
      }
    } else {
      var x := s.items[i].(quantity := s.items[i].quantity + 1);
      forall id ensures QuantityOf(r.items, id) == QuantityOf(s.items, id) + (if id == p.id then 1 else 0) {
        SumsUpdate(s.items, i, x, id);
      }
    }
  }

  /** `addToCart` keeps line ids unique. */
  lemma AddToCartKeepsUniqueIds(s: CartState, p: Product)
    requires UniqueIds(s.items)
    ensures UniqueIds(Reduce(s, AddToCart(p)).items)
  {
  }

  /** `addToCart` keeps the stored prices of `p`'s id equal to `p`'s price. */
  lemma AddToCartKeepsPriceAgrees(s: CartState, p: Product)
    requires PriceAgrees(s.items, p)
    ensures PriceAgrees(Reduce(s, AddToCart(p)).items, p)
  {
  }

  /** `addToCart` keeps the totals equal to the sums over the lines, provided
      the payload's price is the one stored on the matching line. */
  lemma AddToCartPreservesTotals(s: CartState, p: Product)
    requires Consistent(s) && PriceAgrees(s.items, p)
    ensures Consistent(Reduce(s, AddToCart(p)))
  {
    var i := Lists.IndexOf(s.items, LineId, p.id);
    if i == -1 {
      SumsAppend(s.items, [CartItem(p, 1)], p.id);
    } else {
      var old_line := s.items[i];
      var x := old_line.(quantity := old_line.quantity + 1);
      SumsUpdate(s.items, i, x, p.id);
      assert LineTotal(x) == LineTotal(old_line) + p.price by {
        assert old_line.product.price == p.price;
        assert old_line.product.price * (old_line.quantity + 1)
            == old_line.product.price * old_line.quantity + old_line.product.price;
      }
    }
  }

  /** `removeFromCart` of an unknown id changes nothing; of a known id it
      deletes exactly its first line, keeping the other lines in order, and
      takes that line's quantity and subtotal off the totals. */
  lemma RemoveFromCartEffect(s: CartState, id: int)
    ensures var r := Reduce(s, RemoveFromCart(id));
      && (!Contains(s.items, id) ==> r == s)
      && (Contains(s.items, id) ==>
            var i := Lists.IndexOf(s.items, LineId, id);
            && LineId(s.items[i]) == id
            && r.items == s.items[..i] + s.items[i + 1..]
            && |r.items| == |s.items| - 1
            && r.totalItems == s.totalItems - s.items[i].quantity
            && r.totalPrice == s.totalPrice - LineTotal(s.items[i]))
  {
  }

  /** `removeFromCart` keeps the totals consistent and the ids unique, and with
      unique ids no line for the removed id is left. */
  lemma RemoveFromCartPreserves(s: CartState, id: int)
    ensures Consistent(s) ==> Consistent(Reduce(s, RemoveFromCart(id)))
    ensures UniqueIds(s.items) ==>
      UniqueIds(Reduce(s, RemoveFromCart(id)).items) && !Contains(Reduce(s, RemoveFromCart(id)).items, id)
  {
    var i := Lists.IndexOf(s.items, LineId, id);
    if i != -1 {
      SumsSplit(s.items, i, id);
      SumsAppend(s.items[..i], s.items[i + 1..], id);
      if UniqueIds(s.items) {
        SpliceKeepsUniqueIds(s.items, i);
      }
    }
  }

  /** Splicing out line `i` of a cart with unique ids keeps them unique and
      leaves no line with line `i`'s id. */
  lemma SpliceKeepsUniqueIds(items: seq<CartItem>, i: int)
    requires UniqueIds(items) && 0 <= i < |items|
    ensures var r := items[..i] + items[i + 1..];
      UniqueIds(r) && forall k :: 0 <= k < |r| ==> LineId(r[k]) != LineId(items[i])
  {
    var r := items[..i] + items[i + 1..];
    assert forall k :: 0 <= k < |r| ==> r[k] == items[if k < i then k else k + 1];
  }

  /** `updateQuantity` of an unknown id changes nothing; otherwise it sets the
      first matching line's quantity to the requested value, whatever it is
      (no lower bound), never changes the number, order or products of the
      lines, and leaves every other product's quantity alone. */
  lemma UpdateQuantityEffect(s: CartState, id: int, quantity: int)
    ensures var r := Reduce(s, UpdateQuantity(id, quantity));
      && (!Contains(s.items, id) ==> r == s)
      && |r.items| == |s.items|
      && (forall j :: 0 <= j < |s.items| ==> r.items[j].product == s.items[j].product)
      && (Contains(s.items, id) ==> r.items[Lists.IndexOf(s.items, LineId, id)].quantity == quantity)
      && (Contains(s.items, id) && UniqueIds(s.items) ==> QuantityOf(r.items, id) == quantity)
      && forall other :: other != id ==> QuantityOf(r.items, other) == QuantityOf(s.items, other)
  {
    var r := Reduce(s, UpdateQuantity(id, quantity));
    var i := Lists.IndexOf(s.items, LineId, id);
    if i != -1 {
      var x := s.items[i].(quantity := quantity);
      forall other | other != id ensures QuantityOf(r.items, other) == QuantityOf(s.items, other) {
        SumsUpdate(s.items, i, x, other);
      }
      if UniqueIds(s.items) {
        QuantityOfUnique(r.items, i);
      }
    }
  }

  /** `updateQuantity` keeps the totals equal to the sums over the lines. */
  lemma UpdateQuantityPreservesTotals(s: CartState, id: int, quantity: int)
    requires Consistent(s)
    ensures Consistent(Reduce(s, UpdateQuantity(id, quantity)))
  {
    var i := Lists.IndexOf(s.items, LineId, id);
    if i != -1 {
      var line := s.items[i];
      var x := line.(quantity := quantity);
      SumsUpdate(s.items, i, x, id);
      assert LineTotal(x) - LineTotal(line) == line.product.price * (quantity - line.quantity) by {
        assert line.product.price * (quantity - line.quantity)
            == line.product.price * quantity - line.product.price * line.quantity;
      }
    }
  }

  /** `clearCart` gives the initial, empty cart, whose totals are 0. */
  lemma ClearCartEmpties(s: CartState)
    ensures var r := Reduce(s, ClearCart);
      r.items == [] && r.totalItems == 0 && r.totalPrice == 0 && Consistent(r)
  {
  }

  /** The cart invariant: every action keeps the totals equal to the sums over
      the lines and the line ids unique, provided an added product's price is
      the one stored for its id. */
  lemma ReducePreservesInvariant(s: CartState, a: CartAction)
    requires Consistent(s) && UniqueIds(s.items)
    requires a.AddToCart? ==> PriceAgrees(s.items, a.product)
    ensures Consistent(Reduce(s, a)) && UniqueIds(Reduce(s, a).items)
  {
    match a
    case AddToCart(p) =>
      AddToCartPreservesTotals(s, p);
      AddToCartKeepsUniqueIds(s, p);
    case RemoveFromCart(id) =>
      RemoveFromCartPreserves(s, id);
    case UpdateQuantity(id, quantity) =>
      UpdateQuantityPreservesTotals(s, id, quantity);
    case ClearCart =>
  }
}
