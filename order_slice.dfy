/** The order store: the orders listed for a customer or an administrator, the
    order just placed, the administrator's listing filters, and the flags of
    the four order requests. */
module OrderSlice {
  import opened Wrappers
  import opened StoreTypes
  import Lists
  import CheckoutSlice

  type ShippingAddress = CheckoutSlice.ShippingAddress

  datatype OrderItem = OrderItem(productId: int, quantity: int, price: int)

  datatype OrderStatus = StatusPending | StatusProcessing | StatusShipped | StatusDelivered | StatusCancelled

  datatype Order = Order(
    id: int, userId: int, items: seq<OrderItem>, total: int, paymentIntentId: string,
    status: OrderStatus, shippingAddress: ShippingAddress, createdAt: string, updatedAt: Option<string>)

  function OrderId(o: Order): int { o.id }

  /** What the client sends to create an order. */
  datatype CreateOrderPayload = CreateOrderPayload(
    items: seq<OrderItem>, totalAmount: int, paymentIntentId: string,
    status: string, shippingAddress: ShippingAddress)

  datatype OrderSortField = SortById | SortByCreatedAt | SortByStatus | SortByTotal

  datatype OrderFilters = OrderFilters(
    status: Option<string>,
    minTotal: Option<int>,
    maxTotal: Option<int>,
    startDate: Option<string>,
    endDate: Option<string>,
    page: Option<int>,
    limit: Option<int>,
    sortBy: Option<OrderSortField>,
    sortOrder: Option<SortOrder>)

  /** A partial filter object, per key as in `StoreTypes.Assign`. */
  datatype OrderFilterPatch = OrderFilterPatch(
    status: Option<Option<string>>,
    minTotal: Option<Option<int>>,
    maxTotal: Option<Option<int>>,
    startDate: Option<Option<string>>,
    endDate: Option<Option<string>>,
    page: Option<Option<int>>,
    limit: Option<Option<int>>,
    sortBy: Option<Option<OrderSortField>>,
    sortOrder: Option<Option<SortOrder>>)

  const NoKeys := OrderFilterPatch(None, None, None, None, None, None, None, None, None)

  /** Page 1 of 10, newest first, no other filter. */
  const InitialFilters :=
    OrderFilters(None, None, None, None, None, Some(1), Some(10), Some(SortByCreatedAt), Some(Desc))

  /** `{ ...filters, ...patch }`. */
  function MergeFilters(f: OrderFilters, p: OrderFilterPatch): OrderFilters
  {
    OrderFilters(
      Assign(f.status, p.status),
      Assign(f.minTotal, p.minTotal),
      Assign(f.maxTotal, p.maxTotal),
      Assign(f.startDate, p.startDate),
      Assign(f.endDate, p.endDate),
      Assign(f.page, p.page),
      Assign(f.limit, p.limit),
      Assign(f.sortBy, p.sortBy),
      Assign(f.sortOrder, p.sortOrder))
  }

  datatype OrderThunk = CreateOrder | FetchUserOrders | FetchAllOrders | UpdateOrderStatus

  /** The payload of each request's rejected action. `createOrder` and
      `fetchUserOrders` read `error.response?.data?.message`; `fetchAllOrders`
      and `updateOrderStatus` read `error.response?.data.message`, so a null
      body leaves them without a payload. */
  function Rejection(t: OrderThunk, f: RequestFailure): (r: Option<string>)
    ensures r.None? <==> f.HttpErrorNullBody? && (t == FetchAllOrders || t == UpdateOrderStatus)
    ensures r.Some? ==> r.value != ""
    ensures f.HttpError? && f.message.Some? && f.message.value != "" ==> r == f.message
    ensures t == CreateOrder && !(f.HttpError? && f.message.Some? && f.message.value != "") ==>
      r == Some("Failed to create order")
    ensures t == FetchUserOrders && !(f.HttpError? && f.message.Some? && f.message.value != "") ==>
      r == Some("Failed to fetch orders")
    ensures t == FetchAllOrders && f.HttpError? && (f.message.None? || f.message.value == "") ==>
      r == Some("Failed to fetch orders")
    ensures t == UpdateOrderStatus && f.HttpError? && (f.message.None? || f.message.value == "") ==>
      r == Some("Failed to update order status")
    ensures (t == FetchAllOrders || t == UpdateOrderStatus) && f.OtherError? ==>
      r == Some("An unknown error occurred")
  {
    match t
    case CreateOrder => Some(RejectValue(f, "Failed to create order", "Failed to create order"))
    case FetchUserOrders => Some(RejectValue(f, "Failed to fetch orders", "Failed to fetch orders"))
    case FetchAllOrders => RejectValueUnguarded(f, "Failed to fetch orders", "An unknown error occurred")
    case UpdateOrderStatus => RejectValueUnguarded(f, "Failed to update order status", "An unknown error occurred")
  }

  datatype OrderState = OrderState(
    orders: seq<Order>,
    currentOrder: Option<Order>,
    isLoading: bool,
    error: Option<string>,
    pagination: Option<PaginationData>,
    filters: OrderFilters)

  const InitialState := OrderState([], None, false, None, None, InitialFilters)

  /** `updateFilters` and the outcome events of the four requests; a rejected
      event carries what the request threw. */
  datatype OrderAction =
    | UpdateFilters(patch: OrderFilterPatch)
    | Pending(thunk: OrderThunk)
    | Rejected(thunk: OrderThunk, failure: RequestFailure)
    | CreateOrderFulfilled(order: Order)
    | FetchUserOrdersFulfilled(orders: seq<Order>)
    | FetchAllOrdersFulfilled(orders: seq<Order>, pagination: PaginationData)
    | UpdateOrderStatusFulfilled(order: Order)

  function Reduce(s: OrderState, a: OrderAction): OrderState
  {
    match a
    case UpdateFilters(patch) => s.(filters := MergeFilters(s.filters, patch))
    case Pending(_) => s.(isLoading := true, error := None)
    case Rejected(t, f) => s.(isLoading := false, error := Rejection(t, f))
    case CreateOrderFulfilled(o) => s.(isLoading := false, currentOrder := Some(o), orders := s.orders + [o])
    case FetchUserOrdersFulfilled(os) => s.(isLoading := false, orders := os)
    case FetchAllOrdersFulfilled(os, pg) => s.(isLoading := false, orders := os, pagination := Some(pg))
    case UpdateOrderStatusFulfilled(o) => s.(isLoading := false, orders := Lists.ReplaceFirst(s.orders, OrderId, o))
  }

  /** The store object; the reducers update its fields in place. */
  class OrderStore {
    var orders: seq<Order>
    var currentOrder: Option<Order>
    var isLoading: bool
    var error: Option<string>
    var pagination: Option<PaginationData>
    var filters: OrderFilters

    function State(): OrderState
      reads this
    {
      OrderState(orders, currentOrder, isLoading, error, pagination, filters)
    }

    constructor ()
      ensures State() == InitialState
    {
      orders := [];
      currentOrder := None;
      isLoading := false;
      error := None;
      pagination := None;
      filters := InitialFilters;
    }

    method Dispatch(a: OrderAction)
      modifies this
      ensures State() == Reduce(old(State()), a)
    {
      match a
      case UpdateFilters(patch) =>
        filters := MergeFilters(filters, patch);
      case Pending(_) =>
        isLoading := true;
        error := None;
      case Rejected(t, f) =>
        isLoading := false;
        error := Rejection(t, f);
      case CreateOrderFulfilled(o) =>
        isLoading := false;
        currentOrder := Some(o);
        orders := orders + [o];
      case FetchUserOrdersFulfilled(os) =>
        isLoading := false;
        orders := os;
      case FetchAllOrdersFulfilled(os, pg) =>
        isLoading := false;
        orders := os;
        pagination := Some(pg);
      case UpdateOrderStatusFulfilled(o) =>
        isLoading := false;
        var index := Lists.IndexOf(orders, OrderId, o.id);
        if index != -1 {
          orders := orders[index := o];
        }
    }
  }

  /** The shallow merge: present keys overwrite (including with `undefined`),
      absent keys keep their values. */
  lemma MergeFiltersKeys(f: OrderFilters, p: OrderFilterPatch)
    ensures var r := MergeFilters(f, p);
      && (p.status.Some? ==> r.status == p.status.value)
      && (p.status.None? ==> r.status == f.status)
      && (p.minTotal.Some? ==> r.minTotal == p.minTotal.value)
      && (p.minTotal.None? ==> r.minTotal == f.minTotal)
      && (p.maxTotal.Some? ==> r.maxTotal == p.maxTotal.value)
      && (p.maxTotal.None? ==> r.maxTotal == f.maxTotal)
      && (p.startDate.Some? ==> r.startDate == p.startDate.value)
      && (p.startDate.None? ==> r.startDate == f.startDate)
      && (p.endDate.Some? ==> r.endDate == p.endDate.value)
      && (p.endDate.None? ==> r.endDate == f.endDate)
      && (p.page.Some? ==> r.page == p.page.value)
      && (p.page.None? ==> r.page == f.page)
      && (p.limit.Some? ==> r.limit == p.limit.value)
      && (p.limit.None? ==> r.limit == f.limit)
      && (p.sortBy.Some? ==> r.sortBy == p.sortBy.value)
      && (p.sortBy.None? ==> r.sortBy == f.sortBy)
      && (p.sortOrder.Some? ==> r.sortOrder == p.sortOrder.value)
      && (p.sortOrder.None? ==> r.sortOrder == f.sortOrder)
    ensures MergeFilters(f, NoKeys) == f
  {
  }

  /** Pending raises `isLoading` and clears `error`; rejected lowers it and
      records the request's rejection payload, a non-empty message except
      for the two listing and status requests after a null body, where no
      error is recorded; neither touches the orders. */
  lemma PendingAndRejectedFlags(s: OrderState, t: OrderThunk, f: RequestFailure)
    ensures Reduce(s, Pending(t)) == s.(isLoading := true, error := None)
    ensures var r := Reduce(s, Rejected(t, f));
      && !r.isLoading && r.error == Rejection(t, f)
      && (r.error.Some? ==> r.error.value != "")
      && (r.error.None? <==> f.HttpErrorNullBody? && (t == FetchAllOrders || t == UpdateOrderStatus))
      && r.orders == s.orders && r.currentOrder == s.currentOrder && r.pagination == s.pagination
  {
  }

  /** `createOrder.fulfilled` appends the order and makes it the current one. */
  lemma CreateOrderAppends(s: OrderState, o: Order)
    ensures var r := Reduce(s, CreateOrderFulfilled(o));
      && r.currentOrder == Some(o) && |r.orders| == |s.orders| + 1
      && r.orders[..|s.orders|] == s.orders && r.orders[|s.orders|] == o
      && r.pagination == s.pagination && !r.isLoading
  {
  }

  /** The customer listing replaces the orders and leaves the pagination; the
      administrator listing replaces both. */
  lemma FetchOrdersReplaces(s: OrderState, os: seq<Order>, pg: PaginationData)
    ensures var r := Reduce(s, FetchUserOrdersFulfilled(os));
      r.orders == os && r.pagination == s.pagination && !r.isLoading
    ensures var r := Reduce(s, FetchAllOrdersFulfilled(os, pg));
      r.orders == os && r.pagination == Some(pg) && !r.isLoading
  {
  }

  /** `updateOrderStatus.fulfilled` replaces the first order with the payload's
      id in place; the length and every other order are unchanged, and
      nothing changes when no order matches. */
  lemma UpdateOrderStatusReplaces(s: OrderState, o: Order)
    ensures var r := Reduce(s, UpdateOrderStatusFulfilled(o));
      && |r.orders| == |s.orders|
      && ((forall j :: 0 <= j < |s.orders| ==> s.orders[j].id != o.id) ==> r.orders == s.orders)
      && (forall j :: 0 <= j < |s.orders| ==>
            r.orders[j] == (if j == Lists.IndexOf(s.orders, OrderId, o.id) then o else s.orders[j]))
      && r.currentOrder == s.currentOrder
  {
    var i := Lists.IndexOf(s.orders, OrderId, o.id);
    if i == -1 {
      assert forall j :: 0 <= j < |s.orders| ==> OrderId(s.orders[j]) != o.id;
    }
  }
}
