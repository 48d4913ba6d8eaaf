# Storefront state and page logic, modelled in Dafny

This project models the client side of an online shop: a React single-page
application whose state lives in five Redux slices (products, cart, checkout,
auth, orders), together with the page handlers that turn clicks and inputs
into actions on those slices.

The model is built as follows:

- **Slices.** Each slice is a module with:
  - a `datatype` for its state;
  - a `datatype` of its actions: the plain reducers, plus the pending,
    fulfilled and rejected events of each asynchronous request;
  - a pure `Reduce` function that specifies what every action does;
  - a `class` store with the slice's own fields, whose `Dispatch` method
    updates those fields in place, as the slice's mutating reducers do. Its
    contract ties the new state to `Reduce` applied to the old state.
- **Lemmas about `Reduce`.** These state what each reducer promises:
  - the cart's running totals stay equal to the sums over its lines;
  - line ids stay unique;
  - a present key of a filter payload overwrites, even with `undefined`, and
    an absent key keeps its value;
  - `findIndex`-based updates replace exactly the first match;
  - `filter`-based deletes remove every match;
  - rejected requests record a non-empty message, except where a request
    reads `error.response?.data.message`: a null response body then makes
    the `catch` block throw, and no error is recorded.
- **Page handlers.** These are modelled as the payloads they dispatch:
  - the storefront's three-state sort cycle and the administrator's two-state
    toggle;
  - which handlers reset the page;
  - the cart's quantity guard and checkout routing;
  - the route guard;
  - the pagination window.
- **Two imperative page operations.**
  - The product page's add-to-cart loop dispatches `addToCart` `quantity`
    times. It is proved against `AddRepeatedly`, a function, and a lemma
    proves what `quantity` additions do to the cart.
  - The payment-return handler validates the return URL and the stored
    address, builds the order payload from the cart, and then either clears
    the cart and resets the checkout (success) or keeps both and shows an
    error (failure).

Conventions:

- Prices and totals are integers (cents).
- A JavaScript `null` or `undefined` is `None`.
- A partial payload has one `Option<Option<T>>` per key: `None` when the key
  is absent, `Some(None)` when the key is present with the value `undefined`.
- `Number(...)` is a parameter, `toNumber: string -> int`.

`updateFilters` does not reset the page. The storefront and administrator
product handlers send `page: 1` themselves, and the order handlers send no
page.

One behaviour of the code as written is stated as a lemma rather than
corrected: `CheckoutSuccess.RerunAfterSuccessSendsEmptyOrder`. After a
successful order the cart is empty. The checkout reset keeps the shipping
address, and the payment-return handler's effect depends on the cart's
items. So when the payment check runs again, it passes once more and builds a payload
with no items and a total of 0.

## Model

| member | source | states |
|---|---|---|
| `StoreTypes.AssignThen` | src/store/slices/productSlice.ts:129-134 | Two shallow merges in a row equal one merge of the combined payload, per key. |
| `StoreTypes.MessageOr` | src/store/slices/productSlice.ts:147-150 | A present, non-empty message is used, and a missing or empty one gives the fallback. |
| `StoreTypes.RejectValue` | src/store/slices/orderSlice.ts:113-120 | With `error.response?.data?.message`, the rejection value is the server's non-empty message for an HTTP-client error, the HTTP fallback when that message is missing or empty or the body is null, and the other fallback for any other error. It is never empty when both fallbacks are non-empty. |
| `StoreTypes.RejectValueUnguarded` | src/store/slices/authSlice.ts:44-50 | With `error.response?.data.message`, a null body leaves the rejected action without a payload, and every other failure gives the same value as `RejectValue`. |
| `Lists.IndexOf` | src/store/slices/cartSlice.ts:39-41 | `findIndex`: the result is -1 exactly when no element has the key; otherwise it is an index whose key matches, and no earlier element matches. |
| `Lists.ReplaceFirst` | src/store/slices/productSlice.ts:184-189 | An `if (index !== -1) s[index] = x` update keeps the length, changes nothing when no key matches, and otherwise replaces the first match only. |
| `Lists.RemoveAll` | src/store/slices/productSlice.ts:205 | `filter(p => p.id !== id)`: no element with the id is left, every other element is kept, nothing new appears, and nothing changes when no element matches. |
| `Lists.RemoveAllAppend` | src/store/slices/productSlice.ts:205 | Filtering a concatenation is the concatenation of the filtered parts. |
| `ProductSlice.DefaultError` | src/store/slices/productSlice.ts:147-213 | Each product request's fallback error message is non-empty. |
| `ProductSlice.ProductStore.constructor` | src/store/slices/productSlice.ts:43-58 | A new store holds the initial state: no products, no error, not loading, no pagination, no selection, search term "" and page 1. |
| `ProductSlice.ProductStore.Dispatch` | src/store/slices/productSlice.ts:125-215 | Each action changes the store's fields to exactly the `Reduce` of the old state. |
| `ProductSlice.MergeFiltersKeys` | src/store/slices/productSlice.ts:129-134 | `{ ...filters, ...payload }`: a present key overwrites, even with `undefined`; an absent key keeps its value; and no key is reset, the page included. |
| `ProductSlice.MergeFiltersAlgebra` | src/store/slices/productSlice.ts:129-134 | The empty payload is a no-op, merging the same payload twice is merging it once, and two merges equal one merge of the combined payload. |
| `ProductSlice.UpdateFiltersOnlyFilters` | src/store/slices/productSlice.ts:129-134 | `updateFilters` changes only `filters`, and leaves the page unless the payload names it. |
| `ProductSlice.PendingClearsError` | src/store/slices/productSlice.ts:138-141 | Every pending event sets `loading` and clears `error`, and changes nothing else. |
| `ProductSlice.RejectedRecordsMessage` | src/store/slices/productSlice.ts:147-150 | Every rejected event clears `loading` and records the error's own non-empty message, or else the request's fallback. Products, selection and filters are untouched. |
| `ProductSlice.FetchProductsReplaces` | src/store/slices/productSlice.ts:142-146 | The list fetch replaces both the products and the pagination with the payload's. |
| `ProductSlice.FetchProductByIdSelects` | src/store/slices/productSlice.ts:156-159 | Fetching one product selects it and leaves the list alone. |
| `ProductSlice.CreateProductAppends` | src/store/slices/productSlice.ts:169-172 | Creating a product appends it at the end and keeps every earlier product. |
| `ProductSlice.UpdateProductReplacesFirst` | src/store/slices/productSlice.ts:182-193 | Updating a product replaces only the first product with its id, or nothing when no product has that id. The selected product is replaced only when its id matches. |
| `ProductSlice.DeleteProductRemovesAll` | src/store/slices/productSlice.ts:203-209 | Deleting a product leaves no product with its id, keeps every other product, and clears the selection only when the selected product's id matches. |
| `CartSlice.CartStore.constructor` | src/store/slices/cartSlice.ts:14-18 | A new cart holds no lines and totals of 0. |
| `CartSlice.CartStore.Dispatch` | src/store/slices/cartSlice.ts:23-65 | Each action changes the items and totals to exactly the `Reduce` of the old state. |
| `CartSlice.SumsAppend` | src/store/slices/cartSlice.ts:32 | Each of the quantity, price and per-id sums of a concatenation is the sum of the two parts. |
| `CartSlice.SumsSplit` | src/store/slices/cartSlice.ts:47 | Removing line `i` takes exactly that line's quantity and subtotal off the sums. |
| `CartSlice.SumsUpdate` | src/store/slices/cartSlice.ts:59 | Replacing line `i` changes each sum by the difference between the new line and the old one. |
| `CartSlice.QuantityOfAbsent` | src/store/slices/cartSlice.ts:25-27 | A product with no line has a summed quantity of 0. |
| `CartSlice.QuantityOfUnique` | src/store/slices/cartSlice.ts:55 | With unique ids, a product's summed quantity is the quantity on its one line. |
| `CartSlice.AddToCartEffect` | src/store/slices/cartSlice.ts:24-37 | `addToCart` raises totalItems by 1 and totalPrice by the payload's price. An id not in the cart appends a line of quantity 1; a known id appends nothing and keeps every line's product. The product's quantity rises by exactly 1 and no other product's quantity changes. |
| `CartSlice.AddToCartKeepsUniqueIds` | src/store/slices/cartSlice.ts:24-33 | `addToCart` keeps line ids unique. |
| `CartSlice.AddToCartKeepsPriceAgrees` | src/store/slices/cartSlice.ts:24-33 | `addToCart` keeps the stored price of the product's line equal to the product's price. |
| `CartSlice.AddToCartPreservesTotals` | src/store/slices/cartSlice.ts:24-37 | `addToCart` keeps the totals equal to the sums over the lines, provided the added product's price is the one stored on its line. |
| `CartSlice.RemoveFromCartEffect` | src/store/slices/cartSlice.ts:38-49 | Removing an unknown id changes nothing. Removing a known id splices out its first line, keeps the other lines in order, and takes that line's quantity and subtotal off the totals. |
| `CartSlice.RemoveFromCartPreserves` | src/store/slices/cartSlice.ts:38-49 | Removal keeps the totals consistent and the ids unique. With unique ids, no line for the removed id is left. |
| `CartSlice.UpdateQuantityEffect` | src/store/slices/cartSlice.ts:50-63 | Updating an unknown id changes nothing. Otherwise the first matching line gets exactly the requested quantity, with no lower bound. No line is added, removed or reordered, and no other product's quantity changes. |
| `CartSlice.UpdateQuantityPreservesTotals` | src/store/slices/cartSlice.ts:50-63 | `updateQuantity` keeps the totals equal to the sums over the lines. |
| `CartSlice.ClearCartEmpties` | src/store/slices/cartSlice.ts:64 | `clearCart` gives the empty cart with totals of 0. |
| `CartSlice.ReducePreservesInvariant` | src/store/slices/cartSlice.ts:23-65 | Every cart action keeps consistent totals and unique ids, provided an added product's price agrees with its stored line. |
| `CheckoutSlice.CheckoutStore.constructor` | src/store/slices/checkoutSlice.ts:23-29 | A new checkout store holds no address, no secret, no error and cleared flags. |
| `CheckoutSlice.CheckoutStore.Dispatch` | src/store/slices/checkoutSlice.ts:57-95 | Each action changes the fields to exactly the `Reduce` of the old state. |
| `CheckoutSlice.SetShippingAddressOnly` | src/store/slices/checkoutSlice.ts:61-62 | `setShippingAddress` changes the address and nothing else. |
| `CheckoutSlice.ResetCheckoutKeepsAddress` | src/store/slices/checkoutSlice.ts:71-75 | `resetCheckout` clears the flags, the error and the client secret but keeps the shipping address. Applying it twice is applying it once. |
| `CheckoutSlice.PaymentIntentRejection` | src/store/slices/checkoutSlice.ts:46-52 | The rejection value is the server's non-empty message for an HTTP-client error, and "Failed to create payment intent" when that message is missing or empty, the body is null, or the error is not an HTTP-client error. |
| `CheckoutSlice.PaymentIntentEvents` | src/store/slices/checkoutSlice.ts:81-93 | Pending sets loading and clears the error; fulfilled stores the client secret; rejected records the rejection value as the error, which is non-empty, and keeps the secret. None of them touches the address. |
| `AuthSlice.Rejection` | src/store/slices/authSlice.ts:44-69 | The payload is missing exactly after a null body. Otherwise it is non-empty: the server's non-empty message, else "Login failed" or "Registration failed" for an HTTP-client error, and "An unknown error occurred" for any other error. |
| `AuthSlice.AuthStore.constructor` | src/store/slices/authSlice.ts:22-28 | A new auth store has no user, token "", not authenticated, loading, and no error. |
| `AuthSlice.AuthStore.Dispatch` | src/store/slices/authSlice.ts:73-125 | Each action changes the fields to exactly the `Reduce` of the old state. |
| `AuthSlice.LogoutKeepsToken` | src/store/slices/authSlice.ts:77-84 | `logout` signs out and clears the flags and the error, but keeps the token. |
| `AuthSlice.PendingOnlyFlags` | src/store/slices/authSlice.ts:88-91 | A pending login or registration sets loading, clears the error, and changes nothing else. |
| `AuthSlice.FulfilledSignsIn` | src/store/slices/authSlice.ts:110-117 | A fulfilled login or registration signs in with the payload's user and token. |
| `AuthSlice.RejectedKeepsToken` | src/store/slices/authSlice.ts:118-123 | A rejected login or registration signs out, keeps the token and records the rejection payload: a non-empty error, or no error after a null body. |
| `OrderSlice.Rejection` | src/store/slices/orderSlice.ts:113-193 | The payload prefers the server's non-empty message. Otherwise `createOrder` gives "Failed to create order" and `fetchUserOrders` "Failed to fetch orders". `fetchAllOrders` and `updateOrderStatus` give "Failed to fetch orders" or "Failed to update order status" for an HTTP-client error, "An unknown error occurred" for any other error, and no payload after a null body. Every present payload is non-empty. |
| `OrderSlice.OrderStore.constructor` | src/store/slices/orderSlice.ts:84-101 | A new order store has no orders, page 1 of 10, and sorts newest first. |
| `OrderSlice.OrderStore.Dispatch` | src/store/slices/orderSlice.ts:197-265 | Each action changes the fields to exactly the `Reduce` of the old state. |
| `OrderSlice.MergeFiltersKeys` | src/store/slices/orderSlice.ts:201-206 | Present keys overwrite, `undefined` included; absent keys keep their values; and the empty payload is a no-op. |
| `OrderSlice.PendingAndRejectedFlags` | src/store/slices/orderSlice.ts:210-222 | Pending sets loading and clears the error. Rejected clears loading and records the request's rejection payload, which is missing only for the administrator listing and the status update after a null body. Neither touches the orders. |
| `OrderSlice.CreateOrderAppends` | src/store/slices/orderSlice.ts:214-218 | A created order is appended and becomes the current order. |
| `OrderSlice.FetchOrdersReplaces` | src/store/slices/orderSlice.ts:227-243 | The customer listing replaces the orders and keeps the pagination; the administrator listing replaces both. |
| `OrderSlice.UpdateOrderStatusReplaces` | src/store/slices/orderSlice.ts:252-260 | A status update replaces only the first order with its id, or nothing when no order has it, and leaves the current order alone. |
| `Pagination.GetPageNumbers` | src/components/Pagination.tsx:16-33 | The loop yields the page window. Every page in it is within [1, totalPages]. On a valid current page the window has min(5, totalPages) pages and includes the current page. |
| `Pagination.WindowInRange` | src/components/Pagination.tsx:16-33 | For any inputs the window is at most 5 consecutive ascending pages, all within [1, totalPages]. |
| `Pagination.WindowAroundCurrent` | src/components/Pagination.tsx:21-26 | For 1 <= current <= total, the window holds min(5, total) pages and contains the current page. |
| `Pagination.WindowExamples` | src/components/Pagination.tsx:16-33 | Sample windows: the window at the start, at the end and in the middle of 20 pages, and for 3 pages. |
| `Pagination.RenderButtons` | src/components/Pagination.tsx:35-91 | Nothing renders exactly when totalPages <= 1. Otherwise First and Previous are disabled exactly on page 1, and Next and Last exactly on the last page or when `isNextDisabled` is set. The four buttons target 1, current - 1, current + 1 and totalPages. |
| `Pagination.EnabledButtonsStayInRange` | src/components/Pagination.tsx:39-91 | On a valid page, every enabled button and every page button targets a page within [1, totalPages]. |
| `PrivateRoute.Decide` | src/components/PrivateRoute.tsx:19-29 | Each outcome holds in exactly its own case: nothing while loading; the login redirect when not authenticated; the home redirect for a user whose role is not allowed; the children otherwise. |
| `PrivateRoute.ExactlyOneOutcome` | src/components/PrivateRoute.tsx:19-29 | The guard always gives one of its four outcomes. |
| `PrivateRoute.GuardAfterAuthEvents` | src/components/PrivateRoute.tsx:19-29 | Against the auth store: nothing is shown in the initial state; logout and a rejected login redirect to "/login"; a fulfilled login renders the children exactly for an allowed role and otherwise redirects to "/". |
| `ProductsPage.HandleSort` | src/pages/ProductsPage.tsx:44-66 | The sort payload names only sortBy, sortOrder and page 1. sortBy is cleared exactly when the order is cleared, and is otherwise the clicked field. |
| `ProductsPage.CurrentPage` | src/pages/ProductsPage.tsx:171 | An absent page or page 0 shows as page 1, and any other page as itself. |
| `ProductsPage.SortCycle` | src/pages/ProductsPage.tsx:44-66 | After the merge: another field starts ascending, ascending turns descending, descending clears the sort, and a missing order starts ascending. The page is 1 in every case. |
| `ProductsPage.ThreeClicksUnsort` | src/pages/ProductsPage.tsx:44-66 | From any state not sorted by the field, three clicks go ascending, then descending, then unsorted, and leave search, category and price filters as they were. |
| `ProductsPage.HandlersResetPage` | src/pages/ProductsPage.tsx:29-70 | Search, price, category and sort payloads carry page 1. A page change sends only the page, and the merge sets exactly that page. |
| `ProductsPage.PriceConversion` | src/pages/ProductsPage.tsx:33-37 | "" stores `undefined` and anything else `Number(value)`, under the input's own bound. The other bound is untouched and the page is 1. |
| `ProductsPage.CategoryConversion` | src/pages/ProductsPage.tsx:39-42 | "" clears the category and any other value is stored; the page is 1. |
| `AdminProductsPage.SortMatchesStorefront` | src/pages/admin/ProductsPage.tsx:100-122 | The administrator's own sort handler dispatches, for every state and field, the same payload as the storefront's, including page 1. |
| `AdminProductsPage.FilterChangeStores` | src/pages/admin/ProductsPage.tsx:53-61 | A filter select stores its value under its own key ("" as `undefined`) and resets the page to 1. The "All Categories" option sends the literal "all", which stays stored and still shows as "all". |
| `AdminProductsPage.InputChangeOneField` | src/pages/admin/ProductsPage.tsx:41-51 | Only the named field of the draft changes. Only price and stock go through `Number`; every other field is stored verbatim. |
| `AdminProductsPage.DraftAfterSubmit` | src/pages/admin/ProductsPage.tsx:67-82 | After a successful create the draft is blank with the first category, "smartphone"; after a failed one it is kept as typed. |
| `AdminProductsPage.ApplyUpdates` | src/pages/admin/ProductsPage.tsx:31 | After a run of `setDeleteError` calls the error state is the last call's value, or unchanged when there was none. |
| `AdminProductsPage.DeleteUpdates` | src/pages/admin/ProductsPage.tsx:84-97 | `handleDelete` first clears the error, and makes a second call exactly when the delete fails. |
| `AdminProductsPage.DeleteErrorAfter` | src/pages/admin/ProductsPage.tsx:84-97 | After a delete attempt there is no error on success. On failure the error is the server's non-empty message for an HTTP-client error, and "Failed to delete product" when that message is missing or empty, the body is null, or the error is not an HTTP-client error. |
| `AdminProductsPage.DeleteErrorForgetsPrevious` | src/pages/admin/ProductsPage.tsx:84-97 | Because the error is cleared before each attempt, the error shown afterwards does not depend on the previous one. |
| `AdminOrdersPage.SortToggle` | src/pages/admin/OrdersPage.tsx:58-68 | The result is descending exactly when the listing is already ascending on the field, and ascending otherwise. sortBy is always the field, and nothing else changes. |
| `AdminOrdersPage.SortFromInitial` | src/pages/admin/OrdersPage.tsx:58-68 | From the initial newest-first filters, clicking "createdAt" gives ascending, and a second click returns to the initial filters. |
| `AdminOrdersPage.StatusConversion` | src/pages/admin/OrdersPage.tsx:47-50 | A status of "" clears the filter and any other value is stored; nothing else changes. |
| `AdminOrdersPage.TotalConversion` | src/pages/admin/OrdersPage.tsx:52-56 | A total of "" clears that bound, and anything else stores `Number(value)` under the input's own name; nothing else changes. |
| `AdminOrdersPage.HandlersKeepPage` | src/pages/admin/OrdersPage.tsx:47-68 | None of the three handlers changes the page. |
| `CartPage.HandleUpdateQuantity` | src/pages/Cart.tsx:23-27 | An update is dispatched exactly when the new quantity is positive, and then carries that id and quantity. |
| `CartPage.MinusAtOneDoesNothing` | src/pages/Cart.tsx:69-71 | "−" on a line of quantity 1 dispatches nothing, so the cart is unchanged. |
| `CartPage.PlusAddsOne` | src/pages/Cart.tsx:78-80 | "+" requests quantity + 1 for the line's id. With unique ids and consistent totals, exactly that line goes up by 1, totalItems by 1 and totalPrice by its price. |
| `CartPage.RemoveUsesLineId` | src/pages/Cart.tsx:19-21 | "Remove" dispatches `removeFromCart` with the line's own id. With unique ids, no line for that product is left. |
| `CartPage.UiActionsKeepQuantitiesPositive` | src/pages/Cart.tsx:69-86 | The line buttons, adding a product and clearing the cart all keep every line's quantity at least 1. |
| `CartPage.CheckoutRoute` | src/pages/Cart.tsx:29-32 | Checkout leads to "/login" exactly when there is no user, and to "/checkout" exactly when there is one. |
| `CartPage.CheckoutRouteAfterAuth` | src/pages/Cart.tsx:29-32 | Before sign-in and after logout, checkout leads to "/login"; after a fulfilled login with a user, to "/checkout". |
| `ProductDetail.HandleAddToCart` | src/pages/ProductDetail.tsx:24-30 | With no product loaded the cart is unchanged. Otherwise the cart becomes the result of `quantity` `addToCart` dispatches, and none when quantity <= 0. |
| `ProductDetail.AddRepeatedlyEffect` | src/pages/ProductDetail.tsx:24-30 | Adding `n >= 0` times raises the product's quantity and totalItems by n and totalPrice by n times the price. No other product changes. Consistent totals, agreeing prices and unique ids are kept. `n <= 0` changes nothing. |
| `ProductDetail.InitialQuantityAddsOne` | src/pages/ProductDetail.tsx:16 | With the initial quantity of 1, a click adds exactly one of the product. |
| `ProductDetail.StockDisplay` | src/pages/ProductDetail.tsx:75-106 | The count is shown exactly when stock > 0: green above 10, yellow from 1 to 10. Red goes with "Out of Stock". The button is disabled exactly at stock 0, and a negative stock shows "Out of Stock" with the button enabled. |
| `CheckoutSuccess.VerifyReturn` | src/pages/CheckoutSuccess.tsx:19-31 | "Payment verification failed" exactly when the payment intent is missing or empty or the status is not "succeeded". "Shipping address not found" exactly when the payment passes but there is no address. Success, with the intent id and the address, exactly when both pass. |
| `CheckoutSuccess.ToOrderItems` | src/pages/CheckoutSuccess.tsx:35-39 | Each cart line maps, in order and one for one, to its product id, quantity and price. |
| `CheckoutSuccess.OrderPayload` | src/pages/CheckoutSuccess.tsx:33-44 | The payload holds one item per cart line with the same id, quantity and price. totalAmount is the cart's totalPrice, the status is "completed", and the intent id and address are the ones given. |
| `CheckoutSuccess.ToOrderItemsSums` | src/pages/CheckoutSuccess.tsx:35-39 | Mapping the lines keeps the sum of price times quantity and the sum of quantities. |
| `CheckoutSuccess.PayloadAgreesWithCart` | src/pages/CheckoutSuccess.tsx:33-44 | From a consistent cart, the payload's totalAmount equals the sum over its own items, and its items hold totalItems units. |
| `CheckoutSuccess.CreateOrderFromPayment` | src/pages/CheckoutSuccess.tsx:17-57 | A failed check shows its error and changes no store. Otherwise the payload is built from the cart and `createOrder` is dispatched. On success the order is stored, the cart is cleared, the checkout reset, and the error state left as it was, since the page never clears it. On failure the request's rejection is recorded, the error is "Failed to create your order. Please contact support." and the cart and checkout are kept. |
| `CheckoutSuccess.RerunAfterSuccessSendsEmptyOrder` | src/pages/CheckoutSuccess.tsx:45-60 | After a successful run, the reset keeps the address and the URL still passes. So a re-run of the effect builds a payload with no items and a total of 0. |

The administrator product page's `handlePageChange`
(src/pages/admin/ProductsPage.tsx:63-65) is the same function as the
storefront's and is modelled by `ProductsPage.HandlePageChange`.

## Left out

- Network I/O: the axios calls, headers and URLs are left out. Each request
  is modelled only by its pending, fulfilled and rejected events. Its payload
  and error are abstract parameters: `response` in
  `CheckoutSuccess.CreateOrderFromPayment`, and `RequestFailure` for what a `catch`
  block sees.
- `localStorage` writes and removals in the auth and checkout slices: storage
  side effects with no effect on the state.
- The 500 ms filter debounce and the 5 s redirect after a successful order:
  timing.
- The interleaving of concurrent requests and stale responses: each event
  is applied atomically.
- Floating-point prices, `NaN`, and `Number`/`parseInt` parsing: prices are
  integer cents and `Number` is the abstract parameter `toNumber`. A `NaN`
  quantity on the product page, for which the loop also runs zero times, is
  not modelled separately from quantity <= 0.
- JSX layout, CSS classes and sort icons: presentation only.
- The optional `product` field of an order item, and the server's `Order`
  fields beyond those the reducers read: never used by the logic modelled
  here.
- Which error `unwrap()` throws: it is a parameter. As a result,
  `AdminProductsPage.DeleteErrorAfter` lets the failure be an HTTP-client
  error carrying a message. `deleteProduct` does not use `rejectWithValue`,
  so that case may never occur.
- React effect scheduling: when a page's handler runs again is not modelled.
  `CheckoutSuccess.RerunAfterSuccessSendsEmptyOrder` states what such a
  re-run would send.
- `ProductSlice.ProductStore.Dispatch`: the pagination payload of
  `fetchProducts` is stored as present (`Some`). The thunk's payload is
  untyped, so a reply without `pagination` would store `undefined`; the model
  assumes the server always sends a pagination object.
- `Pagination.RenderButtons`: the optional `isNextDisabled` is taken as a
  `bool` after `Boolean(...)`, an absent prop being `false`.
- The administrator dashboard, the navigation bar, the checkout page's
  payment-provider setup and the purely presentational components: no state
  logic beyond layout.
