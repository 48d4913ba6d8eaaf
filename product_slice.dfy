/** The product store: the catalogue page, the selected product, the filter
    object sent with every listing request, and the loading/error flags driven
    by the five product requests. */
module ProductSlice {
  import opened Wrappers
  import opened StoreTypes
  import Lists

  /** Prices are integer cents. */
  datatype Product = Product(
    id: int, name: string, description: string, img: string,
    price: int, category: string, stock: int)

  function ProductId(p: Product): int { p.id }

  /** The listing filters; `None` is an absent or `undefined` key. */
  datatype ProductFilters = ProductFilters(
    searchTerm: Option<string>,
    minPrice: Option<int>,
    maxPrice: Option<int>,
    category: Option<string>,
    outOfStock: Option<string>,
    sortBy: Option<string>,
    sortOrder: Option<SortOrder>,
    page: Option<int>,
    limit: Option<int>)

  /** A partial filter object: per key, `None` when the key is absent and
      `Some(v)` when it is present with value `v` (possibly `undefined`). */
  datatype FilterPatch = FilterPatch(
    searchTerm: Option<Option<string>>,
    minPrice: Option<Option<int>>,
    maxPrice: Option<Option<int>>,
    category: Option<Option<string>>,
    outOfStock: Option<Option<string>>,
    sortBy: Option<Option<string>>,
    sortOrder: Option<Option<SortOrder>>,
    page: Option<Option<int>>,
    limit: Option<Option<int>>)

  /** The empty payload `{}`. */
  const NoKeys := FilterPatch(None, None, None, None, None, None, None, None, None)

  /** Search term "", page 1, everything else undefined. */
  const InitialFilters :=
    ProductFilters(Some(""), None, None, None, None, None, None, Some(1), None)

  /** `{ ...filters, ...patch }`. */
  function MergeFilters(f: ProductFilters, p: FilterPatch): ProductFilters
  {
    ProductFilters(
      Assign(f.searchTerm, p.searchTerm),
      Assign(f.minPrice, p.minPrice),
      Assign(f.maxPrice, p.maxPrice),
      Assign(f.category, p.category),
      Assign(f.outOfStock, p.outOfStock),
      Assign(f.sortBy, p.sortBy),
      Assign(f.sortOrder, p.sortOrder),
      Assign(f.page, p.page),
      Assign(f.limit, p.limit))
  }

  /** `{ ...first, ...second }` of two payloads. */
  function ThenPatch(first: FilterPatch, second: FilterPatch): FilterPatch
  {
    FilterPatch(
      Then(first.searchTerm, second.searchTerm),
      Then(first.minPrice, second.minPrice),
      Then(first.maxPrice, second.maxPrice),
      Then(first.category, second.category),
      Then(first.outOfStock, second.outOfStock),
      Then(first.sortBy, second.sortBy),
      Then(first.sortOrder, second.sortOrder),
      Then(first.page, second.page),
      Then(first.limit, second.limit))
  }

  datatype ProductThunk = FetchProducts | FetchProductById | CreateProduct | UpdateProduct | DeleteProduct

  /** The message each rejected case falls back to. */
  function DefaultError(t: ProductThunk): (r: string)
    ensures r != ""
  {
    match t
    case FetchProducts => "Failed to fetch products"
    case FetchProductById => "Failed to fetch product"
    case CreateProduct => "Failed to create product"
    case UpdateProduct => "Failed to update product"
    case DeleteProduct => "Failed to delete product"
  }

  datatype ProductState = ProductState(
    products: seq<Product>,
    error: Option<string>,
    loading: bool,
    pagination: Option<PaginationData>,
    selectedProduct: Option<Product>,
    filters: ProductFilters)

  const InitialState := ProductState([], None, false, None, None, InitialFilters)

  /** The `updateFilters` reducer and the outcome events of the five requests.
      A rejected event carries the thrown error's `message`, if any. */
  datatype ProductAction =
    | UpdateFilters(patch: FilterPatch)
    | Pending(thunk: ProductThunk)
    | Rejected(thunk: ProductThunk, message: Option<string>)
    | FetchProductsFulfilled(products: seq<Product>, pagination: PaginationData)
    | FetchProductByIdFulfilled(product: Product)
    | CreateProductFulfilled(product: Product)
    | UpdateProductFulfilled(product: Product)
    | DeleteProductFulfilled(id: int)

  /** True when `sel` holds a product with this id (`selectedProduct?.id === id`). */
  predicate SelectedIs(sel: Option<Product>, id: int)
  {
    sel.Some? && sel.value.id == id
  }

  function Reduce(s: ProductState, a: ProductAction): ProductState
  {
    match a
    case UpdateFilters(patch) => s.(filters := MergeFilters(s.filters, patch))
    case Pending(_) => s.(loading := true, error := None)
    case Rejected(t, message) => s.(loading := false, error := Some(MessageOr(message, DefaultError(t))))
    case FetchProductsFulfilled(products, pagination) =>
      s.(loading := false, products := products, pagination := Some(pagination))
    case FetchProductByIdFulfilled(p) => s.(loading := false, selectedProduct := Some(p))
    case CreateProductFulfilled(p) => s.(loading := false, products := s.products + [p])
    case UpdateProductFulfilled(p) =>
      s.(loading := false,
         products := Lists.ReplaceFirst(s.products, ProductId, p),
         selectedProduct := if SelectedIs(s.selectedProduct, p.id) then Some(p) else s.selectedProduct)
    case DeleteProductFulfilled(id) =>
      s.(loading := false,
         products := Lists.RemoveAll(s.products, ProductId, id),
         selectedProduct := if SelectedIs(s.selectedProduct, id) then None else s.selectedProduct)
  }

  /** The store object; every dispatched action updates its fields in place. */
  class ProductStore {
    var products: seq<Product>
    var error: Option<string>
    var loading: bool
    var pagination: Option<PaginationData>
    var selectedProduct: Option<Product>
    var filters: ProductFilters

    function State(): ProductState
      reads this
    {
      ProductState(products, error, loading, pagination, selectedProduct, filters)
    }

    constructor ()
      ensures State() == InitialState
    {
      products := [];
      error := None;
      loading := false;
      pagination := None;
      selectedProduct := None;
      filters := InitialFilters;
    }

    method Dispatch(a: ProductAction)
      modifies this
      ensures State() == Reduce(old(State()), a)
    {
      match a
      case UpdateFilters(patch) =>
        filters := MergeFilters(filters, patch);
      case Pending(_) =>
        loading := true;
        error := None;
      case Rejected(t, message) =>
        loading := false;
        error := Some(MessageOr(message, DefaultError(t)));
      case FetchProductsFulfilled(ps, pg) =>
        loading := false;
        products := ps;
        pagination := Some(pg);
      case FetchProductByIdFulfilled(p) =>
        loading := false;
        selectedProduct := Some(p);
      case CreateProductFulfilled(p) =>
        loading := false;
        products := products + [p];
      case UpdateProductFulfilled(p) =>
        loading := false;
        var index := Lists.IndexOf(products, ProductId, p.id);
        if index != -1 {
          products := products[index := p];
        }
        if SelectedIs(selectedProduct, p.id) {
          selectedProduct := Some(p);
        }
      case DeleteProductFulfilled(id) =>
        loading := false;
        products := Lists.RemoveAll(products, ProductId, id);
        if SelectedIs(selectedProduct, id) {
          selectedProduct := None;
        }
    }
  }

  /** The shallow merge: a key present in the payload overwrites, even with
      `undefined`; an absent key keeps its value; nothing else is reset. */
  lemma MergeFiltersKeys(f: ProductFilters, p: FilterPatch)
    ensures var r := MergeFilters(f, p);
      && (p.searchTerm.Some? ==> r.searchTerm == p.searchTerm.value)
      && (p.searchTerm.None? ==> r.searchTerm == f.searchTerm)
      && (p.minPrice.Some? ==> r.minPrice == p.minPrice.value)
      && (p.minPrice.None? ==> r.minPrice == f.minPrice)
      && (p.maxPrice.Some? ==> r.maxPrice == p.maxPrice.value)
      && (p.maxPrice.None? ==> r.maxPrice == f.maxPrice)
      && (p.category.Some? ==> r.category == p.category.value)
      && (p.category.None? ==> r.category == f.category)
      && (p.outOfStock.Some? ==> r.outOfStock == p.outOfStock.value)
      && (p.outOfStock.None? ==> r.outOfStock == f.outOfStock)
      && (p.sortBy.Some? ==> r.sortBy == p.sortBy.value)
      && (p.sortBy.None? ==> r.sortBy == f.sortBy)
      && (p.sortOrder.Some? ==> r.sortOrder == p.sortOrder.value)
      && (p.sortOrder.None? ==> r.sortOrder == f.sortOrder)
      && (p.page.Some? ==> r.page == p.page.value)
      && (p.page.None? ==> r.page == f.page)
      && (p.limit.Some? ==> r.limit == p.limit.value)
      && (p.limit.None? ==> r.limit == f.limit)
  {
  }

  /** The empty payload changes nothing, merging is idempotent, and two merges
      in a row are one merge of the combined payload. */
  lemma MergeFiltersAlgebra(f: ProductFilters, p: FilterPatch, q: FilterPatch)
    ensures MergeFilters(f, NoKeys) == f
    ensures MergeFilters(MergeFilters(f, p), p) == MergeFilters(f, p)
    ensures MergeFilters(MergeFilters(f, p), q) == MergeFilters(f, ThenPatch(p, q))
  {
  }

  /** `updateFilters` changes only `filters`, and never touches the page
      unless the payload names it. */
  lemma UpdateFiltersOnlyFilters(s: ProductState, p: FilterPatch)
    ensures var r := Reduce(s, UpdateFilters(p));
      && r == s.(filters := r.filters)
      && (p.page.None? ==> r.filters.page == s.filters.page)
  {
  }

  /** Every pending case raises `loading` and clears `error`, nothing else. */
  lemma PendingClearsError(s: ProductState, t: ProductThunk)
    ensures var r := Reduce(s, Pending(t));
      r.loading && r.error.None? && r == s.(loading := true, error := None)
  {
  }

  /** Every rejected case lowers `loading` and records a non-empty message:
      the error's own message, or that case's default when it has none. */
  lemma RejectedRecordsMessage(s: ProductState, t: ProductThunk, message: Option<string>)
    ensures var r := Reduce(s, Rejected(t, message));
      && !r.loading && r.error.Some? && r.error.value != ""
      && (message.Some? && message.value != "" ==> r.error.value == message.value)
      && (message.None? || message.value == "" ==> r.error.value == DefaultError(t))
      && r.products == s.products && r.selectedProduct == s.selectedProduct && r.filters == s.filters
  {
  }

  /** `fetchProducts.fulfilled` replaces the products and the pagination wholesale. */
  lemma FetchProductsReplaces(s: ProductState, ps: seq<Product>, pg: PaginationData)
    ensures var r := Reduce(s, FetchProductsFulfilled(ps, pg));
      !r.loading && r.products == ps && r.pagination == Some(pg)
      && r.error == s.error && r.selectedProduct == s.selectedProduct && r.filters == s.filters
  {
  }

  /** `fetchProductById.fulfilled` sets the selected product and leaves the list. */
  lemma FetchProductByIdSelects(s: ProductState, p: Product)
    ensures var r := Reduce(s, FetchProductByIdFulfilled(p));
      !r.loading && r.selectedProduct == Some(p) && r.products == s.products
  {
  }

  /** `createProduct.fulfilled` appends exactly one product at the end. */
  lemma CreateProductAppends(s: ProductState, p: Product)
    ensures var r := Reduce(s, CreateProductFulfilled(p));
      && |r.products| == |s.products| + 1
      && r.products[..|s.products|] == s.products
      && r.products[|s.products|] == p
      && r.selectedProduct == s.selectedProduct
  {
  }

  /** `updateProduct.fulfilled` replaces the first product with the payload's
      id and no other, keeps the length, and leaves the list alone when no
      product matches; the selected product follows only when its id matches. */
  lemma UpdateProductReplacesFirst(s: ProductState, p: Product)
    ensures var r := Reduce(s, UpdateProductFulfilled(p));
      && |r.products| == |s.products|
      && ((forall j :: 0 <= j < |s.products| ==> s.products[j].id != p.id) ==> r.products == s.products)
      && (forall j :: 0 <= j < |s.products| ==>
            r.products[j] == (if j == Lists.IndexOf(s.products, ProductId, p.id) then p else s.products[j]))
      && (SelectedIs(s.selectedProduct, p.id) ==> r.selectedProduct == Some(p))
      && (!SelectedIs(s.selectedProduct, p.id) ==> r.selectedProduct == s.selectedProduct)
  {
    var i := Lists.IndexOf(s.products, ProductId, p.id);
    if i == -1 {
      assert forall j :: 0 <= j < |s.products| ==> ProductId(s.products[j]) != p.id;
    }
  }

  /** `deleteProduct.fulfilled` removes every product with the id, keeps every
      other product, and clears the selected product only when its
      id matches. */
  lemma DeleteProductRemovesAll(s: ProductState, id: int)
    ensures var r := Reduce(s, DeleteProductFulfilled(id));
      && (forall j :: 0 <= j < |r.products| ==> r.products[j].id != id)
      && (forall j :: 0 <= j < |s.products| && s.products[j].id != id ==> s.products[j] in r.products)
      && (forall j :: 0 <= j < |r.products| ==> r.products[j] in s.products)
      && (SelectedIs(s.selectedProduct, id) ==> r.selectedProduct.None?)
      && (!SelectedIs(s.selectedProduct, id) ==> r.selectedProduct == s.selectedProduct)
  {
    var r := Lists.RemoveAll(s.products, ProductId, id);
    assert forall j :: 0 <= j < |r| ==> ProductId(r[j]) != id;
  }
}
