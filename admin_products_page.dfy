/** The administrator's product page: filter and sort handlers, the new
    product form, and the error shown after a failed delete. */
module AdminProductsPage {
  import opened Wrappers
  import opened StoreTypes
  import ProductSlice
  import ProductsPage

  type ProductFilters = ProductSlice.ProductFilters
  type FilterPatch = ProductSlice.FilterPatch

  /** This page's own `handleSort`, written out as the page writes it. */
  function HandleSort(filters: ProductFilters, field: string): FilterPatch
  {
    var newOrder: Option<SortOrder> :=
      if filters.sortBy != Some(field) then Some(Asc)
      else if filters.sortOrder == Some(Asc) then Some(Desc)
      else if filters.sortOrder == Some(Desc) then None
      else Some(Asc);
    ProductSlice.NoKeys.(
      sortBy := Some(if newOrder.Some? then Some(field) else None),
      sortOrder := Some(newOrder),
      page := Some(Some(1)))
  }

  /** It follows the storefront's asc, desc, cleared cycle, with `page: 1`. */
  lemma SortMatchesStorefront(filters: ProductFilters, field: string)
    ensures HandleSort(filters, field) == ProductsPage.HandleSort(filters, field)
    ensures HandleSort(filters, field).page == Some(Some(1))
  {
  }

  /** The `name` of the two filter selects. */
  datatype FilterSelect = CategorySelect | OutOfStockSelect

  /** `{ [name]: value === "" ? undefined : value, page: 1 }`. */
  function HandleFilterChange(name: FilterSelect, value: string): FilterPatch
  {
    var v := if value == "" then None else Some(value);
    match name
    case CategorySelect => ProductSlice.NoKeys.(category := Some(v), page := Some(Some(1)))
    case OutOfStockSelect => ProductSlice.NoKeys.(outOfStock := Some(v), page := Some(Some(1)))
  }

  /** What the category select shows: `filters.category || "all"`. */
  function SelectedCategory(filters: ProductFilters): string
  {
    if filters.category.Some? && filters.category.value != "" then filters.category.value else "all"
  }

  /** A filter select stores its value under its own key ("" as undefined) and
      resets the page; the "All Categories" option sends the literal "all",
      which is stored and does not clear the category. */
  lemma FilterChangeStores(f: ProductFilters, name: FilterSelect, value: string)
    ensures var r := ProductSlice.MergeFilters(f, HandleFilterChange(name, value));
      var v := if value == "" then None else Some(value);
      && r.page == Some(1)
      && (name == CategorySelect ==> r.category == v && r.outOfStock == f.outOfStock)
      && (name == OutOfStockSelect ==> r.outOfStock == v && r.category == f.category)
      && r.sortBy == f.sortBy && r.searchTerm == f.searchTerm
    ensures var r := ProductSlice.MergeFilters(f, HandleFilterChange(CategorySelect, "all"));
      r.category == Some("all") && SelectedCategory(r) == "all"
  {
  }

  /** The new-product form: a product without its id. */
  datatype ProductDraft = ProductDraft(
    name: string, description: string, price: int, category: string, img: string, stock: int)

  /** Blank fields, price and stock 0, the first category. */
  const BlankDraft := ProductDraft("", "", 0, "smartphone", "", 0)

  datatype DraftField = NameField | DescriptionField | PriceField | CategoryField | ImgField | StockField

  /** `handleInputChange`: price and stock go through `Number` (`toNumber`),
      every other field is stored verbatim. */
  function HandleInputChange(draft: ProductDraft, name: DraftField, value: string, toNumber: string -> int): ProductDraft
  {
    match name
    case NameField => draft.(name := value)
    case DescriptionField => draft.(description := value)
    case PriceField => draft.(price := toNumber(value))
    case CategoryField => draft.(category := value)
    case ImgField => draft.(img := value)
    case StockField => draft.(stock := toNumber(value))
  }

  /** Only the named field changes; only price and stock are converted. */
  lemma InputChangeOneField(d: ProductDraft, name: DraftField, value: string, toNumber: string -> int)
    ensures var r := HandleInputChange(d, name, value, toNumber);
      && (name == PriceField ==> r == d.(price := toNumber(value)))
      && (name == StockField ==> r == d.(stock := toNumber(value)))
      && (name == NameField ==> r == d.(name := value))
      && (name == DescriptionField ==> r == d.(description := value))
      && (name == CategoryField ==> r == d.(category := value))
      && (name == ImgField ==> r == d.(img := value))
      && (name != PriceField ==> r.price == d.price)
      && (name != StockField ==> r.stock == d.stock)
  {
  }

  /** The draft after `handleSubmit`: blank after a successful create, kept
      as typed after a failed one. */
  function DraftAfterSubmit(draft: ProductDraft, created: bool): (r: ProductDraft)
    ensures created ==> r == BlankDraft && r.category == "smartphone"
    ensures !created ==> r == draft
  {
    if created then BlankDraft else draft
  }

  /** A `setDeleteError` call. */
  datatype ErrorUpdate = SetDeleteError(value: Option<string>)

  /** The error state after a run of `setDeleteError` calls: the last call
      wins, and no call leaves the state as it was. */
  function ApplyUpdates(current: Option<string>, updates: seq<ErrorUpdate>): (r: Option<string>)
    ensures |updates| == 0 ==> r == current
    ensures |updates| > 0 ==> r == updates[|updates| - 1].value
    decreases |updates|
  {
    if |updates| == 0 then current else ApplyUpdates(updates[0].value, updates[1..])
  }

  /** The calls `handleDelete` makes: it clears the error before the
      attempt and, when the delete is rejected, sets the server's message
      (read as `error.response?.data?.message`) or "Failed to delete
      product". */
  function DeleteUpdates(failure: Option<RequestFailure>): (r: seq<ErrorUpdate>)
    ensures |r| > 0 && r[0] == SetDeleteError(None)
    ensures failure.None? <==> |r| == 1
  {
    [SetDeleteError(None)]
      + if failure.None? then []
        else [SetDeleteError(Some(RejectValue(failure.value, "Failed to delete product", "Failed to delete product")))]
  }

  /** The error shown after `handleDelete`: none when the delete succeeded,
      otherwise the server's message or "Failed to delete product". */
  function DeleteErrorAfter(previous: Option<string>, failure: Option<RequestFailure>): (r: Option<string>)
    ensures failure.None? ==> r.None?
    ensures failure.Some? ==> r.Some? && r.value != ""
    ensures failure.Some? && failure.value.HttpError? ==>
      (failure.value.message.Some? && failure.value.message.value != "" ==> r == failure.value.message)
    ensures failure.Some? && failure.value.HttpError? ==>
      (failure.value.message.None? || failure.value.message.value == "" ==> r == Some("Failed to delete product"))
    ensures failure == Some(HttpErrorNullBody) ==> r == Some("Failed to delete product")
    ensures failure == Some(OtherError) ==> r == Some("Failed to delete product")
  {
    ApplyUpdates(previous, DeleteUpdates(failure))
  }

  /** The previous error never survives a new attempt, because the first
      update clears it. */
  lemma DeleteErrorForgetsPrevious(previous: Option<string>, failure: Option<RequestFailure>)
    ensures DeleteErrorAfter(previous, failure) == DeleteErrorAfter(None, failure)
  {
  }
}
