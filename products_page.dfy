/** The storefront listing: the handlers that turn search, price, category,
    sort and page controls into partial filter objects for `updateFilters`. */
module ProductsPage {
  import opened Wrappers
  import opened StoreTypes
  import ProductSlice

  type ProductFilters = ProductSlice.ProductFilters
  type FilterPatch = ProductSlice.FilterPatch

  /** The three-state sort cycle on `field`: another field or no order starts
      ascending, ascending turns descending, descending turns sorting off. */
  function NextSortOrder(sortBy: Option<string>, sortOrder: Option<SortOrder>, field: string): Option<SortOrder>
  {
    if sortBy != Some(field) then Some(Asc)
    else if sortOrder == Some(Asc) then Some(Desc)
    else if sortOrder == Some(Desc) then None
    else Some(Asc)
  }

  /** `handleSort`: sortBy is the field while some order is set. */
  function HandleSort(filters: ProductFilters, field: string): (p: FilterPatch)
    ensures p == ProductSlice.NoKeys.(sortBy := p.sortBy, sortOrder := p.sortOrder, page := Some(Some(1)))
    ensures p.sortBy.Some? && p.sortOrder.Some?
    ensures p.sortBy.value.None? <==> p.sortOrder.value.None?
    ensures p.sortBy.value.Some? ==> p.sortBy.value.value == field
  {
    var newOrder := NextSortOrder(filters.sortBy, filters.sortOrder, field);
    ProductSlice.NoKeys.(
      sortBy := Some(if newOrder.Some? then Some(field) else None),
      sortOrder := Some(newOrder),
      page := Some(Some(1)))
  }

  function HandleSearch(value: string): FilterPatch
  {
    ProductSlice.NoKeys.(searchTerm := Some(Some(value)), page := Some(Some(1)))
  }

  /** The `name` of the two price inputs. */
  datatype PriceInput = MinPriceInput | MaxPriceInput

  /** `""` is undefined, anything else `Number(value)`; `toNumber` stands for
      `Number`. */
  function HandlePriceChange(name: PriceInput, value: string, toNumber: string -> int): FilterPatch
  {
    var numValue := if value == "" then None else Some(toNumber(value));
    match name
    case MinPriceInput => ProductSlice.NoKeys.(minPrice := Some(numValue), page := Some(Some(1)))
    case MaxPriceInput => ProductSlice.NoKeys.(maxPrice := Some(numValue), page := Some(Some(1)))
  }

  /** `value || undefined`. */
  function HandleCategoryChange(value: string): FilterPatch
  {
    ProductSlice.NoKeys.(category := Some(if value == "" then None else Some(value)), page := Some(Some(1)))
  }

  /** Also the administrator listing's `handlePageChange`. */
  function HandlePageChange(page: int): FilterPatch
  {
    ProductSlice.NoKeys.(page := Some(Some(page)))
  }

  /** `filters.page || 1`: an absent page, or page 0, shows as page 1. */
  function CurrentPage(filters: ProductFilters): (r: int)
    ensures filters.page.Some? && filters.page.value != 0 ==> r == filters.page.value
    ensures filters.page.None? || filters.page == Some(0) ==> r == 1
  {
    if filters.page.Some? && filters.page.value != 0 then filters.page.value else 1
  }

  /** The cycle as seen in the merged filters, for each starting state. */
  lemma SortCycle(f: ProductFilters, field: string)
    ensures var r := ProductSlice.MergeFilters(f, HandleSort(f, field));
      && (f.sortBy != Some(field) ==> r.sortBy == Some(field) && r.sortOrder == Some(Asc))
      && (f.sortBy == Some(field) && f.sortOrder == Some(Asc) ==> r.sortBy == Some(field) && r.sortOrder == Some(Desc))
      && (f.sortBy == Some(field) && f.sortOrder == Some(Desc) ==> r.sortBy.None? && r.sortOrder.None?)
      && (f.sortBy == Some(field) && f.sortOrder.None? ==> r.sortBy == Some(field) && r.sortOrder == Some(Asc))
      && r.page == Some(1)
  {
  }

  /** From any state not sorted by `field`, three clicks on it go ascending,
      descending, and back to unsorted. */
  lemma ThreeClicksUnsort(f: ProductFilters, field: string)
    requires f.sortBy != Some(field)
    ensures var f1 := ProductSlice.MergeFilters(f, HandleSort(f, field));
      var f2 := ProductSlice.MergeFilters(f1, HandleSort(f1, field));
      var f3 := ProductSlice.MergeFilters(f2, HandleSort(f2, field));
      && f1.sortBy == Some(field) && f1.sortOrder == Some(Asc)
      && f2.sortBy == Some(field) && f2.sortOrder == Some(Desc)
      && f3.sortBy.None? && f3.sortOrder.None?
      && f3.searchTerm == f.searchTerm && f3.category == f.category
      && f3.minPrice == f.minPrice && f3.maxPrice == f.maxPrice
  {
  }

  /** Search, price, category and sort send `page: 1`; a page change sends the
      page and no other key. */
  lemma HandlersResetPage(f: ProductFilters, field: string, search: string, name: PriceInput,
                          value: string, toNumber: string -> int, page: int)
    ensures HandleSearch(search).page == Some(Some(1))
    ensures HandlePriceChange(name, value, toNumber).page == Some(Some(1))
    ensures HandleCategoryChange(value).page == Some(Some(1))
    ensures HandleSort(f, field).page == Some(Some(1))
    ensures HandlePageChange(page) == ProductSlice.NoKeys.(page := Some(Some(page)))
    ensures ProductSlice.MergeFilters(f, HandlePageChange(page)) == f.(page := Some(page))
  {
  }

  /** A price input stores `undefined` for "" and `Number(value)` otherwise,
      under its own key, and leaves the other bound untouched. */
  lemma PriceConversion(f: ProductFilters, name: PriceInput, value: string, toNumber: string -> int)
    ensures var r := ProductSlice.MergeFilters(f, HandlePriceChange(name, value, toNumber));
      var expected := if value == "" then None else Some(toNumber(value));
      && (name == MinPriceInput ==> r.minPrice == expected && r.maxPrice == f.maxPrice)
      && (name == MaxPriceInput ==> r.maxPrice == expected && r.minPrice == f.minPrice)
      && r.category == f.category && r.searchTerm == f.searchTerm && r.page == Some(1)
  {
  }

  /** The "All Categories" option ("") clears the category; any other value is
      stored as given. */
  lemma CategoryConversion(f: ProductFilters, value: string)
    ensures var r := ProductSlice.MergeFilters(f, HandleCategoryChange(value));
      && (value == "" ==> r.category.None?)
      && (value != "" ==> r.category == Some(value))
      && r.page == Some(1) && r.sortBy == f.sortBy
  {
  }
}
