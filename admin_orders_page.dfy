/** The administrator's order listing: the status, total and sort handlers
    that feed the order store's `updateFilters`. */
module AdminOrdersPage {
  import opened Wrappers
  import opened StoreTypes
  import OrderSlice

  type OrderFilters = OrderSlice.OrderFilters
  type OrderFilterPatch = OrderSlice.OrderFilterPatch
  type OrderSortField = OrderSlice.OrderSortField

  /** `handleSortChange`: a two-state toggle; sortBy is always the field. */
  function HandleSortChange(filters: OrderFilters, field: OrderSortField): OrderFilterPatch
  {
    var newSortOrder := if filters.sortBy == Some(field) && filters.sortOrder == Some(Asc) then Desc else Asc;
    OrderSlice.NoKeys.(sortBy := Some(Some(field)), sortOrder := Some(Some(newSortOrder)))
  }

  /** `status || undefined`. */
  function HandleFilterChange(status: string): OrderFilterPatch
  {
    OrderSlice.NoKeys.(status := Some(if status == "" then None else Some(status)))
  }

  /** The `name` of the two total inputs. */
  datatype TotalInput = MinTotalInput | MaxTotalInput

  /** `value ? Number(value) : undefined`; `toNumber` stands for `Number`. */
  function HandleTotalFilterChange(name: TotalInput, value: string, toNumber: string -> int): OrderFilterPatch
  {
    var numValue := if value != "" then Some(toNumber(value)) else None;
    match name
    case MinTotalInput => OrderSlice.NoKeys.(minTotal := Some(numValue))
    case MaxTotalInput => OrderSlice.NoKeys.(maxTotal := Some(numValue))
  }

  /** Descending exactly when the list is already ascending on that field,
      ascending otherwise; the field is never cleared. */
  lemma SortToggle(f: OrderFilters, field: OrderSortField)
    ensures var r := OrderSlice.MergeFilters(f, HandleSortChange(f, field));
      && r.sortBy == Some(field)
      && (r.sortOrder == Some(Desc) <==> f.sortBy == Some(field) && f.sortOrder == Some(Asc))
      && (r.sortOrder == Some(Asc) <==> !(f.sortBy == Some(field) && f.sortOrder == Some(Asc)))
      && r == f.(sortBy := Some(field), sortOrder := r.sortOrder)
  {
  }

  /** From the initial newest-first listing, the first click on "createdAt"
      sorts ascending and the second descending again. */
  lemma SortFromInitial()
    ensures var f0 := OrderSlice.InitialFilters;
      var f1 := OrderSlice.MergeFilters(f0, HandleSortChange(f0, OrderSlice.SortByCreatedAt));
      var f2 := OrderSlice.MergeFilters(f1, HandleSortChange(f1, OrderSlice.SortByCreatedAt));
      && f0.sortBy == Some(OrderSlice.SortByCreatedAt) && f0.sortOrder == Some(Desc)
      && f1.sortBy == Some(OrderSlice.SortByCreatedAt) && f1.sortOrder == Some(Asc)
      && f2 == f0
  {
  }

  /** A status of "" clears the status filter; any other value is stored. */
  lemma StatusConversion(f: OrderFilters, status: string)
    ensures var r := OrderSlice.MergeFilters(f, HandleFilterChange(status));
      && (status == "" ==> r.status.None?)
      && (status != "" ==> r.status == Some(status))
      && r == f.(status := r.status)
  {
  }

  /** A total of "" clears that bound; anything else stores `Number(value)`
      under the input's own name, leaving the other bound alone. */
  lemma TotalConversion(f: OrderFilters, name: TotalInput, value: string, toNumber: string -> int)
    ensures var r := OrderSlice.MergeFilters(f, HandleTotalFilterChange(name, value, toNumber));
      var expected := if value == "" then None else Some(toNumber(value));
      && (name == MinTotalInput ==> r == f.(minTotal := expected))
      && (name == MaxTotalInput ==> r == f.(maxTotal := expected))
  {
  }

  /** None of the three handlers sends a page, so filtering or sorting the
      order listing never resets the page. */
  lemma HandlersKeepPage(f: OrderFilters, field: OrderSortField, status: string,
                         name: TotalInput, value: string, toNumber: string -> int)
    ensures OrderSlice.MergeFilters(f, HandleSortChange(f, field)).page == f.page
    ensures OrderSlice.MergeFilters(f, HandleFilterChange(status)).page == f.page
    ensures OrderSlice.MergeFilters(f, HandleTotalFilterChange(name, value, toNumber)).page == f.page
  {
  }
}
