/** The pagination bar: a sliding window of at most five page numbers around
    the current page, and First / Previous / Next / Last buttons. */
module Pagination {
  import opened Wrappers

  const ShowPages := 5

  function Max(a: int, b: int): int { if a < b then b else a }
  function Min(a: int, b: int): int { if a < b then a else b }

  /** The first and last page number of the window, as computed before the
      pages are listed. */
  function WindowBounds(currentPage: int, totalPages: int): (int, int)
  {
    var halfShow := ShowPages / 2;
    var start := Max(1, currentPage - halfShow);
    var end := Min(totalPages, start + ShowPages - 1);
    if end - start + 1 < ShowPages then (Max(1, end - ShowPages + 1), end) else (start, end)
  }

  /** The pages `start, start + 1, ..., end` (none when end < start). */
  function Range(start: int, end: int): (r: seq<int>)
  {
    if end < start then [] else seq(end - start + 1, i => start + i)
  }

  function PageWindow(currentPage: int, totalPages: int): seq<int>
  {
    var (start, end) := WindowBounds(currentPage, totalPages);
    Range(start, end)
  }

  /** `getPageNumbers`: lists the window with a loop. */
  method GetPageNumbers(currentPage: int, totalPages: int) returns (pages: seq<int>)
    ensures pages == PageWindow(currentPage, totalPages)
    ensures forall k :: 0 <= k < |pages| ==> 1 <= pages[k] <= totalPages
    ensures 1 <= currentPage <= totalPages ==> |pages| == Min(ShowPages, totalPages) && currentPage in pages
  {
    pages := [];
    var showPages := 5;
    var halfShow := showPages / 2;
    var start := Max(1, currentPage - halfShow);
    var end := Min(totalPages, start + showPages - 1);
    if end - start + 1 < showPages {
      start := Max(1, end - showPages + 1);
    }
    var i := start;
    while i <= end
      invariant start <= i <= Max(start, end + 1)
      invariant |pages| == i - start
      invariant forall k :: 0 <= k < |pages| ==> pages[k] == start + k
    {
      pages := pages + [i];
      i := i + 1;
    }
    WindowInRange(currentPage, totalPages);
    if 1 <= currentPage <= totalPages {
      WindowAroundCurrent(currentPage, totalPages);
    }
  }

  /** For any inputs the window is at most five consecutive ascending pages,
      all within [1, totalPages]. */
  lemma WindowInRange(currentPage: int, totalPages: int)
    ensures var w := PageWindow(currentPage, totalPages);
      && |w| <= ShowPages
      && (forall k :: 0 <= k < |w| ==> 1 <= w[k] <= totalPages)
      && (forall k :: 0 < k < |w| ==> w[k] == w[k - 1] + 1)
  {
  }

  /** For 1 <= currentPage <= totalPages the window holds min(5, totalPages)
      pages and contains the current page. */
  lemma WindowAroundCurrent(currentPage: int, totalPages: int)
    requires 1 <= currentPage <= totalPages
    ensures var w := PageWindow(currentPage, totalPages);
      |w| == Min(ShowPages, totalPages) && currentPage in w
  {
    var (start, end) := WindowBounds(currentPage, totalPages);
    var w := PageWindow(currentPage, totalPages);
    assert start <= currentPage <= end;
    assert w[currentPage - start] == currentPage;
  }

  /** The windows at both ends of a long listing, in its middle, and of a
      short one. */
  lemma WindowExamples()
    ensures PageWindow(1, 20) == [1, 2, 3, 4, 5]
    ensures PageWindow(20, 20) == [16, 17, 18, 19, 20]
    ensures PageWindow(2, 3) == [1, 2, 3]
    ensures PageWindow(10, 20) == [8, 9, 10, 11, 12]
  {
  }

  datatype NavButton = NavButton(target: int, disabled: bool)

  /** What the bar shows: the four navigation buttons and one button per page
      of the window. */
  datatype PaginationView = PaginationView(
    first: NavButton, previous: NavButton, pages: seq<int>, next: NavButton, last: NavButton)

  /** The bar for the given props; `None` is the `return null` case. An absent
      `isNextDisabled` is `false`. */
  function Render(currentPage: int, totalPages: int, isNextDisabled: bool): Option<PaginationView>
  {
    if totalPages <= 1 then None
    else
      var atEnd := currentPage == totalPages || isNextDisabled;
      Some(PaginationView(
        NavButton(1, currentPage == 1),
        NavButton(currentPage - 1, currentPage == 1),
        PageWindow(currentPage, totalPages),
        NavButton(currentPage + 1, atEnd),
        NavButton(totalPages, atEnd)))
  }

  /** Nothing is rendered exactly when there is at most one page; otherwise
      First and Previous are disabled exactly on page 1, Next and Last exactly
      on the last page or when the caller disables them, and the buttons
      request pages 1, current - 1, current + 1 and totalPages. */
  lemma RenderButtons(currentPage: int, totalPages: int, isNextDisabled: bool)
    ensures Render(currentPage, totalPages, isNextDisabled).None? <==> totalPages <= 1
    ensures var v := Render(currentPage, totalPages, isNextDisabled);
      v.Some? ==>
        && (v.value.first.disabled <==> currentPage == 1)
        && (v.value.previous.disabled <==> currentPage == 1)
        && (v.value.next.disabled <==> currentPage == totalPages || isNextDisabled)
        && (v.value.last.disabled <==> currentPage == totalPages || isNextDisabled)
        && v.value.first.target == 1 && v.value.previous.target == currentPage - 1
        && v.value.next.target == currentPage + 1 && v.value.last.target == totalPages
  {
  }

  /** On a valid page, every button that is enabled requests a page within
      [1, totalPages]. */
  lemma EnabledButtonsStayInRange(currentPage: int, totalPages: int, isNextDisabled: bool)
    requires 1 <= currentPage <= totalPages && totalPages > 1
    ensures var v := Render(currentPage, totalPages, isNextDisabled).value;
      forall b :: b in [v.first, v.previous, v.next, v.last] && !b.disabled ==> 1 <= b.target <= totalPages
    ensures forall k :: 0 <= k < |Render(currentPage, totalPages, isNextDisabled).value.pages| ==>
      1 <= Render(currentPage, totalPages, isNextDisabled).value.pages[k] <= totalPages
  {
    WindowInRange(currentPage, totalPages);
  }
}
