/**
 * PaginationControls: the "Showing a to b of n" range, the Previous / Next
 * buttons and the window of at most five page-number buttons.
 */
module Pagination {
  import opened Wrappers

  /** At most this many page-number buttons are shown. */
  const MaxVisiblePages: int := 5

  function Min(a: int, b: int): int {
    if a <= b then a else b
  }

  /** The 1-based position of the first item on the page. */
  function StartItem(currentPage: int, itemsPerPage: int): int {
    (currentPage - 1) * itemsPerPage + 1
  }

  /** The 1-based position of the last item on the page, cut off at the number of items. */
  function EndItem(currentPage: int, itemsPerPage: int, totalItems: int): (r: int)
    ensures r <= totalItems && r <= currentPage * itemsPerPage
    ensures r == totalItems || r == currentPage * itemsPerPage
  {
    Min(currentPage * itemsPerPage, totalItems)
  }

  /** handlePrevious: the page it asks for, if any. */
  function Previous(currentPage: int): (r: Option<int>)
    ensures r.Some? <==> currentPage > 1
    ensures r.Some? ==> r.value == currentPage - 1
  {
    if currentPage > 1 then Some(currentPage - 1) else None
  }

  /** handleNext: the page it asks for, if any. */
  function Next(currentPage: int, totalPages: int): (r: Option<int>)
    ensures r.Some? <==> currentPage < totalPages
    ensures r.Some? ==> r.value == currentPage + 1
  {
    if currentPage < totalPages then Some(currentPage + 1) else None
  }

  /** The disabled flags of the two buttons. */
  predicate PreviousDisabled(currentPage: int) {
    currentPage == 1
  }

  predicate NextDisabled(currentPage: int, totalPages: int) {
    currentPage == totalPages
  }

  /** On a page that exists, a button is disabled exactly when its handler would do nothing. */
  lemma DisabledExactlyWhenInert(currentPage: int, totalPages: int)
    requires 1 <= currentPage <= totalPages
    ensures PreviousDisabled(currentPage) <==> Previous(currentPage).None?
    ensures NextDisabled(currentPage, totalPages) <==> Next(currentPage, totalPages).None?
  {
  }

  /** The first page number of the window. */
  function WindowStart(currentPage: int, totalPages: int): int {
    if totalPages <= MaxVisiblePages then 1
    else if currentPage <= 3 then 1
    else if currentPage >= totalPages - 2 then totalPages - 4
    else currentPage - 2
  }

  /** The page number of button i. */
  function PageNumber(i: int, currentPage: int, totalPages: int): int {
    WindowStart(currentPage, totalPages) + i
  }

  /** The page-number buttons, left to right. */
  function PageWindow(currentPage: int, totalPages: nat): (w: seq<int>)
    ensures |w| == Min(MaxVisiblePages, totalPages)
    ensures forall i :: 0 < i < |w| ==> w[i] == w[i - 1] + 1
    ensures forall i :: 0 <= i < |w| ==> 1 <= w[i] <= totalPages
    ensures totalPages <= MaxVisiblePages ==> forall i :: 0 <= i < |w| ==> w[i] == i + 1
    ensures 1 <= currentPage <= totalPages ==> currentPage in w
  {
    var w := seq(Min(MaxVisiblePages, totalPages), i => PageNumber(i, currentPage, totalPages));
    assert 1 <= currentPage <= totalPages ==> w[currentPage - WindowStart(currentPage, totalPages)] == currentPage;
    w
  }

  /** Away from both ends of a long range, the window is centred on the current page. */
  lemma WindowCentred(currentPage: int, totalPages: nat)
    requires totalPages > MaxVisiblePages
    requires 3 < currentPage < totalPages - 2
    ensures PageWindow(currentPage, totalPages) ==
      [currentPage - 2, currentPage - 1, currentPage, currentPage + 1, currentPage + 2]
  {
  }

  /** The window's page numbers are distinct. */
  lemma WindowDistinct(currentPage: int, totalPages: nat, i: int, j: int)
    requires 0 <= i < j < |PageWindow(currentPage, totalPages)|
    ensures PageWindow(currentPage, totalPages)[i] < PageWindow(currentPage, totalPages)[j]
  {
    var w := PageWindow(currentPage, totalPages);
    assert w[i] == WindowStart(currentPage, totalPages) + i;
    assert w[j] == WindowStart(currentPage, totalPages) + j;
  }
}
