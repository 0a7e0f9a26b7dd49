/**
 * The page-number window both the transaction and the booking pages draw
 * between their Previous and Next buttons: at most five consecutive page
 * numbers, chosen so that the current page is shown and, where there is
 * room, sits in the middle.
 */
module Pagination {

  const MaxButtons: int := 5

  function Min(a: int, b: int): int { if a <= b then a else b }
  function Max(a: int, b: int): int { if a >= b then a else b }

  /** `Math.min(totalPages, 5)` as an Array.from length: a negative length makes no buttons. */
  function WindowLength(totalPages: int): (n: nat)
    ensures n <= MaxButtons
    ensures totalPages >= 0 ==> n == Min(totalPages, MaxButtons)
    ensures totalPages < 0 ==> n == 0
  {
    var m := Min(totalPages, MaxButtons);
    if m < 0 then 0 else m
  }

  /** The page number drawn on button i of the window. */
  function PageNumberAt(totalPages: int, currentPage: int, i: int): int {
    if totalPages <= MaxButtons then i + 1
    else if currentPage <= 3 then i + 1
    else if currentPage >= totalPages - 2 then totalPages - 4 + i
    else currentPage - 2 + i
  }

  /** The page numbers of the window, left to right. */
  function PageWindow(totalPages: int, currentPage: int): (w: seq<int>)
    ensures |w| == WindowLength(totalPages)
    ensures forall i :: 0 <= i < |w| ==> 1 <= w[i] <= totalPages
    ensures forall i :: 0 < i < |w| ==> w[i] == w[i - 1] + 1
    ensures 1 <= currentPage <= totalPages ==> currentPage in w
  {
    var w := seq(WindowLength(totalPages), i => PageNumberAt(totalPages, currentPage, i));
    var k :=
      if totalPages <= MaxButtons || currentPage <= 3 then currentPage - 1
      else if currentPage >= totalPages - 2 then currentPage - totalPages + 4
      else 2;
    if 1 <= currentPage <= totalPages then
      assert 0 <= k < |w| && w[k] == currentPage;
      w
    else
      w
  }

  /**
   * Reference definition: the window starts at currentPage - 2, moved
   * right to 1 or left to totalPages - 4 when that would leave the
   * range of pages.
   */
  function WindowStart(totalPages: int, currentPage: int): int {
    Max(1, Min(currentPage - 2, Max(1, totalPages - 4)))
  }

  lemma PageWindowIsShiftedRun(totalPages: int, currentPage: int)
    ensures forall i :: 0 <= i < |PageWindow(totalPages, currentPage)| ==>
      PageWindow(totalPages, currentPage)[i] == WindowStart(totalPages, currentPage) + i
  {
  }

  /** Window entries are strictly increasing, so the buttons' keys are distinct. */
  lemma PageWindowStrictlyIncreasing(totalPages: int, currentPage: int)
    ensures forall i, j :: 0 <= i < j < |PageWindow(totalPages, currentPage)| ==>
      PageWindow(totalPages, currentPage)[i] < PageWindow(totalPages, currentPage)[j]
  {
    PageWindowIsShiftedRun(totalPages, currentPage);
  }

  /** With five pages or fewer every page has a button. */
  lemma SmallTotalShowsAllPages(totalPages: int, currentPage: int)
    requires 0 <= totalPages <= MaxButtons
    ensures PageWindow(totalPages, currentPage) == seq(totalPages, i => i + 1)
  {
  }

  /** With room on both sides the current page is the middle one of five. */
  lemma CurrentPageCentred(totalPages: int, currentPage: int)
    requires totalPages > MaxButtons
    requires 3 <= currentPage <= totalPages - 2
    ensures |PageWindow(totalPages, currentPage)| == 5
    ensures PageWindow(totalPages, currentPage)[2] == currentPage
  {
  }
}
