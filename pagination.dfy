/**
 * The pagination bar of the list view: which page buttons are shown
 * (`getShownPagesPagination`), when the Previous and Next buttons are
 * enabled, and which page index each button asks for.
 */
module Pagination {
  import opened Wrappers

  /** The number of page buttons the bar is built for. */
  const MAX_SHOWN_PAGES: int := 5

  /** One button of the bar: a page number (1-based) or the "…" separator. */
  datatype PageItem = Page(n: int) | Sep

  /** `Array.from({ length: total }, (_, i) => i + 1)`: a negative length gives no pages. */
  function AllPages(total: int): (r: seq<PageItem>)
    ensures |r| == if total < 0 then 0 else total
    ensures forall i :: 0 <= i < |r| ==> r[i] == Page(i + 1)
  {
    if total <= 0 then [] else AllPages(total - 1) + [Page(total)]
  }

  /** The buttons shown for `total` pages when the page at 0-based `index` is the current one. */
  function ShownPages(total: int, index: int, maxShown: int): (r: seq<PageItem>)
    ensures total <= maxShown ==> Sep !in r
    ensures maxShown < total ==>
      5 <= |r| <= 7 && Sep in r && r[0] == Page(1) && r[|r| - 1] == Page(total)
  {
    var current := index + 1;
    if total <= maxShown then
      AllPages(total)
    else if current == 1 || current == 2 then
      [Page(1), Page(2), Page(3), Sep, Page(total)]
    else if current == total || current == total - 1 then
      [Page(1), Sep, Page(total - 2), Page(total - 1), Page(total)]
    else
      [Page(1), Sep, Page(current - 1), Page(current), Page(current + 1), Sep, Page(total)]
  }

  /** Page numbers strictly increase from left to right, so none is shown twice. */
  ghost predicate Increasing(r: seq<PageItem>)
  {
    forall i, j :: 0 <= i < j < |r| && r[i].Page? && r[j].Page? ==> r[i].n < r[j].n
  }

  /** Every page number names an existing page. */
  ghost predicate WithinPages(r: seq<PageItem>, total: int)
  {
    forall i :: 0 <= i < |r| && r[i].Page? ==> 1 <= r[i].n <= total
  }

  /** A separator always stands between two page buttons. */
  ghost predicate SeparatorsBetweenPages(r: seq<PageItem>)
  {
    forall i :: 0 <= i < |r| && r[i] == Sep ==> 0 < i < |r| - 1 && r[i - 1].Page? && r[i + 1].Page?
  }

  /** Two neighbouring page buttons with no separator between them show consecutive pages. */
  ghost predicate NoSilentGap(r: seq<PageItem>)
  {
    forall i :: 0 <= i < |r| - 1 && r[i].Page? && r[i + 1].Page? ==> r[i + 1].n == r[i].n + 1
  }

  /** A separator always hides at least one page. */
  ghost predicate SeparatorsHidePages(r: seq<PageItem>)
  {
    forall i :: 0 < i < |r| - 1 && r[i] == Sep && r[i - 1].Page? && r[i + 1].Page? ==> r[i - 1].n + 1 < r[i + 1].n
  }

  /** The number of separators in the bar. */
  function SeparatorCount(r: seq<PageItem>): nat
  {
    multiset(r)[Sep]
  }

  /** With at most `maxShown` pages the bar shows every page, in order, with no separator. */
  lemma {:induction false} FewPagesAllShown(total: int, index: int, maxShown: int)
    requires 0 <= total <= maxShown
    ensures |ShownPages(total, index, maxShown)| == total
    ensures forall i :: 0 <= i < total ==> ShownPages(total, index, maxShown)[i] == Page(i + 1)
    ensures Sep !in ShownPages(total, index, maxShown)
  {
    assert ShownPages(total, index, maxShown) == AllPages(total);
  }

  /**
   * For a valid current index: the bar starts with page 1 and ends with the
   * last page, shows the current page, and shows only existing pages in
   * strictly increasing order.
   */
  lemma {:induction false} WindowOrdered(total: int, index: int, maxShown: int)
    requires 3 <= maxShown
    requires 0 <= index < total
    ensures var r := ShownPages(total, index, maxShown);
      && |r| >= 1
      && r[0] == Page(1)
      && r[|r| - 1] == Page(total)
      && Page(index + 1) in r
      && Increasing(r)
      && WithinPages(r, total)
  {
    if total <= maxShown {
      FewPagesAllShown(total, index, maxShown);
      assert ShownPages(total, index, maxShown)[index] == Page(index + 1);
    }
  }

  /**
   * For a valid current index, separators only stand between page buttons,
   * and neighbouring page buttons without a separator show consecutive pages.
   */
  lemma {:induction false} WindowSeparators(total: int, index: int, maxShown: int)
    requires 3 <= maxShown
    requires 0 <= index < total
    ensures var r := ShownPages(total, index, maxShown);
      SeparatorsBetweenPages(r) && NoSilentGap(r)
  {
    if total <= maxShown {
      FewPagesAllShown(total, index, maxShown);
    }
  }

  /** The two lemmas above together: the bar is well formed for every valid index. */
  lemma {:induction false} WindowWellFormed(total: int, index: int, maxShown: int)
    requires 3 <= maxShown
    requires 0 <= index < total
    ensures var r := ShownPages(total, index, maxShown);
      && |r| >= 1
      && r[0] == Page(1)
      && r[|r| - 1] == Page(total)
      && Page(index + 1) in r
      && Increasing(r)
      && WithinPages(r, total)
      && SeparatorsBetweenPages(r)
      && NoSilentGap(r)
  {
    WindowOrdered(total, index, maxShown);
    WindowSeparators(total, index, maxShown);
  }

  /** Near either end of many pages the bar has five buttons, one of them a separator. */
  lemma {:induction false} EdgeWindowLength(total: int, index: int, maxShown: int)
    requires 3 <= maxShown < total
    requires 0 <= index < total
    requires index + 1 <= 2 || index + 1 >= total - 1
    ensures |ShownPages(total, index, maxShown)| == 5
    ensures SeparatorCount(ShownPages(total, index, maxShown)) == 1
  {
    var r := ShownPages(total, index, maxShown);
    if index + 1 <= 2 {
      assert multiset(r) == multiset{Page(1), Page(2), Page(3), Sep, Page(total)};
    } else {
      assert multiset(r) == multiset{Page(1), Sep, Page(total - 2), Page(total - 1), Page(total)};
    }
  }

  /** Away from both ends of many pages the bar has seven buttons, two of them separators. */
  lemma {:induction false} MiddleWindowLength(total: int, index: int, maxShown: int)
    requires 3 <= maxShown < total
    requires 2 < index + 1 < total - 1
    ensures |ShownPages(total, index, maxShown)| == 7
    ensures SeparatorCount(ShownPages(total, index, maxShown)) == 2
  {
    var current := index + 1;
    assert multiset(ShownPages(total, index, maxShown))
      == multiset{Page(1), Sep, Page(current - 1), Page(current), Page(current + 1), Sep, Page(total)};
  }

  /**
   * The length of the bar: every page when there are few, five buttons with
   * one separator when the current page is within two of either end, seven
   * buttons with two separators otherwise; never more than seven.
   */
  lemma {:induction false} WindowLength(total: int, index: int, maxShown: int)
    requires 3 <= maxShown
    requires 0 <= index < total
    ensures var r := ShownPages(total, index, maxShown);
      var current := index + 1;
      && (total <= maxShown ==> |r| == total && SeparatorCount(r) == 0)
      && (total > maxShown && (current <= 2 || current >= total - 1) ==> |r| == 5 && SeparatorCount(r) == 1)
      && (total > maxShown && 2 < current < total - 1 ==> |r| == 7 && SeparatorCount(r) == 2)
      && (maxShown == MAX_SHOWN_PAGES ==> |r| <= 7)
  {
    var current := index + 1;
    if total <= maxShown {
      FewPagesAllShown(total, index, maxShown);
      assert Sep !in multiset(ShownPages(total, index, maxShown));
    } else if current <= 2 || current >= total - 1 {
      EdgeWindowLength(total, index, maxShown);
    } else {
      MiddleWindowLength(total, index, maxShown);
    }
  }

  /** Previous is enabled iff the current page is not the first (Pagination.tsx `getCanPreviousPage`). */
  function CanPreviousPage(index: int): bool
  {
    index > 0
  }

  /** Next is enabled iff the current page is not the last (Pagination.tsx `getCanNextPage`). */
  function CanNextPage(index: int, total: int): bool
  {
    index < total - 1
  }

  /**
   * On a valid page, Previous is enabled except on the first page and Next
   * except on the last; a single page enables neither, and with two or more
   * pages at least one of them is enabled.
   */
  lemma {:induction false} PreviousNextEnabled(index: int, total: int)
    requires 0 <= index < total
    ensures CanPreviousPage(index) <==> index + 1 != 1
    ensures CanNextPage(index, total) <==> index + 1 != total
    ensures total == 1 ==> !CanPreviousPage(index) && !CanNextPage(index, total)
    ensures total >= 2 ==> CanPreviousPage(index) || CanNextPage(index, total)
  {
  }

  /** The index the Previous button asks for; a disabled button asks for nothing. */
  function PreviousClick(index: int): (target: Option<int>)
    ensures target.Some? <==> index > 0
    ensures target.Some? ==> 0 <= target.value < index
  {
    if CanPreviousPage(index) then Some(index - 1) else None
  }

  /** The index the Next button asks for; a disabled button asks for nothing. */
  function NextClick(index: int, total: int): (target: Option<int>)
    ensures target.Some? <==> index < total - 1
    ensures target.Some? ==> index < target.value < total
  {
    if CanNextPage(index, total) then Some(index + 1) else None
  }

  /** The index a page button asks for: page n is index n - 1; the separator asks for nothing. */
  function PageClick(item: PageItem): (target: Option<int>)
    ensures target.Some? <==> item.Page?
    ensures target.Some? ==> target.value + 1 == item.n
  {
    match item
    case Page(n) => Some(n - 1)
    case Sep => None
  }

  /** Next then Previous comes back to the page one started from, and so does Previous then Next. */
  lemma {:induction false} NextPreviousRoundTrip(index: int, total: int)
    requires 0 <= index < total
    ensures NextClick(index, total).Some? ==> PreviousClick(NextClick(index, total).value) == Some(index)
    ensures PreviousClick(index).Some? ==> NextClick(PreviousClick(index).value, total) == Some(index)
  {
  }

  /**
   * Clicking any page button of the bar asks for a valid index, and the bar
   * drawn for that index has the clicked page as its current page.
   */
  lemma {:induction false} PageClickLandsOnShownPage(total: int, index: int, maxShown: int, i: int)
    requires 3 <= maxShown
    requires 0 <= index < total
    requires 0 <= i < |ShownPages(total, index, maxShown)|
    requires ShownPages(total, index, maxShown)[i].Page?
    ensures var target := PageClick(ShownPages(total, index, maxShown)[i]);
      && target.Some?
      && 0 <= target.value < total
      && Page(ShownPages(total, index, maxShown)[i].n) in ShownPages(total, target.value, maxShown)
  {
    var r := ShownPages(total, index, maxShown);
    WindowOrdered(total, index, maxShown);
    assert 1 <= r[i].n <= total;
    WindowOrdered(total, r[i].n - 1, maxShown);
  }

  /** In a bar whose page numbers increase, a page number appears at most once. */
  lemma {:induction false} IncreasingPagesAreUnique(r: seq<PageItem>, p: int)
    requires Increasing(r)
    ensures forall i, j :: 0 <= i < |r| && 0 <= j < |r| && r[i] == Page(p) && r[j] == Page(p) ==> i == j
  {
  }

  /** The button highlighted as current (`pageNumber === currentPageIndex + 1`) appears exactly once. */
  lemma {:induction false} CurrentPageHighlightedOnce(total: int, index: int, maxShown: int)
    requires 3 <= maxShown
    requires 0 <= index < total
    ensures var r := ShownPages(total, index, maxShown);
      exists i :: 0 <= i < |r| && r[i] == Page(index + 1) && forall j :: 0 <= j < |r| && r[j] == Page(index + 1) ==> j == i
  {
    var r := ShownPages(total, index, maxShown);
    WindowOrdered(total, index, maxShown);
    IncreasingPagesAreUnique(r, index + 1);
    var i :| 0 <= i < |r| && r[i] == Page(index + 1);
  }

  /**
   * As written, the middle case places a separator next to page 2 when the
   * current page is 3: for ten pages at index 2 the bar is 1 … 2 3 4 … 10, and
   * its first "…" hides no page.
   */
  lemma EmptySeparatorAsWritten()
    ensures ShownPages(10, 2, MAX_SHOWN_PAGES) == [Page(1), Sep, Page(2), Page(3), Page(4), Sep, Page(10)]
    ensures !SeparatorsHidePages(ShownPages(10, 2, MAX_SHOWN_PAGES))
  {
    var r := ShownPages(10, 2, MAX_SHOWN_PAGES);
    assert r[1] == Sep && r[0].n + 1 == r[2].n;
  }

  /** The bar with every separator that would hide no page left out. */
  function CompactShownPages(total: int, index: int, maxShown: int): (r: seq<PageItem>)
    ensures |r| <= |ShownPages(total, index, maxShown)|
    ensures total <= maxShown || index + 1 <= 2 || index + 1 >= total - 1 ==> r == ShownPages(total, index, maxShown)
  {
    var current := index + 1;
    if total <= maxShown || current <= 2 || current >= total - 1 then
      ShownPages(total, index, maxShown)
    else
      CompactMiddle(total, current)
  }

  /** The middle case of the corrected bar: a separator only where pages are hidden. */
  function CompactMiddle(total: int, current: int): (r: seq<PageItem>)
    ensures 5 <= |r| <= 7 && r[0] == Page(1) && r[|r| - 1] == Page(total)
    ensures Sep in r <==> current - 1 > 2 || current + 1 < total - 1
  {
    var hiddenLeft := current - 1 > 2;
    var hiddenRight := current + 1 < total - 1;
    if hiddenLeft && hiddenRight then
      [Page(1), Sep, Page(current - 1), Page(current), Page(current + 1), Sep, Page(total)]
    else if hiddenLeft then
      [Page(1), Sep, Page(current - 1), Page(current), Page(current + 1), Page(total)]
    else if hiddenRight then
      [Page(1), Page(current - 1), Page(current), Page(current + 1), Sep, Page(total)]
    else
      [Page(1), Page(current - 1), Page(current), Page(current + 1), Page(total)]
  }

  /** The middle case of the corrected bar shows its ends and the current page, in increasing order. */
  lemma {:induction false} CompactMiddleOrdered(total: int, current: int)
    requires 3 <= current <= total - 2
    ensures var r := CompactMiddle(total, current);
      && r[0] == Page(1)
      && r[|r| - 1] == Page(total)
      && Page(current) in r
      && Increasing(r)
      && WithinPages(r, total)
  {
  }

  /** The middle case of the corrected bar has five to seven buttons and no gap without a separator. */
  lemma {:induction false} CompactMiddleGaps(total: int, current: int)
    requires 3 <= current <= total - 2
    ensures var r := CompactMiddle(total, current);
      5 <= |r| <= 7 && NoSilentGap(r)
  {
  }

  /** In the middle case of the corrected bar a separator always stands between two pages. */
  lemma {:induction false} CompactMiddleSeparatorsPlaced(total: int, current: int)
    requires 3 <= current <= total - 2
    ensures SeparatorsBetweenPages(CompactMiddle(total, current))
  {
  }

  /** In the middle case of the corrected bar every separator hides at least one page. */
  lemma {:induction false} CompactMiddleSeparatorsHide(total: int, current: int)
    requires 3 <= current <= total - 2
    ensures SeparatorsHidePages(CompactMiddle(total, current))
  {
  }

  /** The corrected bar starts at page 1, ends at the last page, shows the current page, in order. */
  lemma {:induction false} CompactWindowOrdered(total: int, index: int, maxShown: int)
    requires 4 <= maxShown
    requires 0 <= index < total
    ensures var r := CompactShownPages(total, index, maxShown);
      && |r| >= 1
      && r[0] == Page(1)
      && r[|r| - 1] == Page(total)
      && Page(index + 1) in r
      && Increasing(r)
      && WithinPages(r, total)
      && NoSilentGap(r)
      && |r| <= |ShownPages(total, index, maxShown)|
  {
    var current := index + 1;
    if total <= maxShown || current <= 2 || current >= total - 1 {
      assert CompactShownPages(total, index, maxShown) == ShownPages(total, index, maxShown);
      WindowOrdered(total, index, maxShown);
      WindowSeparators(total, index, maxShown);
    } else {
      CompactMiddleOrdered(total, current);
      CompactMiddleGaps(total, current);
      MiddleWindowLength(total, index, maxShown);
    }
  }

  /** In the corrected bar every separator stands between two pages and hides at least one. */
  lemma {:induction false} CompactWindowSeparators(total: int, index: int, maxShown: int)
    requires 4 <= maxShown
    requires 0 <= index < total
    ensures var r := CompactShownPages(total, index, maxShown);
      SeparatorsBetweenPages(r) && SeparatorsHidePages(r)
  {
    var r := CompactShownPages(total, index, maxShown);
    var current := index + 1;
    if total <= maxShown {
      FewPagesAllShown(total, index, maxShown);
      assert r == ShownPages(total, index, maxShown);
    } else if current <= 2 {
      assert r == [Page(1), Page(2), Page(3), Sep, Page(total)];
    } else if current >= total - 1 {
      assert r == [Page(1), Sep, Page(total - 2), Page(total - 1), Page(total)];
    } else {
      CompactMiddleSeparatorsPlaced(total, current);
      CompactMiddleSeparatorsHide(total, current);
    }
  }

  /**
   * The corrected bar keeps every property of the original one, never shows
   * more buttons, and every separator now hides at least one page.
   */
  lemma {:induction false} CompactWindowWellFormed(total: int, index: int, maxShown: int)
    requires 4 <= maxShown
    requires 0 <= index < total
    ensures var r := CompactShownPages(total, index, maxShown);
      && |r| >= 1
      && r[0] == Page(1)
      && r[|r| - 1] == Page(total)
      && Page(index + 1) in r
      && Increasing(r)
      && WithinPages(r, total)
      && SeparatorsBetweenPages(r)
      && NoSilentGap(r)
      && SeparatorsHidePages(r)
      && |r| <= |ShownPages(total, index, maxShown)|
  {
    CompactWindowOrdered(total, index, maxShown);
    CompactWindowSeparators(total, index, maxShown);
  }
}
