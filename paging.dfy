/** The pagination arithmetic that every list screen repeats: the page-number
    strip under a table, the "showing startIndex..endIndex of totalElements"
    indexes, and the shape of a paged search response. */
module Paging {
  import opened Values

  /** The `data` part of a paged search response. */
  datatype PageData = PageData(content: seq<Record>, totalPages: int, totalElements: int)

  /** `{ success, data: { content, totalPages, totalElements } }`. */
  datatype SearchResponse = SearchResponse(success: bool, data: PageData)

  function Min(a: int, b: int): (r: int)
    ensures r <= a && r <= b && (r == a || r == b)
  {
    if a <= b then a else b
  }

  /** The consecutive numbers `lo, lo + 1, ..., hi`; empty when `hi < lo`. */
  function Range(lo: int, hi: int): (r: seq<int>)
    ensures |r| == if hi < lo then 0 else hi - lo + 1
    ensures forall k :: 0 <= k < |r| ==> r[k] == lo + k
    decreases hi - lo
  {
    if hi < lo then [] else Range(lo, hi - 1) + [hi]
  }

  /** The 1-based page numbers shown for `totalPages` pages when the 0-based
      page `currentPage` is displayed: all of them up to five pages, otherwise
      five around the current one, clamped to the first or the last five. */
  function PageWindow(totalPages: int, currentPage: int): (r: seq<int>)
    ensures |r| == if totalPages <= 0 then 0 else Min(totalPages, 5)
  {
    var current := currentPage + 1;
    if totalPages <= 5 then Range(1, totalPages)
    else if current <= 3 then Range(1, 5)
    else if current >= totalPages - 2 then Range(totalPages - 4, totalPages)
    else Range(current - 2, current + 2)
  }

  /** The `for (let i = lo; i <= hi; i++) pageNumbers.push(i)` loop. */
  method PushRange(pageNumbers: seq<int>, lo: int, hi: int) returns (r: seq<int>)
    ensures r == pageNumbers + Range(lo, hi)
  {
    r := pageNumbers;
    var i := lo;
    while i <= hi
      invariant lo <= i && (i <= hi + 1 || i == lo)
      invariant r == pageNumbers + Range(lo, i - 1)
    {
      r := r + [i];
      i := i + 1;
    }
  }

  /** `getPageNumbers()`, as the list screens write it with `for` loops. */
  method BuildPageNumbers(totalPages: int, currentPage: int) returns (pageNumbers: seq<int>)
    ensures pageNumbers == PageWindow(totalPages, currentPage)
  {
    pageNumbers := [];
    var current := currentPage + 1;
    if totalPages <= 5 {
      pageNumbers := PushRange(pageNumbers, 1, totalPages);
    } else {
      if current <= 3 {
        pageNumbers := PushRange(pageNumbers, 1, 5);
      } else if current >= totalPages - 2 {
        pageNumbers := PushRange(pageNumbers, totalPages - 4, totalPages);
      } else {
        pageNumbers := PushRange(pageNumbers, current - 2, current + 2);
      }
    }
  }

  /** Up to five pages, every page is listed, in order. */
  lemma PageWindowSmall(totalPages: int, currentPage: int)
    requires totalPages <= 5
    ensures |PageWindow(totalPages, currentPage)| == if totalPages < 0 then 0 else totalPages
    ensures forall k :: 0 <= k < |PageWindow(totalPages, currentPage)| ==> PageWindow(totalPages, currentPage)[k] == k + 1
  {
  }

  /** Beyond five pages, exactly five consecutive page numbers, all of them
      existing pages, whatever the current page is. */
  lemma PageWindowLarge(totalPages: int, currentPage: int)
    requires totalPages > 5
    ensures |PageWindow(totalPages, currentPage)| == 5
    ensures forall k :: 0 <= k < 4 ==> PageWindow(totalPages, currentPage)[k + 1] == PageWindow(totalPages, currentPage)[k] + 1
    ensures 1 <= PageWindow(totalPages, currentPage)[0] && PageWindow(totalPages, currentPage)[4] <= totalPages
  {
  }

  /** Every listed number is an existing page, and the list increases strictly. */
  lemma PageWindowInRange(totalPages: int, currentPage: int)
    ensures forall k :: 0 <= k < |PageWindow(totalPages, currentPage)| ==> 1 <= PageWindow(totalPages, currentPage)[k] <= totalPages
    ensures forall j, k :: 0 <= j < k < |PageWindow(totalPages, currentPage)| ==> PageWindow(totalPages, currentPage)[j] < PageWindow(totalPages, currentPage)[k]
  {
  }

  /** The page being shown is always among the listed numbers. */
  lemma PageWindowContainsCurrent(totalPages: int, currentPage: int)
    requires 0 <= currentPage < totalPages
    ensures currentPage + 1 in PageWindow(totalPages, currentPage)
  {
    var w := PageWindow(totalPages, currentPage);
    var current := currentPage + 1;
    if totalPages <= 5 || current <= 3 {
      assert w[currentPage] == current;
    } else if current >= totalPages - 2 {
      assert w[current - (totalPages - 4)] == current;
    } else {
      assert w[2] == current;
    }
  }

  /** Away from both ends the window is centred on the current page; near the
      ends it is clamped to the first or to the last five pages. */
  lemma PageWindowCentred(totalPages: int, currentPage: int)
    requires totalPages > 5
    ensures 3 < currentPage + 1 < totalPages - 2 ==> PageWindow(totalPages, currentPage)[2] == currentPage + 1
    ensures currentPage + 1 <= 3 ==> PageWindow(totalPages, currentPage)[0] == 1
    ensures currentPage + 1 > 3 && currentPage + 1 >= totalPages - 2 ==> PageWindow(totalPages, currentPage)[4] == totalPages
  {
  }

  // ------------------------------------------------------ display indexes

  /** `updatePaginationIndexes()`: `startIndex = currentPage * pageSize`. */
  function StartIndex(currentPage: int, pageSize: int): int
  {
    currentPage * pageSize
  }

  /** `endIndex = Math.min(startIndex + pageSize, totalElements)`. */
  function EndIndex(currentPage: int, pageSize: int, totalElements: int): int
  {
    Min(StartIndex(currentPage, pageSize) + pageSize, totalElements)
  }

  /** The other spelling some screens use, `Math.min((currentPage + 1) * pageSize,
      totalElements)`, is the same number. */
  lemma EndIndexSpellings(currentPage: int, pageSize: int, totalElements: int)
    ensures Min((currentPage + 1) * pageSize, totalElements) == EndIndex(currentPage, pageSize, totalElements)
  {
    assert (currentPage + 1) * pageSize == currentPage * pageSize + pageSize;
  }

  /** A page never spans more than `pageSize` rows nor ends past the last row. */
  lemma IndexBounds(currentPage: int, pageSize: int, totalElements: int)
    ensures EndIndex(currentPage, pageSize, totalElements) - StartIndex(currentPage, pageSize) <= pageSize
    ensures EndIndex(currentPage, pageSize, totalElements) <= totalElements
  {
  }

  /** The number of pages a server reports for `totalElements` rows. */
  function PageCount(totalElements: nat, pageSize: int): int
    requires pageSize > 0
  {
    (totalElements + pageSize - 1) / pageSize
  }

  /** With a response whose page count agrees with its row count, an existing
      page is a non-empty range of rows: `0 <= startIndex < endIndex <= totalElements`. */
  lemma ExistingPageIndexes(currentPage: int, pageSize: int, totalElements: nat)
    requires pageSize > 0
    requires 0 <= currentPage < PageCount(totalElements, pageSize)
    ensures 0 <= StartIndex(currentPage, pageSize) < EndIndex(currentPage, pageSize, totalElements) <= totalElements
    ensures EndIndex(currentPage, pageSize, totalElements) - StartIndex(currentPage, pageSize) <= pageSize
  {
    var q := PageCount(totalElements, pageSize);
    assert q * pageSize <= totalElements + pageSize - 1;
    assert (currentPage + 1) * pageSize <= q * pageSize by {
      assert currentPage + 1 <= q;
    }
    assert currentPage * pageSize < totalElements;
    assert 0 <= currentPage * pageSize;
  }
}
