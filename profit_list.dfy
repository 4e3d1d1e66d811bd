/** The profit list (`profit`): a paged search over profit rows whose page
    strip lists every page, with no window. Nothing is loaded until the first
    response arrives; page changes are checked against the loaded page count. */
module ProfitList {
  import opened Values
  import opened Paging

  /** `{ page, size, search }`. */
  function SearchParams(page: int, size: int, searchTerm: Value): (r: Record)
    ensures r.Keys == {"page", "size", "search"}
    ensures r["page"] == IntValue(page) && r["size"] == IntValue(size) && r["search"] == searchTerm
  {
    map["page" := IntValue(page), "size" := IntValue(size), "search" := searchTerm]
  }

  /** `Array.from({ length: totalPages }, (_, i) => i + 1)`: every page number. */
  function AllPages(totalPages: int): (r: seq<int>)
    ensures |r| == if totalPages < 0 then 0 else totalPages
    ensures forall k :: 0 <= k < |r| ==> r[k] == k + 1
  {
    Range(1, totalPages)
  }

  /** With at most five pages the full strip is the window the other screens
      show; beyond five it is longer. */
  lemma AllPagesAgainstWindow(totalPages: int, currentPage: int)
    ensures totalPages <= 5 ==> AllPages(totalPages) == PageWindow(totalPages, currentPage)
    ensures totalPages > 5 ==> |AllPages(totalPages)| > |PageWindow(totalPages, currentPage)|
  {
    if totalPages > 5 {
      PageWindowLarge(totalPages, currentPage);
    }
  }

  class ProfitList {
    /** `profits`: the last page received, `undefined` before the first one. */
    var profits: Option<PageData>
    var currentPage: int
    var pageSize: int
    var searchTerm: Value
    /** The search form's value: one `search` control. */
    var searchForm: Record
    var totalElements: int
    var startIndex: int
    var endIndex: int
    /** The parameters of each `searchProfits` call, oldest first. */
    var requests: seq<Record>

    /** The parameters the next load sends. */
    function Params(): Record
      reads this
    {
      SearchParams(currentPage, pageSize, searchTerm)
    }

    /** `profits?.totalPages || 0`. */
    function TotalPages(): (r: int)
      reads this
      ensures profits.None? ==> r == 0
      ensures profits.Some? ==> r == profits.value.totalPages
    {
      if profits.Some? then profits.value.totalPages else 0
    }

    /** Nothing loaded, the first page of five, an empty search. */
    constructor ()
      ensures profits == None && currentPage == 0 && pageSize == 5 && searchTerm == Str("")
      ensures searchForm == map["search" := Str("")]
      ensures totalElements == 0 && startIndex == 0 && endIndex == 0 && requests == []
    {
      profits := None;
      currentPage := 0;
      pageSize := 5;
      searchTerm := Str("");
      searchForm := map["search" := Str("")];
      totalElements := 0;
      startIndex := 0;
      endIndex := 0;
      requests := [];
    }

    /** `ngOnInit()`: the first load. */
    method NgOnInit()
      modifies this`requests
      ensures requests == old(requests) + [Params()]
    {
      LoadProfits();
    }

    /** `loadProfits()`: ask for the current page. */
    method LoadProfits()
      modifies this`requests
      ensures requests == old(requests) + [Params()]
    {
      requests := requests + [SearchParams(currentPage, pageSize, searchTerm)];
    }

    /** `onSearch()`: the form's search text becomes the search term, and the
        first page is loaded. */
    method OnSearch()
      modifies this`searchTerm, this`currentPage, this`requests
      ensures searchTerm == Field(searchForm, "search") && currentPage == 0
      ensures requests == old(requests) + [Params()]
      ensures Params()["search"] == Field(searchForm, "search")
    {
      searchTerm := Field(searchForm, "search");
      currentPage := 0;
      LoadProfits();
    }

    /** `onPageSizeChange()`, after the page size control changed `pageSize`. */
    method OnPageSizeChange()
      modifies this`currentPage, this`requests
      ensures currentPage == 0 && requests == old(requests) + [Params()]
    {
      currentPage := 0;
      LoadProfits();
    }

    /** `next` of `searchProfits`: the page is taken as it is. */
    method OnLoadResponse(data: PageData)
      modifies this`profits, this`totalElements, this`startIndex, this`endIndex
      ensures profits == Some(data) && totalElements == data.totalElements
      ensures startIndex == StartIndex(currentPage, pageSize)
      ensures endIndex == EndIndex(currentPage, pageSize, totalElements)
      ensures TotalPages() == data.totalPages
    {
      profits := Some(data);
      totalElements := data.totalElements;
      UpdatePaginationIndexes();
    }

    /** `loadPage(page)`: only a page of the loaded result is loaded; before
        the first response every page is refused. */
    method LoadPage(page: int)
      modifies this`currentPage, this`requests
      ensures profits.Some? && 0 <= page < profits.value.totalPages ==>
                currentPage == page && requests == old(requests) + [Params()]
      ensures !(profits.Some? && 0 <= page < profits.value.totalPages) ==>
                currentPage == old(currentPage) && requests == old(requests)
      ensures profits.None? ==> currentPage == old(currentPage) && requests == old(requests)
    {
      if profits.Some? && page >= 0 && page < profits.value.totalPages {
        currentPage := page;
        LoadProfits();
      }
    }

    /** `getPageNumbers()`: every page of the loaded result; none before the
        first response. */
    function GetPageNumbers(): (r: seq<int>)
      reads this
      ensures profits.None? ==> r == []
      ensures |r| == if TotalPages() < 0 then 0 else TotalPages()
      ensures forall k :: 0 <= k < |r| ==> r[k] == k + 1
    {
      AllPages(TotalPages())
    }

    /** `updatePaginationIndexes()`. */
    method UpdatePaginationIndexes()
      modifies this`startIndex, this`endIndex
      ensures startIndex == StartIndex(currentPage, pageSize)
      ensures endIndex == EndIndex(currentPage, pageSize, totalElements)
      ensures endIndex - startIndex <= pageSize && endIndex <= totalElements
    {
      startIndex := currentPage * pageSize;
      endIndex := Min(startIndex + pageSize, totalElements);
    }
  }
}
