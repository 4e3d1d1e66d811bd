/** The sale list (`sale`): a paged search on one search text. Page changes
    are not checked and the response is applied without a success flag. */
module SaleList {
  import opened Values
  import opened Paging

  /** `{ currentPage, perPageRecord, search: searchForm.get('search')?.value }`. */
  function SearchParams(currentPage: int, pageSize: int, searchForm: Record): (r: Record)
    ensures r.Keys == {"currentPage", "perPageRecord", "search"}
    ensures r["currentPage"] == IntValue(currentPage) && r["perPageRecord"] == IntValue(pageSize)
    ensures "search" in searchForm ==> r["search"] == searchForm["search"]
    ensures "search" !in searchForm ==> r["search"] == Null
  {
    map["currentPage" := IntValue(currentPage), "perPageRecord" := IntValue(pageSize),
        "search" := Field(searchForm, "search")]
  }

  class SaleList {
    var sales: seq<Record>
    /** The search form's value: one `search` control. */
    var searchForm: Record
    var isLoading: bool
    var currentPage: int
    var pageSize: int
    var totalPages: int
    var totalElements: int
    var startIndex: int
    var endIndex: int
    /** Toasts, oldest first. */
    var notifications: seq<Notice>
    /** The parameters of each `searchSales` call, oldest first. */
    var requests: seq<Record>

    /** The parameters the next load sends. */
    function Params(): Record
      reads this
    {
      SearchParams(currentPage, pageSize, searchForm)
    }

    /** An empty search on the first page of ten, nothing loaded. */
    constructor ()
      ensures sales == [] && searchForm == map["search" := Str("")]
      ensures !isLoading && currentPage == 0 && pageSize == 10
      ensures totalPages == 0 && totalElements == 0 && startIndex == 0 && endIndex == 0
      ensures notifications == [] && requests == []
    {
      sales := [];
      searchForm := map["search" := Str("")];
      isLoading := false;
      currentPage := 0;
      pageSize := 10;
      totalPages := 0;
      totalElements := 0;
      startIndex := 0;
      endIndex := 0;
      notifications := [];
      requests := [];
    }

    /** `ngOnInit()`: the first load. */
    method NgOnInit()
      modifies this`isLoading, this`requests
      ensures isLoading && requests == old(requests) + [Params()]
    {
      LoadSales();
    }

    /** `loadSales()`: ask for the current page. */
    method LoadSales()
      modifies this`isLoading, this`requests
      ensures isLoading && requests == old(requests) + [Params()]
    {
      isLoading := true;
      requests := requests + [SearchParams(currentPage, pageSize, searchForm)];
    }

    /** `next` of `searchSales`: the page is taken as it is, with `endIndex`
        written as `min((currentPage + 1) * pageSize, totalElements)`. */
    method OnLoadResponse(data: PageData)
      modifies this`sales, this`totalPages, this`totalElements, this`startIndex, this`endIndex, this`isLoading
      ensures sales == data.content && totalPages == data.totalPages && totalElements == data.totalElements
      ensures startIndex == StartIndex(currentPage, pageSize)
      ensures endIndex == EndIndex(currentPage, pageSize, totalElements)
      ensures endIndex - startIndex <= pageSize && endIndex <= totalElements
      ensures !isLoading
    {
      sales := data.content;
      totalPages := data.totalPages;
      totalElements := data.totalElements;
      startIndex := currentPage * pageSize;
      endIndex := Min((currentPage + 1) * pageSize, totalElements);
      EndIndexSpellings(currentPage, pageSize, totalElements);
      IndexBounds(currentPage, pageSize, totalElements);
      isLoading := false;
    }

    /** `error` of `searchSales`. */
    method OnLoadError()
      modifies this`notifications, this`isLoading
      ensures notifications == old(notifications) + [Failure("Failed to load sales")] && !isLoading
    {
      notifications := notifications + [Failure("Failed to load sales")];
      isLoading := false;
    }

    /** `onSearch()`: back to the first page. */
    method OnSearch()
      modifies this`currentPage, this`isLoading, this`requests
      ensures currentPage == 0 && isLoading && requests == old(requests) + [Params()]
    {
      currentPage := 0;
      LoadSales();
    }

    /** `onPageChange(page)`: any page is taken as it is, without a range check. */
    method OnPageChange(page: int)
      modifies this`currentPage, this`isLoading, this`requests
      ensures currentPage == page && isLoading && requests == old(requests) + [Params()]
    {
      currentPage := page;
      LoadSales();
    }

    /** `onPageSizeChange()`, after the page size control changed `pageSize`. */
    method OnPageSizeChange()
      modifies this`currentPage, this`isLoading, this`requests
      ensures currentPage == 0 && isLoading && requests == old(requests) + [Params()]
    {
      currentPage := 0;
      LoadSales();
    }

    /** `getPageNumbers()`. */
    method GetPageNumbers() returns (pageNumbers: seq<int>)
      ensures pageNumbers == PageWindow(totalPages, currentPage)
    {
      pageNumbers := BuildPageNumbers(totalPages, currentPage);
    }
  }
}
