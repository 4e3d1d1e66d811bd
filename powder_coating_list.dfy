/** The powder-coating process list (`powder-coating/powder-coating-process`):
    a paged search whose parameters are the search form's fields overridden by
    the page, the page size and a fixed newest-first sort. A response is
    applied only when it reports success. */
module PowderCoatingList {
  import opened Values
  import opened Paging

  /** `{ ...searchForm.value, currentPage, perPageRecord, sortBy: 'id',
      sortDir: 'desc' }`: whatever the form holds, the request carries the
      current page and size and sorts by id, newest first. */
  function SearchParams(searchForm: Record, currentPage: int, pageSize: int): (r: Record)
    ensures r.Keys == searchForm.Keys + {"currentPage", "perPageRecord", "sortBy", "sortDir"}
    ensures r["currentPage"] == IntValue(currentPage) && r["perPageRecord"] == IntValue(pageSize)
    ensures r["sortBy"] == Str("id") && r["sortDir"] == Str("desc")
    ensures forall k :: k in searchForm && k !in {"currentPage", "perPageRecord", "sortBy", "sortDir"} ==>
              r[k] == searchForm[k]
  {
    Spread(searchForm, map["currentPage" := IntValue(currentPage), "perPageRecord" := IntValue(pageSize),
                           "sortBy" := Str("id"), "sortDir" := Str("desc")])
  }

  class PowderCoatingList {
    var processes: seq<Record>
    var searchForm: Record
    var isLoading: bool
    var currentPage: int
    var pageSize: int
    var totalPages: int
    var totalElements: int
    var startIndex: int
    var endIndex: int
    /** Snackbar toasts, oldest first. */
    var notifications: seq<Notice>
    /** The parameters of each `searchProcesses` call, oldest first. */
    var requests: seq<Record>

    /** The parameters the next load sends. */
    function Params(): Record
      reads this
    {
      SearchParams(searchForm, currentPage, pageSize)
    }

    /** An empty search on the first page of ten, nothing loaded. */
    constructor ()
      ensures processes == []
      ensures searchForm == map["search" := Str(""), "productId" := Str(""), "categoryId" := Str(""), "customerId" := Str("")]
      ensures !isLoading && currentPage == 0 && pageSize == 10
      ensures totalPages == 0 && totalElements == 0 && startIndex == 0 && endIndex == 0
      ensures notifications == [] && requests == []
    {
      processes := [];
      searchForm := map["search" := Str(""), "productId" := Str(""), "categoryId" := Str(""), "customerId" := Str("")];
      isLoading := false;
      currentPage := 0;
      pageSize := 10;
      totalPages := 0;
      totalElements := 0;
      startIndex := 0;
      endIndex := 0;
      notifications := [];
      requests := [];
    }

    /** `ngOnInit()`: the first load of processes (the product list it also
        loads is not part of this model). */
    method NgOnInit()
      modifies this`isLoading, this`requests
      ensures isLoading && requests == old(requests) + [Params()]
    {
      LoadProcesses();
    }

    /** `loadProcesses()`: ask for the current page. */
    method LoadProcesses()
      modifies this`isLoading, this`requests
      ensures isLoading && requests == old(requests) + [Params()]
    {
      isLoading := true;
      requests := requests + [SearchParams(searchForm, currentPage, pageSize)];
    }

    /** `next` of `searchProcesses`: the page is taken only when the response
        reports success. */
    method OnLoadResponse(response: SearchResponse)
      modifies this`processes, this`totalPages, this`totalElements, this`startIndex, this`endIndex, this`isLoading
      ensures response.success ==>
                processes == response.data.content && totalPages == response.data.totalPages
                && totalElements == response.data.totalElements
                && startIndex == StartIndex(currentPage, pageSize)
                && endIndex == EndIndex(currentPage, pageSize, totalElements)
      ensures !response.success ==>
                processes == old(processes) && totalPages == old(totalPages) && totalElements == old(totalElements)
                && startIndex == old(startIndex) && endIndex == old(endIndex)
      ensures !isLoading
    {
      if response.success {
        processes := response.data.content;
        totalPages := response.data.totalPages;
        totalElements := response.data.totalElements;
        UpdatePaginationIndexes();
      }
      isLoading := false;
    }

    /** `error` of `searchProcesses`. */
    method OnLoadError()
      modifies this`notifications, this`isLoading
      ensures notifications == old(notifications) + [Failure("Failed to load processes")] && !isLoading
    {
      notifications := notifications + [Failure("Failed to load processes")];
      isLoading := false;
    }

    /** `updatePaginationIndexes()`, written here with
        `min((currentPage + 1) * pageSize, totalElements)`. */
    method UpdatePaginationIndexes()
      modifies this`startIndex, this`endIndex
      ensures startIndex == StartIndex(currentPage, pageSize)
      ensures endIndex == EndIndex(currentPage, pageSize, totalElements)
      ensures endIndex - startIndex <= pageSize && endIndex <= totalElements
    {
      startIndex := currentPage * pageSize;
      endIndex := Min((currentPage + 1) * pageSize, totalElements);
      EndIndexSpellings(currentPage, pageSize, totalElements);
      IndexBounds(currentPage, pageSize, totalElements);
    }

    /** `onSearch()`: back to the first page. */
    method OnSearch()
      modifies this`currentPage, this`isLoading, this`requests
      ensures currentPage == 0 && isLoading && requests == old(requests) + [Params()]
    {
      currentPage := 0;
      LoadProcesses();
    }

    /** `onPageChange(page)`: any page is taken as it is, without a range check. */
    method OnPageChange(page: int)
      modifies this`currentPage, this`isLoading, this`requests
      ensures currentPage == page && isLoading && requests == old(requests) + [Params()]
    {
      currentPage := page;
      LoadProcesses();
    }

    /** `onPageSizeChange()`, after the page size control changed `pageSize`. */
    method OnPageSizeChange()
      modifies this`currentPage, this`isLoading, this`requests
      ensures currentPage == 0 && isLoading && requests == old(requests) + [Params()]
    {
      currentPage := 0;
      LoadProcesses();
    }

    /** `getPageNumbers()`. */
    method GetPageNumbers() returns (pageNumbers: seq<int>)
      ensures pageNumbers == PageWindow(totalPages, currentPage)
    {
      pageNumbers := BuildPageNumbers(totalPages, currentPage);
    }

    /** `resetForm()`: every search control back to `null`, the first page. */
    method ResetForm()
      modifies this`searchForm, this`currentPage, this`isLoading, this`requests
      ensures searchForm == ResetAll(old(searchForm))
      ensures currentPage == 0 && isLoading && requests == old(requests) + [Params()]
    {
      searchForm := ResetAll(searchForm);
      currentPage := 0;
      LoadProcesses();
    }
  }
}
