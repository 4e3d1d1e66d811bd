/** The customer list (`customer`): a paged search on one search text. Page
    changes are not checked; a response is applied only when it reports
    success. */
module CustomerList {
  import opened Values
  import opened Paging

  /** `{ currentPage, perPageRecord, search: searchForm.get('search')?.value }`. */
  function SearchParams(currentPage: int, pageSize: int, searchForm: Record): (r: Record)
    ensures r.Keys == {"currentPage", "perPageRecord", "search"}
    ensures r["currentPage"] == IntValue(currentPage) && r["perPageRecord"] == IntValue(pageSize)
    ensures "search" in searchForm ==> r["search"] == searchForm["search"]
    ensures "search" !in searchForm ==> r["search"] == Null
  {
    map["currentPage" := IntValue(currentPage), "perPageRecord" := IntValue(pageSize),
        "search" := Field(searchForm, "search")]
  }

  class CustomerList {
    var customers: seq<Record>
    /** The search form's value: one `search` control. */
    var searchForm: Record
    var isLoading: bool
    var currentPage: int
    var pageSize: int
    var totalPages: int
    var totalElements: int
    var startIndex: int
    var endIndex: int
    /** Toasts, oldest first. */
    var notifications: seq<Notice>
    /** The parameters of each `searchCustomers` call, oldest first. */
    var requests: seq<Record>

    /** The parameters the next load sends. */
    function Params(): Record
      reads this
    {
      SearchParams(currentPage, pageSize, searchForm)
    }

    /** An empty search on the first page of ten, nothing loaded. */
    constructor ()
      ensures customers == [] && searchForm == map["search" := Str("")]
      ensures !isLoading && currentPage == 0 && pageSize == 10
      ensures totalPages == 0 && totalElements == 0 && startIndex == 0 && endIndex == 0
      ensures notifications == [] && requests == []
    {
      customers := [];
      searchForm := map["search" := Str("")];
      isLoading := false;
      currentPage := 0;
      pageSize := 10;
      totalPages := 0;
      totalElements := 0;
      startIndex := 0;
      endIndex := 0;
      notifications := [];
      requests := [];
    }

    /** `ngOnInit()`: the first load. */
    method NgOnInit()
      modifies this`isLoading, this`requests
      ensures isLoading && requests == old(requests) + [Params()]
    {
      LoadCustomers();
    }

    /** `loadCustomers()`: ask for the current page. */
    method LoadCustomers()
      modifies this`isLoading, this`requests
      ensures isLoading && requests == old(requests) + [Params()]
    {
      isLoading := true;
      requests := requests + [SearchParams(currentPage, pageSize, searchForm)];
    }

    /** `next` of `searchCustomers`: the page is taken only when the response
        reports success. */
    method OnLoadResponse(response: SearchResponse)
      modifies this`customers, this`totalPages, this`totalElements, this`startIndex, this`endIndex, this`isLoading
      ensures response.success ==>
                customers == response.data.content && totalPages == response.data.totalPages
                && totalElements == response.data.totalElements
                && startIndex == StartIndex(currentPage, pageSize)
                && endIndex == EndIndex(currentPage, pageSize, totalElements)
      ensures !response.success ==>
                customers == old(customers) && totalPages == old(totalPages) && totalElements == old(totalElements)
                && startIndex == old(startIndex) && endIndex == old(endIndex)
      ensures !isLoading
    {
      if response.success {
        customers := response.data.content;
        totalPages := response.data.totalPages;
        totalElements := response.data.totalElements;
        UpdatePaginationIndexes();
      }
      isLoading := false;
    }

    /** `error` of `searchCustomers`. */
    method OnLoadError()
      modifies this`notifications, this`isLoading
      ensures notifications == old(notifications) + [Failure("Failed to load customers")] && !isLoading
    {
      notifications := notifications + [Failure("Failed to load customers")];
      isLoading := false;
    }

    /** `onSearch()`: back to the first page. */
    method OnSearch()
      modifies this`currentPage, this`isLoading, this`requests
      ensures currentPage == 0 && isLoading && requests == old(requests) + [Params()]
    {
      currentPage := 0;
      LoadCustomers();
    }

    /** `onPageChange(page)`: any page is taken as it is, without a range check. */
    method OnPageChange(page: int)
      modifies this`currentPage, this`isLoading, this`requests
      ensures currentPage == page && isLoading && requests == old(requests) + [Params()]
    {
      currentPage := page;
      LoadCustomers();
    }

    /** `onPageSizeChange()`, after the page size control changed `pageSize`. */
    method OnPageSizeChange()
      modifies this`currentPage, this`isLoading, this`requests
      ensures currentPage == 0 && isLoading && requests == old(requests) + [Params()]
    {
      currentPage := 0;
      LoadCustomers();
    }

    /** `getPageNumbers()`. */
    method GetPageNumbers() returns (pageNumbers: seq<int>)
      ensures pageNumbers == PageWindow(totalPages, currentPage)
    {
      pageNumbers := BuildPageNumbers(totalPages, currentPage);
    }

    /** `updatePaginationIndexes()`. */
    method UpdatePaginationIndexes()
      modifies this`startIndex, this`endIndex
      ensures startIndex == StartIndex(currentPage, pageSize)
      ensures endIndex == EndIndex(currentPage, pageSize, totalElements)
      ensures endIndex - startIndex <= pageSize && endIndex <= totalElements
    {
      startIndex := currentPage * pageSize;
      endIndex := Min(startIndex + pageSize, totalElements);
    }
  }
}
