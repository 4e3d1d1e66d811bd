/** The employee list (`employee/employee-list`): a paged search whose
    parameters are the search form's fields plus the page and the page size.
    A new search or a reset also brings the page size back to ten. */
module EmployeeList {
  import opened Values
  import opened Paging

  const DefaultPageSize := 10

  /** `{ ...searchForm.value, page, size }`: the paging fields win over any
      form field of the same name. */
  function SearchParams(searchForm: Record, page: int, size: int): (r: Record)
    ensures r.Keys == searchForm.Keys + {"page", "size"}
    ensures r["page"] == IntValue(page) && r["size"] == IntValue(size)
    ensures forall k :: k in searchForm && k != "page" && k != "size" ==> r[k] == searchForm[k]
  {
    Spread(searchForm, map["page" := IntValue(page), "size" := IntValue(size)])
  }

  class EmployeeList {
    var employees: seq<Record>
    /** The search form's value: one `search` control. */
    var searchForm: Record
    var isLoading: bool
    var currentPage: int
    var pageSize: int
    var totalPages: int
    var totalElements: int
    var startIndex: int
    var endIndex: int
    /** Snackbar toasts, oldest first. */
    var notifications: seq<Notice>
    /** The parameters of each `searchEmployees` call, oldest first. */
    var requests: seq<Record>

    /** The parameters the next load sends. */
    function Params(): Record
      reads this
    {
      SearchParams(searchForm, currentPage, pageSize)
    }

    /** An empty search on the first page of ten, nothing loaded. */
    constructor ()
      ensures employees == [] && searchForm == map["search" := Str("")]
      ensures !isLoading && currentPage == 0 && pageSize == DefaultPageSize
      ensures totalPages == 0 && totalElements == 0 && startIndex == 0 && endIndex == 0
      ensures notifications == [] && requests == []
    {
      employees := [];
      searchForm := map["search" := Str("")];
      isLoading := false;
      currentPage := 0;
      pageSize := DefaultPageSize;
      totalPages := 0;
      totalElements := 0;
      startIndex := 0;
      endIndex := 0;
      notifications := [];
      requests := [];
    }

    /** `ngOnInit()`: the first load. */
    method NgOnInit()
      modifies this`isLoading, this`requests
      ensures isLoading && requests == old(requests) + [Params()]
    {
      LoadEmployees();
    }

    /** `loadEmployees()`: ask for the current page. */
    method LoadEmployees()
      modifies this`isLoading, this`requests
      ensures isLoading && requests == old(requests) + [Params()]
    {
      isLoading := true;
      requests := requests + [SearchParams(searchForm, currentPage, pageSize)];
    }

    /** `onSearch()`: the first page, and the page size back to ten. */
    method OnSearch()
      modifies this`currentPage, this`pageSize, this`isLoading, this`requests
      ensures currentPage == 0 && pageSize == DefaultPageSize
      ensures isLoading && requests == old(requests) + [Params()]
    {
      currentPage := 0;
      pageSize := DefaultPageSize;
      LoadEmployees();
    }

    /** `resetForm()`: the search control back to `null`, the first page of ten. */
    method ResetForm()
      modifies this`searchForm, this`currentPage, this`pageSize, this`isLoading, this`requests
      ensures searchForm == ResetAll(old(searchForm))
      ensures currentPage == 0 && pageSize == DefaultPageSize
      ensures isLoading && requests == old(requests) + [Params()]
    {
      searchForm := ResetAll(searchForm);
      currentPage := 0;
      pageSize := DefaultPageSize;
      LoadEmployees();
    }

    /** `onPageSizeChange()`: the first page, keeping the size just chosen. */
    method OnPageSizeChange()
      modifies this`currentPage, this`isLoading, this`requests
      ensures currentPage == 0 && pageSize == old(pageSize)
      ensures isLoading && requests == old(requests) + [Params()]
    {
      currentPage := 0;
      LoadEmployees();
    }

    /** `onPageChange(page)`: only an existing page is loaded; anything else
        is ignored. */
    method OnPageChange(page: int)
      modifies this`currentPage, this`isLoading, this`requests
      ensures 0 <= page < totalPages ==> currentPage == page && isLoading && requests == old(requests) + [Params()]
      ensures !(0 <= page < totalPages) ==>
                currentPage == old(currentPage) && isLoading == old(isLoading) && requests == old(requests)
    {
      if page >= 0 && page < totalPages {
        currentPage := page;
        LoadEmployees();
      }
    }

    /** `updatePaginationIndexes()`. */
    method UpdatePaginationIndexes()
      modifies this`startIndex, this`endIndex
      ensures startIndex == StartIndex(currentPage, pageSize)
      ensures endIndex == EndIndex(currentPage, pageSize, totalElements)
      ensures endIndex - startIndex <= pageSize && endIndex <= totalElements
    {
      startIndex := currentPage * pageSize;
      endIndex := Min(startIndex + pageSize, totalElements);
    }

    /** `next` of `searchEmployees`: the page is taken only when the response
        reports success. */
    method OnLoadResponse(response: SearchResponse)
      modifies this`employees, this`totalPages, this`totalElements, this`startIndex, this`endIndex, this`isLoading
      ensures response.success ==>
                employees == response.data.content && totalPages == response.data.totalPages
                && totalElements == response.data.totalElements
                && startIndex == StartIndex(currentPage, pageSize)
                && endIndex == EndIndex(currentPage, pageSize, totalElements)
      ensures !response.success ==>
                employees == old(employees) && totalPages == old(totalPages) && totalElements == old(totalElements)
                && startIndex == old(startIndex) && endIndex == old(endIndex)
      ensures !isLoading
    {
      if response.success {
        employees := response.data.content;
        totalPages := response.data.totalPages;
        totalElements := response.data.totalElements;
        UpdatePaginationIndexes();
      }
      isLoading := false;
    }

    /** `error` of `searchEmployees`. */
    method OnLoadError()
      modifies this`notifications, this`isLoading
      ensures notifications == old(notifications) + [Failure("Failed to load employees")] && !isLoading
    {
      notifications := notifications + [Failure("Failed to load employees")];
      isLoading := false;
    }

    /** `getPageNumbers()`. */
    method GetPageNumbers() returns (pageNumbers: seq<int>)
      ensures pageNumbers == PageWindow(totalPages, currentPage)
    {
      pageNumbers := BuildPageNumbers(totalPages, currentPage);
    }
  }
}
