/** The purchase list (`purchase`): a paged search whose parameters are the
    page fields followed by the search form's fields. Page changes are not
    checked and the response is applied without a success flag. */
module PurchaseList {
  import opened Values
  import opened Paging

  /** `{ currentPage, perPageRecord, ...searchForm.value }`: here the form's
      fields come last, so a form field of the same name would win. */
  function SearchParams(currentPage: int, pageSize: int, searchForm: Record): (r: Record)
    ensures r.Keys == searchForm.Keys + {"currentPage", "perPageRecord"}
    ensures forall k :: k in searchForm ==> r[k] == searchForm[k]
    ensures "currentPage" !in searchForm ==> r["currentPage"] == IntValue(currentPage)
    ensures "perPageRecord" !in searchForm ==> r["perPageRecord"] == IntValue(pageSize)
  {
    Spread(map["currentPage" := IntValue(currentPage), "perPageRecord" := IntValue(pageSize)], searchForm)
  }

  /** The search form's controls, as `initializeForm` creates them. */
  function InitialSearchForm(): (r: Record)
    ensures "currentPage" !in r && "perPageRecord" !in r
    ensures r.Keys == {"search", "productId", "startDate", "endDate"}
  {
    map["search" := Str(""), "productId" := Str(""), "startDate" := Str(""), "endDate" := Str("")]
  }

  class PurchaseList {
    var purchases: seq<Record>
    var searchForm: Record
    var isLoading: bool
    var currentPage: int
    var pageSize: int
    var totalPages: int
    var totalElements: int
    var startIndex: int
    var endIndex: int
    /** Snackbar toasts, oldest first. */
    var notifications: seq<Notice>
    /** The parameters of each `searchPurchases` call, oldest first. */
    var requests: seq<Record>

    /** The search form keeps the controls it was built with. */
    predicate Valid()
      reads this
    {
      searchForm.Keys == InitialSearchForm().Keys
    }

    /** The parameters the next load sends. */
    function Params(): Record
      reads this
    {
      SearchParams(currentPage, pageSize, searchForm)
    }

    /** An empty search on the first page of ten, nothing loaded. */
    constructor ()
      ensures purchases == [] && searchForm == InitialSearchForm()
      ensures !isLoading && currentPage == 0 && pageSize == 10
      ensures totalPages == 0 && totalElements == 0 && startIndex == 0 && endIndex == 0
      ensures notifications == [] && requests == []
      ensures Valid()
    {
      purchases := [];
      searchForm := InitialSearchForm();
      isLoading := false;
      currentPage := 0;
      pageSize := 10;
      totalPages := 0;
      totalElements := 0;
      startIndex := 0;
      endIndex := 0;
      notifications := [];
      requests := [];
    }

    /** `ngOnInit()`: the first load of purchases (the product list it also
        loads is not part of this model). */
    method NgOnInit()
      modifies this`isLoading, this`requests
      ensures isLoading && requests == old(requests) + [Params()]
    {
      LoadPurchases();
    }

    /** `loadPurchases()`: ask for the current page. While the form keeps its
        own controls, the request carries the current page and page size. */
    method LoadPurchases()
      modifies this`isLoading, this`requests
      ensures isLoading && requests == old(requests) + [Params()]
      ensures Valid() ==>
                Params()["currentPage"] == IntValue(currentPage) && Params()["perPageRecord"] == IntValue(pageSize)
    {
      isLoading := true;
      requests := requests + [SearchParams(currentPage, pageSize, searchForm)];
    }

    /** `onSearch()`: back to the first page. */
    method OnSearch()
      modifies this`currentPage, this`isLoading, this`requests
      ensures currentPage == 0 && isLoading && requests == old(requests) + [Params()]
    {
      currentPage := 0;
      LoadPurchases();
    }

    /** `onPageChange(page)`: any page is taken as it is, without a range check. */
    method OnPageChange(page: int)
      modifies this`currentPage, this`isLoading, this`requests
      ensures currentPage == page && isLoading && requests == old(requests) + [Params()]
    {
      currentPage := page;
      LoadPurchases();
    }

    /** `onPageSizeChange()`, after the page size control changed `pageSize`. */
    method OnPageSizeChange()
      modifies this`currentPage, this`isLoading, this`requests
      ensures currentPage == 0 && isLoading && requests == old(requests) + [Params()]
    {
      currentPage := 0;
      LoadPurchases();
    }

    /** `resetForm()`: every control back to `null`, the first page. */
    method ResetForm()
      modifies this`searchForm, this`currentPage, this`isLoading, this`requests
      ensures searchForm == ResetAll(old(searchForm))
      ensures currentPage == 0 && isLoading && requests == old(requests) + [Params()]
      ensures old(Valid()) ==> Valid()
    {
      searchForm := ResetAll(searchForm);
      currentPage := 0;
      LoadPurchases();
    }

    /** `next` of `searchPurchases`: the page is taken whatever the response
        says, and the indexes are written as `currentPage * pageSize` and
        `min((currentPage + 1) * pageSize, totalElements)`, the same values
        the other screens compute. */
    method OnLoadResponse(data: PageData)
      modifies this`purchases, this`totalPages, this`totalElements, this`startIndex, this`endIndex, this`isLoading
      ensures purchases == data.content && totalPages == data.totalPages && totalElements == data.totalElements
      ensures startIndex == StartIndex(currentPage, pageSize)
      ensures endIndex == EndIndex(currentPage, pageSize, totalElements)
      ensures endIndex - startIndex <= pageSize && endIndex <= totalElements
      ensures !isLoading
    {
      purchases := data.content;
      totalPages := data.totalPages;
      totalElements := data.totalElements;
      startIndex := currentPage * pageSize;
      endIndex := Min((currentPage + 1) * pageSize, totalElements);
      EndIndexSpellings(currentPage, pageSize, totalElements);
      IndexBounds(currentPage, pageSize, totalElements);
      isLoading := false;
    }

    /** `error` of `searchPurchases`: the server's message, or a fallback. */
    method OnLoadError(message: Option<string>)
      modifies this`notifications, this`isLoading
      ensures notifications == old(notifications) + [Failure(ErrorText(message, "Failed to load purchases"))]
      ensures !isLoading
    {
      notifications := notifications + [Failure(ErrorText(message, "Failed to load purchases"))];
      isLoading := false;
    }

    /** `getPageNumbers()`. */
    method GetPageNumbers() returns (pageNumbers: seq<int>)
      ensures pageNumbers == PageWindow(totalPages, currentPage)
    {
      pageNumbers := BuildPageNumbers(totalPages, currentPage);
    }
  }
}
