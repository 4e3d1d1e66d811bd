/** The transport list (`Transports/transport-list`): a paged, searchable
    list of transports filtered by a date range. Page changes are checked
    against the page count, and a response is applied only when it reports
    success. Each `searchTransports` call is recorded in `requests`. */
module TransportList {
  import opened Values
  import opened Text
  import opened Paging

  /** A date control's value as the list reads it: nothing entered, text
      that `new Date` cannot parse, or the local calendar day it denotes
      (`getDate()`, `getMonth() + 1`, `getFullYear()`). */
  datatype DateInput = Empty | Invalid | Day(day: nat, month: nat, year: int)

  /** The time appended to a start date and to an end date. */
  function TimeOfDay(isStartDate: bool): string
  {
    if isStartDate then "00:00:00" else "23:59:59.999"
  }

  /** `formatDateForApi(date, isStartDate)`: `DD-MM-YYYY` followed by the
      first or the last instant of the day; the empty string for no date or
      an unparsable one. */
  function FormatDateForApi(date: DateInput, isStartDate: bool): string
  {
    match date
    case Empty => ""
    case Invalid => ""
    case Day(d, m, y) =>
      TwoDigits(d) + "-" + TwoDigits(m) + "-" + IntToString(y) + " " + TimeOfDay(isStartDate)
  }

  /** `r` is `dd-mm-y t` for a day and a month of two characters each: the
      dashes sit at positions 2 and 5, each part reads back as the number
      it stands for, and the time of day follows the year after a space. */
  predicate LaidOut(r: string, y: string, t: string, day: int, month: int, year: int)
  {
    |r| > 6 + |y|
    && r[2] == '-' && r[5] == '-'
    && ParseDecimal(r[..2]) == day && ParseDecimal(r[3..5]) == month
    && r[6..6 + |y|] == y && ParseDecimal(r[6..6 + |y|]) == year
    && r[6 + |y|..] == " " + t
  }

  /** Where the parts of `dd-mm-y t` sit when the day and the month take two
      characters each, and what each part reads back as. */
  lemma {:induction false} DateSlices(dd: string, mm: string, y: string, t: string, day: int, month: int, year: int)
    requires |dd| == 2 && |mm| == 2
    requires ParseDecimal(dd) == day && ParseDecimal(mm) == month && ParseDecimal(y) == year
    ensures LaidOut(dd + "-" + mm + "-" + y + " " + t, y, t, day, month, year)
  {
    var r := dd + "-" + mm + "-" + y + " " + t;
    var head := dd + "-" + mm + "-";
    assert r == head + (y + (" " + t));
    assert head[..2] == dd && r[..2] == dd;
    assert head[3..5] == mm && r[3..5] == mm;
    assert r[6..6 + |y|] == y;
  }

  /** A date in a year written without a sign. */
  lemma FormatDay(day: nat, month: nat, year: nat, isStartDate: bool)
    ensures FormatDateForApi(Day(day, month, year), isStartDate)
            == TwoDigits(day) + "-" + TwoDigits(month) + "-" + NatToString(year) + " " + TimeOfDay(isStartDate)
  {
  }

  /** A date reads back from its rendering: two digits of day, a dash, two
      digits of month, a dash, the year, a space and the time of day. */
  lemma FormatDateLayout(day: nat, month: nat, year: nat, isStartDate: bool)
    requires day < 100 && month < 100
    ensures LaidOut(FormatDateForApi(Day(day, month, year), isStartDate), NatToString(year),
                    TimeOfDay(isStartDate), day, month, year)
  {
    var dd, mm, y, t := TwoDigits(day), TwoDigits(month), NatToString(year), TimeOfDay(isStartDate);
    FormatDay(day, month, year, isStartDate);
    TwoDigitsRoundTrip(day);
    TwoDigitsRoundTrip(month);
    ParseNatToString(year);
    DateSlices(dd, mm, y, t, day, month, year);
  }

  /** No date, or one that does not parse, is sent as the empty string. */
  lemma FormatDateEmpty(date: DateInput, isStartDate: bool)
    ensures FormatDateForApi(date, isStartDate) == "" <==> !date.Day?
  {
  }

  /** The year 2024 is written as four digits. */
  lemma YearExample()
    ensures NatToString(2024) == "2024"
  {
    assert NatToString(2) == "2";
    assert NatToString(20) == "20";
    assert NatToString(202) == "202";
  }

  /** Single-digit days and months are padded with a zero. */
  lemma PaddedExample()
    ensures TwoDigits(1) == "01"
  {
    assert NatToString(1) == "1";
  }

  /** Two-digit days and months are written as they are. */
  lemma UnpaddedExample()
    ensures TwoDigits(31) == "31" && TwoDigits(12) == "12"
  {
    assert NatToString(3) == "3" && NatToString(31) == "31";
    assert NatToString(1) == "1" && NatToString(12) == "12";
  }

  /** The first of January 2024 as the start of a range. */
  lemma FormatStartDateExample()
    ensures FormatDateForApi(Day(1, 1, 2024), true) == "01-01-2024 00:00:00"
  {
    StartDateParts();
    StartDateText();
  }

  /** The start-date rendering, part by part. */
  lemma StartDateParts()
    ensures FormatDateForApi(Day(1, 1, 2024), true) == "01" + "-" + "01" + "-" + "2024" + " " + TimeOfDay(true)
  {
    calc {
      FormatDateForApi(Day(1, 1, 2024), true);
      == { FormatDay(1, 1, 2024, true); }
      TwoDigits(1) + "-" + TwoDigits(1) + "-" + NatToString(2024) + " " + TimeOfDay(true);
      == { YearExample(); PaddedExample(); }
      "01" + "-" + "01" + "-" + "2024" + " " + TimeOfDay(true);
    }
  }

  /** The last day of 2024 as the end of a range. */
  lemma FormatEndDateExample()
    ensures FormatDateForApi(Day(31, 12, 2024), false) == "31-12-2024 23:59:59.999"
  {
    EndDateParts();
    EndDateText();
  }

  /** The end-date rendering, part by part. */
  lemma EndDateParts()
    ensures FormatDateForApi(Day(31, 12, 2024), false) == "31" + "-" + "12" + "-" + "2024" + " " + TimeOfDay(false)
  {
    calc {
      FormatDateForApi(Day(31, 12, 2024), false);
      == { FormatDay(31, 12, 2024, false); }
      TwoDigits(31) + "-" + TwoDigits(12) + "-" + NatToString(2024) + " " + TimeOfDay(false);
      == { YearExample(); UnpaddedExample(); }
      "31" + "-" + "12" + "-" + "2024" + " " + TimeOfDay(false);
    }
  }

  /** The start-date parts joined. */
  lemma StartDateText()
    ensures "01" + "-" + "01" + "-" + "2024" + " " + TimeOfDay(true) == "01-01-2024 00:00:00"
  {
  }

  /** The end-date parts joined. */
  lemma EndDateText()
    ensures "31" + "-" + "12" + "-" + "2024" + " " + TimeOfDay(false) == "31-12-2024 23:59:59.999"
  {
  }

  /** `formValues.search?.trim() || ''`: the trimmed text, or `''` once the
      control was reset to `null`. */
  function SearchTerm(search: Value): (r: string)
    ensures r == [] || (!IsSpace(r[0]) && !IsSpace(r[|r| - 1]))
    ensures search.Str? ==> r == Trim(search.s)
    ensures !search.Str? ==> r == ""
  {
    if search.Str? then Trim(search.s) else ""
  }

  /** The parameters of `searchTransports`. */
  function SearchParams(currentPage: int, pageSize: int, search: Value, startDate: DateInput, endDate: DateInput): (r: Record)
    ensures r.Keys == {"currentPage", "perPageRecord", "startDate", "endDate", "search", "sortBy", "sortDir"}
    ensures r["currentPage"] == IntValue(currentPage) && r["perPageRecord"] == IntValue(pageSize)
    ensures r["sortBy"] == Str("id") && r["sortDir"] == Str("desc")
    ensures r["search"] == Str(SearchTerm(search))
    ensures r["startDate"] == Str(FormatDateForApi(startDate, true))
    ensures r["endDate"] == Str(FormatDateForApi(endDate, false))
  {
    map["currentPage" := IntValue(currentPage), "perPageRecord" := IntValue(pageSize),
        "startDate" := Str(FormatDateForApi(startDate, true)),
        "endDate" := Str(FormatDateForApi(endDate, false)),
        "search" := Str(SearchTerm(search)),
        "sortBy" := Str("id"), "sortDir" := Str("desc")]
  }

  class TransportList {
    var transports: seq<Record>
    var search: Value
    var startDate: DateInput
    var endDate: DateInput
    var isLoading: bool
    var currentPage: int
    var pageSize: int
    var totalPages: int
    var totalElements: int
    var startIndex: int
    var endIndex: int
    /** Snackbar toasts, oldest first. */
    var notifications: seq<Notice>
    /** The parameters of each `searchTransports` call, oldest first. */
    var requests: seq<Record>

    /** The parameters the next load sends. */
    function Params(): Record
      reads this
    {
      SearchParams(currentPage, pageSize, search, startDate, endDate)
    }

    /** The first page of ten, an empty search, nothing loaded. */
    constructor ()
      ensures transports == [] && search == Str("") && startDate == Empty && endDate == Empty
      ensures !isLoading && currentPage == 0 && pageSize == 10
      ensures totalPages == 0 && totalElements == 0 && startIndex == 0 && endIndex == 0
      ensures notifications == [] && requests == []
    {
      transports := [];
      search := Str("");
      startDate := Empty;
      endDate := Empty;
      isLoading := false;
      currentPage := 0;
      pageSize := 10;
      totalPages := 0;
      totalElements := 0;
      startIndex := 0;
      endIndex := 0;
      notifications := [];
      requests := [];
    }

    /** `ngOnInit()`: the first load. */
    method NgOnInit()
      modifies this`isLoading, this`requests
      ensures isLoading && requests == old(requests) + [Params()]
    {
      LoadTransports();
    }

    /** `loadTransports()`: ask for the current page. */
    method LoadTransports()
      modifies this`isLoading, this`requests
      ensures isLoading && requests == old(requests) + [Params()]
    {
      isLoading := true;
      requests := requests + [SearchParams(currentPage, pageSize, search, startDate, endDate)];
    }

    /** `onSearch()`: back to the first page. */
    method OnSearch()
      modifies this`currentPage, this`isLoading, this`requests
      ensures currentPage == 0 && isLoading && requests == old(requests) + [Params()]
    {
      currentPage := 0;
      LoadTransports();
    }

    /** `onPageChange(page)`: only an existing page is loaded; anything else
        is ignored. */
    method OnPageChange(page: int)
      modifies this`currentPage, this`isLoading, this`requests
      ensures 0 <= page < totalPages ==> currentPage == page && isLoading && requests == old(requests) + [Params()]
      ensures !(0 <= page < totalPages) ==>
                currentPage == old(currentPage) && isLoading == old(isLoading) && requests == old(requests)
    {
      if page >= 0 && page < totalPages {
        currentPage := page;
        LoadTransports();
      }
    }

    /** `onPageSizeChange()`, after the page size control changed `pageSize`. */
    method OnPageSizeChange()
      modifies this`currentPage, this`isLoading, this`requests
      ensures currentPage == 0 && isLoading && requests == old(requests) + [Params()]
    {
      currentPage := 0;
      LoadTransports();
    }

    /** `resetForm()`: every search control back to `null`, the first page. */
    method ResetForm()
      modifies this`search, this`startDate, this`endDate, this`currentPage, this`isLoading, this`requests
      ensures search == Null && startDate == Empty && endDate == Empty
      ensures currentPage == 0 && isLoading && requests == old(requests) + [Params()]
      ensures Params()["search"] == Str("") && Params()["startDate"] == Str("") && Params()["endDate"] == Str("")
    {
      search := Null;
      startDate := Empty;
      endDate := Empty;
      currentPage := 0;
      LoadTransports();
    }

    /** `updatePaginationIndexes()`. */
    method UpdatePaginationIndexes()
      modifies this`startIndex, this`endIndex
      ensures startIndex == StartIndex(currentPage, pageSize)
      ensures endIndex == EndIndex(currentPage, pageSize, totalElements)
      ensures endIndex - startIndex <= pageSize && endIndex <= totalElements
    {
      startIndex := currentPage * pageSize;
      endIndex := Min(startIndex + pageSize, totalElements);
    }

    /** `next` of `searchTransports`: the page is taken only when the
        response reports success. */
    method OnLoadResponse(response: SearchResponse)
      modifies this`transports, this`totalPages, this`totalElements, this`startIndex, this`endIndex, this`isLoading
      ensures response.success ==>
                transports == response.data.content && totalPages == response.data.totalPages
                && totalElements == response.data.totalElements
                && startIndex == StartIndex(currentPage, pageSize)
                && endIndex == EndIndex(currentPage, pageSize, totalElements)
      ensures !response.success ==>
                transports == old(transports) && totalPages == old(totalPages) && totalElements == old(totalElements)
                && startIndex == old(startIndex) && endIndex == old(endIndex)
      ensures !isLoading
    {
      if response.success {
        transports := response.data.content;
        totalPages := response.data.totalPages;
        totalElements := response.data.totalElements;
        UpdatePaginationIndexes();
      }
      isLoading := false;
    }

    /** `error` of `searchTransports`. */
    method OnLoadError()
      modifies this`notifications, this`isLoading
      ensures notifications == old(notifications) + [Failure("Failed to load transports")] && !isLoading
    {
      notifications := notifications + [Failure("Failed to load transports")];
      isLoading := false;
    }

    /** `getPageNumbers()`. */
    method GetPageNumbers() returns (pageNumbers: seq<int>)
      ensures pageNumbers == PageWindow(totalPages, currentPage)
    {
      pageNumbers := BuildPageNumbers(totalPages, currentPage);
    }
  }
}
