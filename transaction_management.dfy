/**
 * The transaction management page: the query it sends for the current
 * filters, how it reads the paginated response (an error empties the
 * table), how each raw transaction becomes a table row, and how the
 * search box, the date filter and the pager move the current page.
 */
module TransactionManagement {
  import opened JsValues
  import opened JsStrings
  import opened ApiShapes
  import Pagination

  /** The page size the page is created with (`useState(1)`, never changed). */
  const PerPage: int := 1

  /** The date filter is sent unless it is empty or "all". */
  predicate DateFilterActive(dateFilter: string) {
    dateFilter != "" && dateFilter != "all"
  }

  /** The query parameter list for the current page, page size, search text and date filter. */
  method BuildQueryParams(currentPage: int, perPage: int, searchText: string, dateFilter: string)
    returns (params: seq<Param>)
    ensures |params| == 2 + (if Trim(searchText) != "" then 1 else 0) + (if DateFilterActive(dateFilter) then 1 else 0)
    ensures params[0] == Param("page", IntToString(currentPage))
    ensures params[1] == Param("limit", IntToString(perPage))
    ensures forall i :: 2 <= i < |params| ==> params[i].name == "searchTerm" || params[i].name == "dateFilter"
    ensures HasParam(params, "searchTerm") <==> Trim(searchText) != ""
    ensures ValueIs(params, "searchTerm", Trim(searchText))
    ensures HasParam(params, "dateFilter") <==> DateFilterActive(dateFilter)
    ensures ValueIs(params, "dateFilter", dateFilter)
    ensures Before(params, "searchTerm", "dateFilter")
  {
    params := [Param("page", IntToString(currentPage)), Param("limit", IntToString(perPage))];
    if Trim(searchText) != "" {
      params := params + [Param("searchTerm", Trim(searchText))];
    }
    if DateFilterActive(dateFilter) {
      params := params + [Param("dateFilter", dateFilter)];
      assert params[|params| - 1].name == "dateFilter";
    }
    if Trim(searchText) != "" {
      assert params[2].name == "searchTerm";
    }
  }

  /** A transaction as the backend sends it; every field may be missing. */
  datatype RawTransaction = RawTransaction(
    id: Option<string>,
    parent: Option<Party>,
    nanny: Option<Party>,
    bookingType: Option<string>,
    bookingStatus: Option<string>,
    paymentStatus: Option<string>,
    totalPayable: Option<int>,
    paymentIntentId: Option<string>,
    createdAt: Option<string>)

  /** A row of the transaction table. */
  datatype Transaction = Transaction(
    id: Option<string>,
    parentName: string,
    parentEmail: string,
    nannyName: string,
    nannyEmail: string,
    bookingType: string,
    bookingStatus: string,
    paymentStatus: string,
    totalPayable: int,
    paymentIntentId: string,
    createdAt: Option<string>)

  /** A shown text is the raw one when that is non-empty, and the fallback otherwise. */
  predicate Defaulted(raw: Option<string>, shown: string, fallback: string) {
    (Truthy(raw) ==> shown == raw.value) && (!Truthy(raw) ==> shown == fallback)
  }

  /** One raw transaction as a table row, with 'N/A', 'PENDING' and 0 for what is missing. */
  function ToTransaction(raw: RawTransaction): (t: Transaction)
    ensures t.id == raw.id && t.createdAt == raw.createdAt
    ensures Defaulted(NameOf(raw.parent), t.parentName, "N/A")
    ensures Defaulted(EmailOf(raw.parent), t.parentEmail, "N/A")
    ensures Defaulted(NameOf(raw.nanny), t.nannyName, "N/A")
    ensures Defaulted(EmailOf(raw.nanny), t.nannyEmail, "N/A")
    ensures Defaulted(raw.bookingType, t.bookingType, "N/A")
    ensures Defaulted(raw.bookingStatus, t.bookingStatus, "PENDING")
    ensures Defaulted(raw.paymentStatus, t.paymentStatus, "PENDING")
    ensures Defaulted(raw.paymentIntentId, t.paymentIntentId, "N/A")
    ensures t.totalPayable == if raw.totalPayable.Some? then raw.totalPayable.value else 0
    ensures t.parentName != "" && t.parentEmail != "" && t.nannyName != "" && t.nannyEmail != ""
    ensures t.bookingType != "" && t.bookingStatus != "" && t.paymentStatus != "" && t.paymentIntentId != ""
  {
    Transaction(
      raw.id,
      StrOr(NameOf(raw.parent), "N/A"),
      StrOr(EmailOf(raw.parent), "N/A"),
      StrOr(NameOf(raw.nanny), "N/A"),
      StrOr(EmailOf(raw.nanny), "N/A"),
      StrOr(raw.bookingType, "N/A"),
      StrOr(raw.bookingStatus, "PENDING"),
      StrOr(raw.paymentStatus, "PENDING"),
      NumOr(raw.totalPayable, 0),
      StrOr(raw.paymentIntentId, "N/A"),
      raw.createdAt)
  }

  /** The `map` over the fetched records: one row per record, in the same order. */
  function ToTransactions(raws: seq<RawTransaction>): (ts: seq<Transaction>)
    ensures |ts| == |raws|
    ensures forall i :: 0 <= i < |raws| ==> ts[i] == ToTransaction(raws[i])
  {
    seq(|raws|, i requires 0 <= i < |raws| => ToTransaction(raws[i]))
  }

  /** A transport error or `success === false` counts as an error. */
  predicate HasError(errored: bool, resp: Option<Response<RawTransaction>>) {
    errored || (resp.Some? && resp.value.success == Some(false))
  }

  datatype Listing = Listing(records: seq<RawTransaction>, totalPages: int, totalItems: int)

  /** The records, page count and item count the page takes from a response. */
  function ReadListing(errored: bool, resp: Option<Response<RawTransaction>>): (l: Listing)
    ensures HasError(errored, resp) ==> l == Listing([], 1, 0)
    ensures !HasError(errored, resp) ==> l.records == Records(resp)
    ensures !HasError(errored, resp) && TotalPageOf(resp).Some? && TotalPageOf(resp).value != 0 ==>
      l.totalPages == TotalPageOf(resp).value
    ensures !HasError(errored, resp) && TotalOf(resp).Some? ==> l.totalItems == TotalOf(resp).value
    ensures l.totalPages != 0
    ensures TotalPageOf(resp).None? || TotalPageOf(resp).value == 0 ==> l.totalPages == 1
    ensures TotalOf(resp).None? || TotalOf(resp).value == 0 ==> l.totalItems == 0
  {
    if HasError(errored, resp) then Listing([], 1, 0)
    else Listing(Records(resp), NumOr(TotalPageOf(resp), 1), NumOr(TotalOf(resp), 0))
  }

  /** `prev => Math.max(1, prev - 1)`: one page back, never before page 1. */
  function PreviousPage(page: int): (p: int)
    ensures p >= 1
    ensures page > 1 ==> p == page - 1
    ensures page <= 1 ==> p == 1
  {
    Pagination.Max(1, page - 1)
  }

  /** `prev => Math.min(totalPages, prev + 1)`: one page on, never past the last page. */
  function NextPage(page: int, totalPages: int): (p: int)
    ensures p <= totalPages
    ensures page < totalPages ==> p == page + 1
    ensures page >= totalPages ==> p == totalPages
  {
    Pagination.Min(totalPages, page + 1)
  }

  /** Both clamps keep a page inside [1, totalPages]. */
  lemma ClampsStayInRange(page: int, totalPages: int)
    requires 1 <= page <= totalPages
    ensures 1 <= PreviousPage(page) <= totalPages
    ensures 1 <= NextPage(page, totalPages) <= totalPages
  {
  }

  /** The page's own state: the search text, the date filter and the current page. */
  class TransactionPage {
    var searchText: string
    var dateFilter: string
    var currentPage: int

    constructor ()
      ensures searchText == "" && dateFilter == "all" && currentPage == 1
    {
      searchText := "";
      dateFilter := "all";
      currentPage := 1;
    }

    /** Typing in the search box stores the text and goes back to page 1. */
    method HandleSearch(value: string)
      modifies this
      ensures searchText == value && currentPage == 1
      ensures dateFilter == old(dateFilter)
    {
      searchText := value;
      currentPage := 1;
    }

    /** Choosing a date filter stores it and goes back to page 1. */
    method HandleDateFilter(value: string)
      modifies this
      ensures dateFilter == value && currentPage == 1
      ensures searchText == old(searchText)
    {
      dateFilter := value;
      currentPage := 1;
    }

    /** The Previous button; it is disabled on page 1 and while fetching. */
    method ClickPrevious(isFetching: bool)
      modifies this
      ensures currentPage == if old(currentPage) == 1 || isFetching then old(currentPage) else PreviousPage(old(currentPage))
      ensures 1 <= old(currentPage) ==> 1 <= currentPage <= old(currentPage)
      ensures searchText == old(searchText) && dateFilter == old(dateFilter)
    {
      if !(currentPage == 1 || isFetching) {
        currentPage := PreviousPage(currentPage);
      }
    }

    /** The Next button; it is disabled on the last page and while fetching. */
    method ClickNext(totalPages: int, isFetching: bool)
      modifies this
      ensures currentPage == if old(currentPage) == totalPages || isFetching then old(currentPage) else NextPage(old(currentPage), totalPages)
      ensures 1 <= old(currentPage) <= totalPages ==> old(currentPage) <= currentPage <= totalPages
      ensures searchText == old(searchText) && dateFilter == old(dateFilter)
    {
      if !(currentPage == totalPages || isFetching) {
        currentPage := NextPage(currentPage, totalPages);
      }
    }

    /** A numbered button of the window; they are disabled while fetching. */
    method ClickPageNumber(totalPages: int, i: nat, isFetching: bool)
      requires i < |Pagination.PageWindow(totalPages, currentPage)|
      modifies this
      ensures currentPage == if isFetching then old(currentPage) else Pagination.PageWindow(totalPages, old(currentPage))[i]
      ensures 1 <= old(currentPage) <= totalPages ==> 1 <= currentPage <= totalPages
      ensures searchText == old(searchText) && dateFilter == old(dateFilter)
    {
      if !isFetching {
        currentPage := Pagination.PageWindow(totalPages, currentPage)[i];
      }
    }
  }
}
