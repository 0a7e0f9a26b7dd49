/**
 * The booking management page: the two encodings of a booking status
 * (upper case from the backend, lower case in the table), the query it
 * sends for the current filters, how each raw booking becomes a table
 * row, the "Showing X to Y of Z" line and the page state behind the pager.
 */
module BookingManagement {
  import opened JsValues
  import opened JsStrings
  import opened ApiShapes
  import Pagination

  /** The page size the page is created with (`useState(10)`, never changed). */
  const PerPage: int := 10

  datatype BookingStatus = Completed | Confirmed | Pending | Cancelled {
    /** The lower-case name shown in the table and used as the filter value. */
    function Name(): string {
      match this
      case Completed => "completed"
      case Confirmed => "confirmed"
      case Pending => "pending"
      case Cancelled => "cancelled"
    }

    /** The upper-case name the backend uses. */
    function ApiName(): string {
      match this
      case Completed => "COMPLETED"
      case Confirmed => "CONFIRMED"
      case Pending => "PENDING"
      case Cancelled => "CANCELLED"
    }
  }

  predicate IsApiStatus(s: string) {
    s == "COMPLETED" || s == "CONFIRMED" || s == "PENDING" || s == "CANCELLED"
  }

  /** mapApiStatus: the four backend names map to their status, anything else to pending. */
  function MapApiStatus(apiStatus: Option<string>): (st: BookingStatus)
    ensures apiStatus.Some? && IsApiStatus(apiStatus.value) ==> st.ApiName() == apiStatus.value
    ensures apiStatus.None? || !IsApiStatus(apiStatus.value) ==> st == Pending
  {
    match apiStatus
    case Some("COMPLETED") => Completed
    case Some("CONFIRMED") => Confirmed
    case Some("PENDING") => Pending
    case Some("CANCELLED") => Cancelled
    case _ => Pending
  }

  /** The backend encoding of a status is decoded to that status. */
  lemma ApiNameRoundTrip(st: BookingStatus)
    ensures IsApiStatus(st.ApiName())
    ensures MapApiStatus(Some(st.ApiName())) == st
  {
  }

  /** Upper-casing a filter value gives the backend name of the same status. */
  lemma FilterValueUpperIsApiName(st: BookingStatus)
    ensures ToUpper(st.Name()) == st.ApiName()
  {
    var n := st.Name();
    var u := ToUpper(n);
    assert |u| == |st.ApiName()|;
    forall i | 0 <= i < |u| ensures u[i] == st.ApiName()[i] {
      assert u[i] == ToUpperChar(n[i]);
    }
  }

  /** A status chosen in the filter, sent upper-cased and read back by mapApiStatus, is that status. */
  lemma FilterRoundTrip(st: BookingStatus)
    ensures MapApiStatus(Some(ToUpper(st.Name()))).Name() == st.Name()
  {
    FilterValueUpperIsApiName(st);
  }

  /** The status filter is sent unless it is empty or "all". */
  predicate StatusFilterActive(statusFilter: string) {
    statusFilter != "" && statusFilter != "all"
  }

  /** The query parameter list for the current page, page size, search text and status filter. */
  method BuildQueryParams(currentPage: int, perPage: int, searchText: string, statusFilter: string)
    returns (params: seq<Param>)
    ensures |params| == 2 + (if Trim(searchText) != "" then 1 else 0) + (if StatusFilterActive(statusFilter) then 1 else 0)
    ensures params[0] == Param("page", IntToString(currentPage))
    ensures params[1] == Param("limit", IntToString(perPage))
    ensures forall i :: 2 <= i < |params| ==> params[i].name == "searchTerm" || params[i].name == "bookingStatus"
    ensures HasParam(params, "searchTerm") <==> Trim(searchText) != ""
    ensures ValueIs(params, "searchTerm", Trim(searchText))
    ensures HasParam(params, "bookingStatus") <==> StatusFilterActive(statusFilter)
    ensures ValueIs(params, "bookingStatus", ToUpper(statusFilter))
    ensures Before(params, "searchTerm", "bookingStatus")
  {
    params := [Param("page", IntToString(currentPage)), Param("limit", IntToString(perPage))];
    if Trim(searchText) != "" {
      params := params + [Param("searchTerm", Trim(searchText))];
    }
    if StatusFilterActive(statusFilter) {
      params := params + [Param("bookingStatus", ToUpper(statusFilter))];
      assert params[|params| - 1].name == "bookingStatus";
    }
    if Trim(searchText) != "" {
      assert params[2].name == "searchTerm";
    }
  }

  datatype HourlyBooking = HourlyBooking(date: Option<string>, startTime: Option<string>, endTime: Option<string>)

  datatype FullDayBooking = FullDayBooking(fullDays: Option<seq<string>>)

  /** A booking as the backend sends it; every field may be missing. */
  datatype RawBooking = RawBooking(
    id: Option<string>,
    parent: Option<Party>,
    nanny: Option<Party>,
    hourlyBooking: Option<HourlyBooking>,
    fullDayBooking: Option<FullDayBooking>,
    bookingStatus: Option<string>,
    totalPayable: Option<int>,
    bookingType: Option<string>)

  /** A row of the booking table. */
  datatype Booking = Booking(
    id: Option<string>,
    motherName: string,
    nannyName: string,
    date: string,
    time: string,
    duration: string,
    status: BookingStatus,
    amount: int,
    location: string,
    services: seq<string>)

  /** `booking.hourlyBooking?.date`. */
  function HourlyDate(raw: RawBooking): Option<string> {
    if raw.hourlyBooking.Some? then raw.hourlyBooking.value.date else None
  }

  /** `booking.hourlyBooking?.startTime`. */
  function HourlyStart(raw: RawBooking): Option<string> {
    if raw.hourlyBooking.Some? then raw.hourlyBooking.value.startTime else None
  }

  /** `booking.fullDayBooking?.fullDays?.[0]`: missing for an absent or empty list. */
  function FirstFullDay(raw: RawBooking): (d: Option<string>)
    ensures d.Some? <==> raw.fullDayBooking.Some? && raw.fullDayBooking.value.fullDays.Some?
                         && |raw.fullDayBooking.value.fullDays.value| > 0
    ensures d.Some? ==> d.value == raw.fullDayBooking.value.fullDays.value[0]
  {
    match raw.fullDayBooking
    case Some(FullDayBooking(Some(days))) => if |days| > 0 then Some(days[0]) else None
    case _ => None
  }

  /** The hourly date if there is one, else the first full day, else 'N/A'. */
  function BookingDate(raw: RawBooking): (d: string)
    ensures Truthy(HourlyDate(raw)) ==> d == HourlyDate(raw).value
    ensures !Truthy(HourlyDate(raw)) && Truthy(FirstFullDay(raw)) ==> d == FirstFullDay(raw).value
    ensures !Truthy(HourlyDate(raw)) && !Truthy(FirstFullDay(raw)) ==> d == "N/A"
    ensures d != ""
  {
    if Truthy(HourlyDate(raw)) then HourlyDate(raw).value else StrOr(FirstFullDay(raw), "N/A")
  }

  /** "start - end" for an hourly booking, "Full Day" otherwise. */
  function Duration(raw: RawBooking): (d: string)
    ensures raw.hourlyBooking.Some? ==>
      d == Interpolate(raw.hourlyBooking.value.startTime) + " - " + Interpolate(raw.hourlyBooking.value.endTime)
    ensures raw.hourlyBooking.None? ==> d == "Full Day"
  {
    match raw.hourlyBooking
    case Some(h) => Interpolate(h.startTime) + " - " + Interpolate(h.endTime)
    case None => "Full Day"
  }

  /** One raw booking as a table row. */
  function ToBooking(raw: RawBooking): (b: Booking)
    ensures b.id == raw.id
    ensures Truthy(NameOf(raw.parent)) ==> b.motherName == NameOf(raw.parent).value
    ensures !Truthy(NameOf(raw.parent)) ==> b.motherName == "N/A"
    ensures Truthy(NameOf(raw.nanny)) ==> b.nannyName == NameOf(raw.nanny).value
    ensures !Truthy(NameOf(raw.nanny)) ==> b.nannyName == "N/A"
    ensures b.date == BookingDate(raw)
    ensures Truthy(HourlyStart(raw)) ==> b.time == HourlyStart(raw).value
    ensures !Truthy(HourlyStart(raw)) ==> b.time == "N/A"
    ensures b.duration == Duration(raw)
    ensures b.status == MapApiStatus(raw.bookingStatus)
    ensures b.amount == if raw.totalPayable.Some? then raw.totalPayable.value else 0
    ensures b.location == "N/A"
    ensures |b.services| == 1
    ensures Truthy(raw.bookingType) ==> b.services[0] == raw.bookingType.value
    ensures !Truthy(raw.bookingType) ==> b.services[0] == "Standard Care"
  {
    Booking(
      raw.id,
      StrOr(NameOf(raw.parent), "N/A"),
      StrOr(NameOf(raw.nanny), "N/A"),
      BookingDate(raw),
      StrOr(HourlyStart(raw), "N/A"),
      Duration(raw),
      MapApiStatus(raw.bookingStatus),
      NumOr(raw.totalPayable, 0),
      "N/A",
      [StrOr(raw.bookingType, "Standard Care")])
  }

  /** The `map` over the fetched records: one row per record, in the same order. */
  function ToBookings(raws: seq<RawBooking>): (bs: seq<Booking>)
    ensures |bs| == |raws|
    ensures forall i :: 0 <= i < |raws| ==> bs[i] == ToBooking(raws[i])
  {
    seq(|raws|, i requires 0 <= i < |raws| => ToBooking(raws[i]))
  }

  datatype Listing = Listing(records: seq<RawBooking>, totalPages: int, totalItems: int)

  /** The records, page count and item count the page takes from a response; there is no error branch. */
  function ReadListing(resp: Option<Response<RawBooking>>): (l: Listing)
    ensures l.records == Records(resp)
    ensures TotalPageOf(resp).Some? && TotalPageOf(resp).value != 0 ==> l.totalPages == TotalPageOf(resp).value
    ensures TotalPageOf(resp).None? || TotalPageOf(resp).value == 0 ==> l.totalPages == 1
    ensures TotalOf(resp).Some? ==> l.totalItems == TotalOf(resp).value
    ensures TotalOf(resp).None? ==> l.totalItems == 0
  {
    Listing(Records(resp), NumOr(TotalPageOf(resp), 1), NumOr(TotalOf(resp), 0))
  }

  /** `status.charAt(0).toUpperCase() + status.slice(1)`. */
  function StatusLabel(st: BookingStatus): (text: string)
    ensures |text| == |st.Name()|
    ensures text[1..] == st.Name()[1..]
    ensures text[0] == ToUpperChar(st.Name()[0])
  {
    Capitalize(st.Name())
  }

  /** The badge label of each status is the label of that status in the filter. */
  lemma StatusLabelsMatchFilterItems()
    ensures StatusLabel(Completed) == "Completed"
    ensures StatusLabel(Confirmed) == "Confirmed"
    ensures StatusLabel(Pending) == "Pending"
    ensures StatusLabel(Cancelled) == "Cancelled"
  {
  }

  datatype ShownRange = ShownRange(first: int, last: int)

  /** "Showing first to last of totalItems". */
  function ShowingRange(currentPage: int, perPage: int, totalItems: int): (r: ShownRange)
    ensures r.last <= totalItems
    ensures currentPage >= 1 && perPage >= 0 ==> r.first >= 1
    ensures r.last - r.first < perPage
    ensures perPage >= 1 && (currentPage - 1) * perPage < totalItems ==> r.first <= r.last
    ensures currentPage * perPage <= totalItems ==> r.last - r.first + 1 == perPage
  {
    assert currentPage * perPage == (currentPage - 1) * perPage + perPage;
    ShownRange((currentPage - 1) * perPage + 1, Pagination.Min(currentPage * perPage, totalItems))
  }

  /** The page's own state: the search text, the status filter and the current page. */
  class BookingPage {
    var searchText: string
    var statusFilter: string
    var currentPage: int

    constructor ()
      ensures searchText == "" && statusFilter == "all" && currentPage == 1
    {
      searchText := "";
      statusFilter := "all";
      currentPage := 1;
    }

    /** Typing in the search box stores the text and goes back to page 1. */
    method HandleSearch(value: string)
      modifies this
      ensures searchText == value && currentPage == 1
      ensures statusFilter == old(statusFilter)
    {
      searchText := value;
      currentPage := 1;
    }

    /** Choosing a status filter stores it and goes back to page 1. */
    method HandleStatusFilter(value: string)
      modifies this
      ensures statusFilter == value && currentPage == 1
      ensures searchText == old(searchText)
    {
      statusFilter := value;
      currentPage := 1;
    }

    /** The Previous button: `currentPage - 1`, unclamped, but disabled on page 1 and while fetching. */
    method ClickPrevious(isFetching: bool)
      modifies this
      ensures currentPage == if old(currentPage) == 1 || isFetching then old(currentPage) else old(currentPage) - 1
      ensures 1 <= old(currentPage) ==> 1 <= currentPage <= old(currentPage)
      ensures searchText == old(searchText) && statusFilter == old(statusFilter)
    {
      if !(currentPage == 1 || isFetching) {
        currentPage := currentPage - 1;
      }
    }

    /** The Next button: `currentPage + 1`, unclamped, but disabled on the last page and while fetching. */
    method ClickNext(totalPages: int, isFetching: bool)
      modifies this
      ensures currentPage == if old(currentPage) == totalPages || isFetching then old(currentPage) else old(currentPage) + 1
      ensures 1 <= old(currentPage) <= totalPages ==> old(currentPage) <= currentPage <= totalPages
      ensures searchText == old(searchText) && statusFilter == old(statusFilter)
    {
      if !(currentPage == totalPages || isFetching) {
        currentPage := currentPage + 1;
      }
    }

    /** A numbered button of the window; they are disabled while fetching. */
    method ClickPageNumber(totalPages: int, i: nat, isFetching: bool)
      requires i < |Pagination.PageWindow(totalPages, currentPage)|
      modifies this
      ensures currentPage == if isFetching then old(currentPage) else Pagination.PageWindow(totalPages, old(currentPage))[i]
      ensures 1 <= old(currentPage) <= totalPages ==> 1 <= currentPage <= totalPages
      ensures searchText == old(searchText) && statusFilter == old(statusFilter)
    {
      if !isFetching {
        currentPage := Pagination.PageWindow(totalPages, currentPage)[i];
      }
    }
  }
}
