/**
 * The admin appointment list: the component keeps the filters and the page and asks the backend
 * for one page at a time, sorted by scheduled time, newest first.
 */
module AppointmentsList {
  import opened Base
  import Text
  import Paging

  const ItemsPerPage := 10
  /** 23:59:59.999 as milliseconds after midnight. */
  const LastMsOfDay := 86_399_999
  const LoadErrorText := "No se pudieron cargar las citas. Inténtalo de nuevo."

  type Instant = int

  /**
   * `new Date(year, monthIndex, day, h, min, s, ms)` as milliseconds since the epoch, given the
   * local wall-clock time as milliseconds after midnight (`h * 3600000 + min * 60000 + s * 1000 + ms`).
   * The platform's calendar (month rollover, two-digit years) and time zone, DST included, stay
   * inside this function.
   */
  type LocalTime = (int, int, int, int) -> Instant

  /** On every local day the last millisecond comes after midnight, however long DST makes the day. */
  ghost predicate DayOrdered(clock: LocalTime) {
    forall y, m, d :: clock(y, m, d, 0) < clock(y, m, d, LastMsOfDay)
  }

  datatype AppointmentRow = AppointmentRow(
    id: string, patientName: string, preferredDateTime: Instant, scheduledDateTime: Instant, status: string)

  datatype AppointmentsResponse = AppointmentsResponse(data: seq<AppointmentRow>, total: nat)

  /** The query object sent to the backend; an absent property is `None`. */
  datatype Query = Query(
    page: nat, limit: nat, sortBy: string, sortOrder: string,
    patientName: Option<string>, status: Option<string>,
    dateFrom: Option<Instant>, dateTo: Option<Instant>)

  /**
   * `s.split('-').map(Number)` read as `(year, month - 1, day)`; `None` when a part is missing
   * or not a number, in which case the `Date` built from it is invalid.
   */
  function DateParts(s: string): Option<(int, int, int)> {
    var parts := Text.SplitOn(s, '-');
    if |parts| < 3 then None
    else match (Text.NumberOf(parts[0]), Text.NumberOf(parts[1]), Text.NumberOf(parts[2]))
      case (Some(y), Some(m), Some(d)) => Some((y as int, m as int - 1, d as int))
      case _ => None
  }

  /** A `YYYY-MM-DD` string of digit groups reads as (year, month - 1, day). */
  lemma {:induction false} DatePartsOfDigits(y: string, m: string, d: string)
    requires Text.AllDigits(y) && Text.AllDigits(m) && Text.AllDigits(d)
    ensures DateParts(y + "-" + m + "-" + d)
            == Some((Text.DecimalValue(y), Text.DecimalValue(m) - 1, Text.DecimalValue(d)))
  {
    assert '-' !in y && '-' !in m && '-' !in d;
    SplitDate(y, m, d);
    var parts := Text.SplitOn(y + "-" + m + "-" + d, '-');
    assert parts[0] == y && parts[1] == m && parts[2] == d;
    assert Text.NumberOf(y) == Some(Text.DecimalValue(y));
    assert Text.NumberOf(m) == Some(Text.DecimalValue(m));
    assert Text.NumberOf(d) == Some(Text.DecimalValue(d));
  }

  lemma SplitDate(y: string, m: string, d: string)
    requires '-' !in y && '-' !in m && '-' !in d
    ensures Text.SplitOn(y + "-" + m + "-" + d, '-') == [y, m, d]
  {
    var rest := m + ['-'] + d;
    assert y + "-" + m + "-" + d == y + ['-'] + rest;
    Text.SplitOnFirst(m, d, '-');
    Text.SplitOnNone(d, '-');
    Text.SplitOnFirst(y, rest, '-');
  }

  /** `dateFrom`: local midnight of the filter's day. */
  function DayStart(clock: LocalTime, s: string): Option<Instant> {
    match DateParts(s)
    case Some((y, mi, d)) => Some(clock(y, mi, d, 0))
    case None => None
  }

  /** `dateTo`: 23:59:59.999 local time on the filter's day. */
  function DayEnd(clock: LocalTime, s: string): Option<Instant> {
    match DateParts(s)
    case Some((y, mi, d)) => Some(clock(y, mi, d, LastMsOfDay))
    case None => None
  }

  /**
   * For one filter day, `dateFrom` and `dateTo` are both defined or both not; they are midnight and
   * 23:59:59.999 of the same local day, so `dateFrom < dateTo` whenever the clock keeps the day in order.
   */
  lemma SameDayBounds(clock: LocalTime, s: string)
    ensures DayStart(clock, s).Some? <==> DayEnd(clock, s).Some?
    ensures DayStart(clock, s).Some? ==>
              exists y, m, d :: DayStart(clock, s) == Some(clock(y, m, d, 0)) && DayEnd(clock, s) == Some(clock(y, m, d, LastMsOfDay))
    ensures DayStart(clock, s).Some? && DayOrdered(clock) ==> DayStart(clock, s).value < DayEnd(clock, s).value
  {
    if DateParts(s).Some? {
      var (y, m, d) := DateParts(s).value;
      assert DayStart(clock, s) == Some(clock(y, m, d, 0)) && DayEnd(clock, s) == Some(clock(y, m, d, LastMsOfDay));
    }
  }

  /** The display labels of the statuses. */
  const StatusTranslations: map<string, string> :=
    map["pending" := "Pendiente", "confirmed" := "Confirmada", "cancelled" := "Cancelada", "completed" := "Completada"]

  /** `getTranslatedStatus`: the Spanish label of a known status, any other status unchanged. */
  function TranslatedStatus(status: string): (r: string)
    ensures status in StatusTranslations ==> r == StatusTranslations[status]
    ensures status !in StatusTranslations ==> r == status
  {
    if status in StatusTranslations then StatusTranslations[status] else status
  }

  /** The four statuses offered in the filter each get a label of their own. */
  lemma TranslationsDistinct()
    ensures var opts := ["pending", "confirmed", "cancelled", "completed"];
      && (forall i :: 0 <= i < 4 ==> TranslatedStatus(opts[i]) != opts[i])
      && (forall i, j :: 0 <= i < j < 4 ==> TranslatedStatus(opts[i]) != TranslatedStatus(opts[j]))
  {
  }

  class AppointmentsComponent {
    const clock: LocalTime
    var appointments: seq<AppointmentRow>
    var totalAppointments: nat
    var currentPage: nat
    var loading: bool
    var errorMessage: Option<string>
    var filterPatientName: string
    var filterStatus: string
    var filterDateFrom: string
    var filterDateTo: string
    /** Queries sent to the backend, oldest first. */
    var requests: seq<Query>

    ghost predicate Valid()
      reads this
    {
      currentPage >= 1
    }

    constructor(clock: LocalTime)
      ensures Valid() && this.clock == clock
      ensures appointments == [] && totalAppointments == 0 && currentPage == 1 && loading && errorMessage == None
      ensures filterPatientName == "" && filterStatus == "" && filterDateFrom == "" && filterDateTo == ""
      ensures requests == []
    {
      this.clock := clock;
      appointments, totalAppointments, currentPage := [], 0, 1;
      loading, errorMessage := true, None;
      filterPatientName, filterStatus, filterDateFrom, filterDateTo := "", "", "", "";
      requests := [];
    }

    /**
     * The query `loadAppointments` builds, property by property; `None` when a date filter does
     * not make a valid date (`toISOString` then throws and nothing is sent).
     */
    method QueryParams() returns (q: Option<Query>)
      ensures q.None? <==> (filterDateFrom != "" && DayStart(clock, filterDateFrom).None?)
                           || (filterDateTo != "" && DayEnd(clock, filterDateTo).None?)
      ensures q.Some? ==>
        && q.value.page == currentPage && q.value.limit == ItemsPerPage
        && q.value.sortBy == "scheduledDateTime" && q.value.sortOrder == "desc"
        && q.value.patientName == (if filterPatientName != "" then Some(filterPatientName) else None)
        && q.value.status == (if filterStatus != "" then Some(filterStatus) else None)
        && q.value.dateFrom == (if filterDateFrom != "" then DayStart(clock, filterDateFrom) else None)
        && q.value.dateTo == (if filterDateTo != "" then DayEnd(clock, filterDateTo) else None)
    {
      var queryParams := Query(currentPage, ItemsPerPage, "scheduledDateTime", "desc", None, None, None, None);
      if filterPatientName != "" {
        queryParams := queryParams.(patientName := Some(filterPatientName));
      }
      if filterStatus != "" {
        queryParams := queryParams.(status := Some(filterStatus));
      }
      if filterDateFrom != "" {
        var localDateFrom := DayStart(clock, filterDateFrom);
        if localDateFrom.None? {
          return None;
        }
        queryParams := queryParams.(dateFrom := localDateFrom);
      }
      if filterDateTo != "" {
        var localDateTo := DayEnd(clock, filterDateTo);
        if localDateTo.None? {
          return None;
        }
        queryParams := queryParams.(dateTo := localDateTo);
      }
      q := Some(queryParams);
    }

    /**
     * `requests` is `before` plus, unless a date filter fails to read as a date, exactly one query:
     * the current page, ten per page, newest first, and each filter that is set.
     */
    ghost predicate SentQueryFor(before: seq<Query>)
      reads this
    {
      && before <= requests && |requests| <= |before| + 1
      && (|requests| == |before| + 1 <==>
            !((filterDateFrom != "" && DayStart(clock, filterDateFrom).None?)
              || (filterDateTo != "" && DayEnd(clock, filterDateTo).None?)))
      && (|requests| == |before| + 1 ==>
            var q := requests[|requests| - 1];
            && q.page == currentPage && q.limit == ItemsPerPage
            && q.sortBy == "scheduledDateTime" && q.sortOrder == "desc"
            && q.patientName == (if filterPatientName != "" then Some(filterPatientName) else None)
            && q.status == (if filterStatus != "" then Some(filterStatus) else None)
            && q.dateFrom == (if filterDateFrom != "" then DayStart(clock, filterDateFrom) else None)
            && q.dateTo == (if filterDateTo != "" then DayEnd(clock, filterDateTo) else None))
    }

    /** `loadAppointments`: loading starts, the error is cleared and the query is sent. */
    method LoadAppointments()
      modifies this`loading, this`errorMessage, this`requests
      ensures loading && errorMessage == None
      ensures SentQueryFor(old(requests))
    {
      loading := true;
      errorMessage := None;
      var q := QueryParams();
      if q.Some? {
        requests := requests + [q.value];
      }
    }

    /** The response of a page request. */
    method OnLoaded(response: AppointmentsResponse)
      modifies this`appointments, this`totalAppointments, this`loading
      ensures appointments == response.data && |appointments| == |response.data|
      ensures totalAppointments == response.total && !loading
    {
      appointments := response.data;
      totalAppointments := response.total;
      loading := false;
    }

    /** A failed page request. */
    method OnLoadError()
      modifies this`errorMessage, this`loading
      ensures errorMessage == Some(LoadErrorText) && !loading
    {
      errorMessage := Some(LoadErrorText);
      loading := false;
    }

    /** `getTotalPages` */
    function TotalPages(): (r: nat)
      reads this
      ensures r * ItemsPerPage >= totalAppointments && (r > 0 ==> (r - 1) * ItemsPerPage < totalAppointments)
    {
      Paging.PageCount(totalAppointments, ItemsPerPage)
    }

    /** `getPagesArray` */
    function PagesArray(): (r: seq<int>)
      reads this
      ensures forall page :: page in r <==> 1 <= page <= TotalPages()
    {
      var n := TotalPages();
      forall page ensures page in Paging.PageNumbers(n) <==> 1 <= page <= n {
        Paging.PageNumbersAreValidPages(n, page);
      }
      Paging.PageNumbers(n)
    }

    /** Moves to `page` and reloads when it is between 1 and the page count; otherwise nothing changes. */
    method OnPageChange(page: int)
      requires Valid()
      modifies this`currentPage, this`loading, this`errorMessage, this`requests
      ensures Valid()
      ensures !(1 <= page <= old(TotalPages())) ==> unchanged(this)
      ensures 1 <= page <= old(TotalPages()) ==>
                currentPage == page && loading && errorMessage == None && SentQueryFor(old(requests))
    {
      if page >= 1 && page <= TotalPages() {
        currentPage := page;
        LoadAppointments();
      }
    }

    /** `applyFilters`: back to page 1 and reload with the current filters. */
    method ApplyFilters()
      modifies this`currentPage, this`loading, this`errorMessage, this`requests
      ensures Valid() && currentPage == 1 && loading && errorMessage == None
      ensures SentQueryFor(old(requests))
    {
      currentPage := 1;
      LoadAppointments();
    }

    /** `clearFilters`: all four filters emptied, back to page 1, reload. */
    method ClearFilters()
      modifies this`filterPatientName, this`filterStatus, this`filterDateFrom, this`filterDateTo
      modifies this`currentPage, this`loading, this`errorMessage, this`requests
      ensures Valid() && currentPage == 1 && loading && errorMessage == None
      ensures filterPatientName == "" && filterStatus == "" && filterDateFrom == "" && filterDateTo == ""
      ensures requests == old(requests) + [Query(1, ItemsPerPage, "scheduledDateTime", "desc", None, None, None, None)]
    {
      filterPatientName, filterStatus, filterDateFrom, filterDateTo := "", "", "", "";
      currentPage := 1;
      LoadAppointments();
    }
  }
}
