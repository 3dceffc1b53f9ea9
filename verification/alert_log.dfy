/**
 * The firm admin's emergency alert log: the server-side page query, the join
 * of each incident with the profile that triggered it, the client-side
 * search over the joined rows, and the pager.
 */
module AlertLog {
  import opened Wrappers
  import opened Text
  import opened Lists
  import opened Paging
  import opened Entities
  import opened Session

  const Policy := AuthPolicy(FirmAdmin, true,
    "Access Denied: Only Firm Admins can view alert logs.",
    "AlertLogTable: Firm Admin not assigned to a firm. Cannot display alert logs.",
    false)

  /** The table's controls: search, the two filter selects, the page and the page size. */
  datatype LogView = LogView(searchTerm: string, filterStatus: string, filterType: string, page: int, itemsPerPage: PageSize)

  const InitialView := LogView("", "", "", 1, ItemsPerPage)

  /** The incidents query: the caller's firm, one page, and the active filters. */
  datatype IncidentQuery = IncidentQuery(firmId: string, limit: PageSize, offset: int, status: Option<string>, incidentType: Option<string>)

  /** `fetchAlertLogs`' query, or None when the guard aborts the fetch. */
  function QueryFor(caller: Option<UserData>, view: LogView): (r: Option<IncidentQuery>)
    ensures r.Some? <==> FirmScopedFetch(caller).Some?
    ensures r.Some? ==> r.value.firmId == FirmScopedFetch(caller).value
    ensures r.Some? ==> r.value.limit == view.itemsPerPage && r.value.offset == PageStart(view.page, view.itemsPerPage)
    ensures r.Some? ==> (r.value.status.Some? <==> view.filterStatus != "")
    ensures r.Some? ==> (r.value.incidentType.Some? <==> view.filterType != "")
    ensures r.Some? && r.value.status.Some? ==> r.value.status.value == view.filterStatus
    ensures r.Some? && r.value.incidentType.Some? ==> r.value.incidentType.value == view.filterType
  {
    match FirmScopedFetch(caller)
    case None => None
    case Some(firm) =>
      Some(IncidentQuery(firm, view.itemsPerPage, PageStart(view.page, view.itemsPerPage),
                         OrNull(Some(view.filterStatus)), OrNull(Some(view.filterType))))
  }

  /** An incident the query's equality filters accept. */
  predicate Matches(i: Incident, q: IncidentQuery) {
    i.firmId == q.firmId &&
    (q.status.None? || i.status == q.status.value) &&
    (q.incidentType.None? || i.incidentType == q.incidentType.value)
  }

  /** What the table holds after a fetch. */
  datatype LogData = LogData(incidents: seq<Incident>, profiles: seq<Profile>, totalRecords: nat)

  /** A guarded fetch empties both lists and the total. */
  function AfterFetch(caller: Option<UserData>, view: LogView, fetched: LogData): (r: LogData)
    ensures QueryFor(caller, view).None? ==> r == LogData([], [], 0)
    ensures QueryFor(caller, view).Some? ==> r == fetched
  {
    if QueryFor(caller, view).Some? then fetched else LogData([], [], 0)
  }

  /** An incident with the details of the employee who triggered it. */
  datatype LogEntry = LogEntry(incident: Incident, employeeName: string, employeeEmail: string, employeeNumber: string, employeeCode: string)

  /** The first profile whose account triggered the incident; an incident without a trigger has none. */
  function Trigger(i: Incident, profiles: seq<Profile>): (r: Option<Profile>)
    ensures r.Some? ==> r.value in profiles && i.triggeredByUserId == Some(r.value.userId)
    ensures r.None? <==> forall j :: 0 <= j < |profiles| ==> i.triggeredByUserId != Some(profiles[j].userId)
  {
    Find(profiles, (p: Profile) => i.triggeredByUserId == Some(p.userId))
  }

  /** One row: the employee's fields, or "Unknown"/"N/A" where there is no profile or the field is empty. */
  function JoinEntry(i: Incident, profiles: seq<Profile>): (e: LogEntry)
    ensures e.incident == i
    ensures e.employeeName != "" && e.employeeEmail != "" && e.employeeNumber != "" && e.employeeCode != ""
    ensures Trigger(i, profiles).None? ==>
      e.employeeName == "Unknown" && e.employeeEmail == "N/A" && e.employeeNumber == "N/A" && e.employeeCode == "N/A"
    ensures Trigger(i, profiles).Some? ==>
      var p := Trigger(i, profiles).value;
      e.employeeName == OrElse(p.fullName, "Unknown") && e.employeeEmail == OrElse(Some(p.officialEmail), "N/A") &&
      e.employeeNumber == OrElse(p.contactNumber, "N/A") && e.employeeCode == OrElse(p.employeeCode, "N/A")
  {
    match Trigger(i, profiles)
    case None => LogEntry(i, "Unknown", "N/A", "N/A", "N/A")
    case Some(p) =>
      LogEntry(i, OrElse(p.fullName, "Unknown"), OrElse(Some(p.officialEmail), "N/A"),
               OrElse(p.contactNumber, "N/A"), OrElse(p.employeeCode, "N/A"))
  }

  /** The search matches code, name, email, type and status ignoring case; the number as displayed. */
  predicate SearchHit(e: LogEntry, lowerTerm: string) {
    MatchesFolded(e.employeeCode, lowerTerm) || MatchesFolded(e.employeeName, lowerTerm) ||
    MatchesFolded(e.employeeEmail, lowerTerm) || Contains(e.employeeNumber, lowerTerm) ||
    MatchesFolded(e.incident.incidentType, lowerTerm) || MatchesFolded(e.incident.status, lowerTerm)
  }

  /** Every fetched incident joined with its profile, in the fetched order. */
  function Joined(incidents: seq<Incident>, profiles: seq<Profile>): (r: seq<LogEntry>)
    ensures |r| == |incidents|
    ensures forall k :: 0 <= k < |r| ==> r[k] == JoinEntry(incidents[k], profiles)
  {
    Map(incidents, (i: Incident) => JoinEntry(i, profiles))
  }

  /** `processedLogEntries`: every fetched incident joined, in order, then searched. */
  function ProcessedLogEntries(incidents: seq<Incident>, profiles: seq<Profile>, searchTerm: string): (r: seq<LogEntry>)
    ensures |r| <= |incidents|
    ensures searchTerm == "" ==> |r| == |incidents| && forall k :: 0 <= k < |r| ==> r[k] == JoinEntry(incidents[k], profiles)
    ensures forall k :: 0 <= k < |r| ==> r[k].incident in incidents && r[k] == JoinEntry(r[k].incident, profiles)
    ensures forall k :: 0 <= k < |r| ==> searchTerm == "" || SearchHit(r[k], Lower(searchTerm))
    ensures forall k :: 0 <= k < |incidents| && (searchTerm == "" || SearchHit(JoinEntry(incidents[k], profiles), Lower(searchTerm))) ==>
      JoinEntry(incidents[k], profiles) in r
    ensures IsSubseq(r, Joined(incidents, profiles))
  {
    if |incidents| == 0 then []
    else
      var combined := Joined(incidents, profiles);
      if searchTerm == "" then
        SubseqRefl(combined);
        combined
      else Filter(combined, (e: LogEntry) => SearchHit(e, Lower(searchTerm)))
  }

  /** Tenant isolation: if the backend honours the query, every row shown is an incident of the caller's firm. */
  lemma RowsBelongToCallerFirm(caller: Option<UserData>, view: LogView, fetched: LogData)
    requires QueryFor(caller, view).Some?
    requires forall k :: 0 <= k < |fetched.incidents| ==> Matches(fetched.incidents[k], QueryFor(caller, view).value)
    ensures forall e :: e in ProcessedLogEntries(AfterFetch(caller, view, fetched).incidents, fetched.profiles, view.searchTerm) ==>
      Some(e.incident.firmId) == caller.value.firmId &&
      (view.filterStatus != "" ==> e.incident.status == view.filterStatus) &&
      (view.filterType != "" ==> e.incident.incidentType == view.filterType)
  {
    var rows := ProcessedLogEntries(fetched.incidents, fetched.profiles, view.searchTerm);
    forall e | e in rows
      ensures Some(e.incident.firmId) == caller.value.firmId
      ensures view.filterStatus != "" ==> e.incident.status == view.filterStatus
      ensures view.filterType != "" ==> e.incident.incidentType == view.filterType
    {
      var k :| 0 <= k < |rows| && rows[k] == e;
      var j :| 0 <= j < |fetched.incidents| && fetched.incidents[j] == e.incident;
      assert Matches(fetched.incidents[j], QueryFor(caller, view).value);
    }
  }

  /** `totalPages`: the backend's total (0 when missing) over the page size, rounded up. */
  function TotalPagesOf(totalRecords: Option<nat>, perPage: PageSize): (r: nat)
    ensures var n := totalRecords.GetOr(0); r * perPage >= n && (r > 0 ==> (r - 1) * perPage < n)
  {
    TotalPages(totalRecords.GetOr(0), perPage)
  }

  /** `handlePageChange`: a target outside 1..totalPages is ignored. */
  function PageChange(view: LogView, newPage: int, totalPages: nat): (r: LogView)
    ensures 1 <= newPage <= totalPages ==> r == view.(page := newPage)
    ensures !(1 <= newPage <= totalPages) ==> r == view
  {
    if 1 <= newPage && newPage <= totalPages then view.(page := newPage) else view
  }

  /** The pager keeps a page that is in range in range. */
  lemma PageChangeKeepsRange(view: LogView, newPage: int, totalPages: nat)
    requires 1 <= view.page <= totalPages
    ensures 1 <= PageChange(view, newPage, totalPages).page <= totalPages
  {
  }

  /** The page sizes the "Showing" select offers. */
  predicate OfferedPageSize(n: int) {
    n in {10, 25, 50, 100}
  }

  /** `handleItemsPerPageChange`: a new page size starts again at page 1; filters are kept. */
  function ItemsPerPageChange(view: LogView, n: PageSize): (r: LogView)
    requires OfferedPageSize(n)
    ensures r.itemsPerPage == n && r.page == 1
    ensures r.searchTerm == view.searchTerm && r.filterStatus == view.filterStatus && r.filterType == view.filterType
  {
    view.(itemsPerPage := n, page := 1)
  }

  /** `handleResetFilters`: search and both filters cleared, page 1; the page size is kept. */
  function ResetFilters(view: LogView): (r: LogView)
    ensures r == InitialView.(itemsPerPage := view.itemsPerPage)
  {
    LogView("", "", "", 1, view.itemsPerPage)
  }

  /** After a reset the query is the firm's unfiltered first page. */
  lemma ResetQueriesFirstPage(caller: Option<UserData>, view: LogView)
    requires FirmScopedFetch(caller).Some?
    ensures QueryFor(caller, ResetFilters(view)) ==
      Some(IncidentQuery(FirmScopedFetch(caller).value, view.itemsPerPage, 0, None, None))
  {
  }

  datatype FilterSelect = StatusSelect | TypeSelect

  /** The status and type selects as written: the value changes, the page stays where it was. */
  function OnFilterChangeAsWritten(view: LogView, select: FilterSelect, value: string): (r: LogView)
    ensures r.page == view.page && r.itemsPerPage == view.itemsPerPage && r.searchTerm == view.searchTerm
    ensures select == StatusSelect ==> r.filterStatus == value && r.filterType == view.filterType
    ensures select == TypeSelect ==> r.filterType == value && r.filterStatus == view.filterStatus
  {
    match select
    case StatusSelect => view.(filterStatus := value)
    case TypeSelect => view.(filterType := value)
  }

  /** The selects as intended, like the reset and the page-size select: a new filter starts at page 1. */
  function OnFilterChange(view: LogView, select: FilterSelect, value: string): (r: LogView)
    ensures r.page == 1 && r.itemsPerPage == view.itemsPerPage && r.searchTerm == view.searchTerm
    ensures select == StatusSelect ==> r.filterStatus == value && r.filterType == view.filterType
    ensures select == TypeSelect ==> r.filterType == value && r.filterStatus == view.filterStatus
  {
    match select
    case StatusSelect => view.(filterStatus := value, page := 1)
    case TypeSelect => view.(filterType := value, page := 1)
  }

  /**
   * As written: on page 3 of 10-row pages, choosing a status that only 4
   * incidents have asks for offset 20 (no rows) while the pager says there is
   * one page, and its Previous button (target 2) is ignored.
   */
  lemma FilterKeepsStalePage(caller: Option<UserData>)
    requires FirmScopedFetch(caller).Some?
    ensures var v := OnFilterChangeAsWritten(LogView("", "", "", 3, ItemsPerPage), StatusSelect, "resolved");
      var total := TotalPagesOf(Some(4), v.itemsPerPage);
      total == 1 && QueryFor(caller, v).value.offset >= 4 &&
      PageChange(v, v.page - 1, total) == v
  {
  }

  /** As intended: after any filter change the query starts at the first row, so a non-empty result shows rows. */
  lemma FilterChangeStartsAtFirstRow(caller: Option<UserData>, view: LogView, select: FilterSelect, value: string, newTotal: nat)
    requires FirmScopedFetch(caller).Some? && newTotal > 0
    ensures var v := OnFilterChange(view, select, value);
      QueryFor(caller, v).value.offset == 0 && 1 <= v.page <= TotalPagesOf(Some(newTotal), v.itemsPerPage)
  {
  }
}
