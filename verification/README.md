# secureplace admin screens — a Dafny model

This project models the decision logic of the secureplace administration
front end. The logic sits in the React components that super admins and
firm admins use. It covers these screens:

- the four management screens: firms, firm admins, employees and locations;
- the firm admin dashboard widgets: summary cards, gauges, the monthly
  emergency chart, the alert log and the safety classes table;
- the login page;
- the shared button component.

Each screen is one module. The model captures what a screen decides:

- whether a fetch may run, and which firm it is scoped to;
- which rows a search shows, and which rows land on which page;
- what a dialog's inputs store;
- whether a save is rejected, and with which message;
- what a create or an update writes;
- which message a backend error turns into;
- where a login sends the browser;
- how the dashboard numbers and colours are derived.

Backend calls (account and database SDK calls) are not executed. A call's
result is an input to the model, and the request a screen would send is an
output.

Shared modules:

- `Wrappers` — `Option`, standing for `T | null`.
- `Text` — JavaScript truthiness of `string | null`, `x || null`, ASCII
  `toLowerCase`/`toUpperCase`, `includes`, and decimal rendering of counts.
- `Lists` — `filter`, `find`, `findIndex` and `map`, with order-preservation
  facts.
- `Paging` — JavaScript `slice`, `Math.ceil` page counts, the
  Previous/Next clamps and the list view state.
- `Entities` — the backend documents: profiles, firms, locations, incidents
  and trainings.
- `Session` — the mount-time authorisation check, the firm-scoped fetch
  guard, and the error-toast helpers.

## Model

| member | source | states |
|---|---|---|
| Text.OrNull | src/components/management/EmployeeManagementTable.tsx:470-476 | `x \|\| null` is null exactly for null and the empty string, and otherwise returns the value unchanged. It never yields the empty string. |
| Text.OrElse | src/components/dashboard/EmergencyAlertLogTable.tsx:191-194 | `x \|\| fallback` gives the value when it is truthy, and the fallback otherwise. |
| Text.Lower | src/components/management/FirmManagementTable.tsx:93-100 | `toLowerCase` keeps the length and folds each ASCII capital to lower case. |
| Text.LowerIdempotent | src/components/management/FirmManagementTable.tsx:93-100 | Lowering an already lowered term changes nothing. |
| Text.ContainsIffOccurs | src/components/management/FirmManagementTable.tsx:96-100 | The scanning `includes` holds exactly when the term occurs at some position. |
| Text.MatchesFoldedIgnoresCase | src/components/management/EmployeeManagementTable.tsx:146-160 | Two spellings of a field, or of a search term, that differ only in the case of ASCII letters match alike. |
| Text.LowerSameUpToCase | src/components/management/EmployeeManagementTable.tsx:146-160 | Texts that differ only in the case of ASCII letters lower to the same text. |
| Text.ContainsLower | src/components/management/FirmManagementTable.tsx:96-100 | Whatever a raw `includes` finds, the lower-cased search also finds. |
| Text.UpperChar | src/components/dashboard/SafetyClassesTable.tsx:354 | `toUpperCase` on one character maps an ASCII lower-case letter to its capital and leaves every other character alone. It never yields a lower-case letter. |
| Text.NatToString | src/components/dashboard/EmergencyAlertBarChart.tsx:299 | The decimal text of a count is all digits, reads back as the count, and has no leading zero (only 0 itself starts with '0'). |
| Lists.Filter | src/components/management/EmployeeManagementTable.tsx:147-163 | `filter` keeps exactly the elements that satisfy the predicate, in their original order (a subsequence). |
| Lists.FilterFilter | src/components/management/EmployeeManagementTable.tsx:147-163 | Filtering twice in a row equals one filter on the conjunction, as the search filter followed by the location filter does. |
| Lists.FilterLength | src/components/dashboard/FirmAdminDashboardCards.tsx:81-103 | The length of a filtered list is the number of elements the predicate accepts. |
| Lists.CountMono | src/components/dashboard/FirmAdminDashboardCards.tsx:81-103 | A predicate that accepts fewer elements counts fewer of them. |
| Lists.SubseqMembers | src/components/management/EmployeeManagementTable.tsx:142-171 | Every member of a subsequence is a member of the whole list. |
| Lists.FindFirst | src/components/management/FirmAdminManagementTable.tsx:116-117 | `find` returns the first index whose element satisfies the predicate, or nothing when no element does. |
| Lists.Map | src/components/dashboard/EmergencyAlertLogTable.tsx:186-197 | `map` keeps the length and applies the function at every position. |
| Paging.TotalPages | src/components/management/EmployeeManagementTable.tsx:173-175 | `Math.ceil(n / perPage)` is the least page count that holds n rows; it is 0 exactly for an empty list. |
| Paging.JsSlice | src/components/management/EmployeeManagementTable.tsx:167-171 | `slice(start, end)` is the run of the list between the two clamped indices, or empty when they do not increase. |
| Paging.Window | src/components/management/EmployeeManagementTable.tsx:167-171 | `slice(start, start + width)` from a non-negative start holds at most width rows: the rows from start on, as many as remain. |
| Paging.SliceIndex | src/components/management/EmployeeManagementTable.tsx:167-171 | A `slice` argument is clamped into 0..len, and a negative argument counts from the end. |
| Paging.PageItems | src/components/management/EmployeeManagementTable.tsx:167-171 | Page p holds at most perPage rows: exactly the rows from (p-1)*perPage on. Page 0 is empty, and every row shown is a row of the list. |
| Paging.PageOfRow | src/components/management/EmployeeManagementTable.tsx:167-175 | Row k of the list is shown on page k / perPage + 1, which lies within 1..totalPages, at offset k minus the page's first row. |
| Paging.RowPage | src/components/management/EmployeeManagementTable.tsx:167-175 | Row k of a list falls on page k / perPage + 1: that page lies within 1..totalPages, and its first row is at most k and within one page of k. |
| Paging.Previous | src/components/management/EmployeeManagementTable.tsx:542-544 | Previous goes back one page but never below page 1. |
| Paging.Next | src/components/management/EmployeeManagementTable.tsx:546-548 | Next goes forward one page but never beyond the last page. |
| Paging.PagerStaysInRange | src/components/management/EmployeeManagementTable.tsx:542-548 | From a page in range, Previous and Next stay in range, and they move in the right direction. |
| Paging.NextOnEmptyList | src/components/management/EmployeeManagementTable.tsx:546-548 | On an empty list Next sets the page to 0. |
| Paging.PagerShownHasTwoPages | src/components/management/EmployeeManagementTable.tsx:776 | The pager appears only when there are at least two pages, so Next from page 1 reaches page 2. |
| Paging.OnSearchChange | src/components/management/EmployeeManagementTable.tsx:617-620 | Typing a search term returns the view to page 1 and keeps the location filter. |
| Paging.OnLocationFilterChange | src/components/management/EmployeeManagementTable.tsx:633-636 | Choosing a location returns the view to page 1 and keeps the search term. |
| Paging.OnPrevious | src/components/management/EmployeeManagementTable.tsx:542-544 | The Previous button moves one page back, but from page 1 or below it lands on page 1. The search term and the filter are untouched. |
| Paging.OnNext | src/components/management/EmployeeManagementTable.tsx:546-548 | The Next button moves one page on, but from the last page or beyond it lands on the last page. The search term and the filter are untouched. |
| Session.UserOf | src/components/management/EmployeeManagementTable.tsx:284-289 | The current user is built from the profile: user id, email, role and firm. |
| Session.CallerFirm | src/components/management/EmployeeManagementTable.tsx:442-446 | The caller's firm is known exactly when the caller exists and has a non-empty firm id. |
| Session.FirmScopedFetch | src/components/management/EmployeeManagementTable.tsx:182-194 | A firm-scoped fetch proceeds exactly for a firm admin who has a firm, and it is scoped to that firm. |
| Session.CheckAuth | src/components/management/EmployeeManagementTable.tsx:255-330 | The mount check: no profile means sign-out; a failure is an error. Role is checked before firm, each with its own message. A management screen redirects to /dashboard on refusal and to / on error. |
| Session.FirmAdminCheckMatchesGuard | src/components/management/EmployeeManagementTable.tsx:182-194 | On a firm admin screen the fetch guard passes exactly when the mount check granted access. |
| Session.SuperAdminCheckMatchesGuard | src/components/management/FirmAdminManagementTable.tsx:139-146 | On a super admin screen the fetch guard passes exactly when the mount check granted access. |
| Session.WithRawMessage | src/components/management/EmployeeManagementTable.tsx:535 | A failure toast is the screen's text, followed by ": " and the backend message when that message is non-empty. |
| Session.DeleteErrorText | src/components/management/EmployeeManagementTable.tsx:400-406 | A delete failure with code 409 gets the conflict explanation; any other code gets the default text. |
| EmployeeManagement.FilteredEmployees | src/components/management/EmployeeManagementTable.tsx:142-165 | A subsequence of the employees. It contains exactly those that match the search (name, email, role or firm, ignoring case) and the selected location. |
| EmployeeManagement.NoFilterKeepsAll | src/components/management/EmployeeManagementTable.tsx:143-145 | With no search and no location selected, every employee is listed in order. |
| EmployeeManagement.VisibleEmployees | src/components/management/EmployeeManagementTable.tsx:167-171 | A page shows the filtered employees from the page's first row on, in the filtered order: exactly ten, or fewer on the last page, or none past the end. |
| EmployeeManagement.EmployeePageCount | src/components/management/EmployeeManagementTable.tsx:173-175 | The page count is the least number of ten-row pages that hold the filtered list. |
| EmployeeManagement.AfterFetch | src/components/management/EmployeeManagementTable.tsx:182-194 | Without a firm admin who has a firm, the employee, firm and location lists are all cleared. |
| EmployeeManagement.RowsBelongToCallerFirm | src/components/management/EmployeeManagementTable.tsx:196-213 | When the backend honours the firm and role query, every row on every page belongs to the caller's firm and has a staff role. |
| EmployeeManagement.DeletableRows | src/components/management/EmployeeManagementTable.tsx:752-753 | A row gets a delete button exactly when a caller is known and the row is not the caller's own. |
| EmployeeManagement.OnFormChange | src/components/management/EmployeeManagementTable.tsx:412-422 | The checkbox stores its checked state. Any other input stores its value, or null when emptied. No other field changes. |
| EmployeeManagement.CreateForm | src/components/management/EmployeeManagementTable.tsx:344-361 | The new-employee form has role "employee", empty name, email and password, the caller's firm, volunteer false, and every other field null. |
| EmployeeManagement.EditForm | src/components/management/EmployeeManagementTable.tsx:363-370 | The edit form carries the employee's own fields and an empty password. |
| EmployeeManagement.Record | src/components/management/EmployeeManagementTable.tsx:463-476 | The saved profile is in the caller's firm. Each optional field is normalised to null when empty, and volunteer is true only when it was set. |
| EmployeeManagement.SaveEmployee | src/components/management/EmployeeManagementTable.tsx:428-504 | A save is rejected exactly when a required field is missing, a new account has no password, or the caller's firm is unknown, checked in that order: each case gets its own message (fields required, password required, no firm). Otherwise it creates an account plus profile, or updates the edited document. |
| EmployeeManagement.FormFirmIgnored | src/components/management/EmployeeManagementTable.tsx:447-448 | The firm in the form never affects the save: the caller's firm is written instead. |
| EmployeeManagement.PasswordOnlyForCreate | src/components/management/EmployeeManagementTable.tsx:437-441 | A missing password blocks a create but not an update. |
| EmployeeManagement.ClearedRequiredFieldRejects | src/components/management/EmployeeManagementTable.tsx:428-436 | Emptying the name, email or role input always blocks the save with the required-fields message. |
| EmployeeManagement.SaveErrorText | src/components/management/EmployeeManagementTable.tsx:520-536 | A 409 naming an existing account is reported before a 409 naming a duplicate profile. Anything else gets the default text. |
| EmployeeManagement.DeleteErrorMessage | src/components/management/EmployeeManagementTable.tsx:400-406 | The employee delete toast, with its own conflict explanation. |
| FirmAdminManagement.FirmOf | src/components/management/FirmAdminManagementTable.tsx:116-117 | The firm of an admin is the first firm with the admin's firm id. An admin without a firm has none. |
| FirmAdminManagement.FilteredFirmAdmins | src/components/management/FirmAdminManagementTable.tsx:106-121 | An empty term lists every admin. Otherwise the result is the subsequence matching name, email or the firm's name, ignoring case. |
| FirmAdminManagement.FoundByFirmName | src/components/management/FirmAdminManagementTable.tsx:115-118 | Searching for a firm's name finds every admin of that firm. |
| FirmAdminManagement.VisibleFirmAdmins | src/components/management/FirmAdminManagementTable.tsx:123-127 | A page shows the filtered admins from the page's first row on, in the filtered order: exactly ten, or fewer on the last page, or none past the end. Every row is one of the fetched admins. |
| FirmAdminManagement.AfterFetch | src/components/management/FirmAdminManagementTable.tsx:139-146 | For anyone but a super admin, the admin and firm lists are cleared. |
| FirmAdminManagement.CreateForm | src/components/management/FirmAdminManagementTable.tsx:254-264 | The new-admin form has role firm_admin, no firm, and empty name, email and password. |
| FirmAdminManagement.EditForm | src/components/management/FirmAdminManagementTable.tsx:266-277 | The edit form carries the admin's name, email, role and firm, with an empty password. |
| FirmAdminManagement.OnFormChange | src/components/management/FirmAdminManagementTable.tsx:324-333 | An emptied input stores null. No other field changes, and the role is untouched. |
| FirmAdminManagement.SaveFirmAdmin | src/components/management/FirmAdminManagementTable.tsx:340-404 | A save is rejected exactly when name or email is missing, a new account has no password, or a firm admin has no firm, in that order, each with its own message. A create writes name, email, role and firm or null. An update writes name, firm or null, and role, but not the email. |
| FirmAdminManagement.SavedFirmAdminHasFirm | src/components/management/FirmAdminManagementTable.tsx:353-358 | Every firm admin that is written has a non-empty firm. |
| FirmAdminManagement.NewAdminNeedsFirm | src/components/management/FirmAdminManagementTable.tsx:254-264 | A freshly opened create dialog cannot be saved until a firm is picked. |
| FirmAdminManagement.SaveErrorText | src/components/management/FirmAdminManagementTable.tsx:417-436 | A duplicate profile is reported before an existing account, then an invalid user id. Anything else gets the default text. |
| FirmAdminManagement.ConflictOrderDiffersFromEmployees | src/components/management/FirmAdminManagementTable.tsx:420-430 | A conflict naming both markers is reported differently here than on the employee screen. |
| FirmAdminManagement.DeleteErrorMessage | src/components/management/FirmAdminManagementTable.tsx:312-318 | The firm admin delete toast, with its own conflict explanation. |
| FirmManagement.FilteredFirms | src/components/management/FirmManagementTable.tsx:89-102 | An empty term lists every firm. Otherwise the result is the subsequence matching name, email, industry or address ignoring case, or the raw phone number. |
| FirmManagement.PhoneNotCaseFolded | src/components/management/FirmManagementTable.tsx:100 | For every firm and every term: when only the phone could match, and the term occurs in the phone but its lower-cased form does not, the firm is not listed, although a case-insensitive match would find it. |
| FirmManagement.VisibleFirms | src/components/management/FirmManagementTable.tsx:104-108 | A page shows the filtered firms from the page's first row on, in the filtered order: exactly ten, or fewer on the last page, or none past the end. Every row is one of the fetched firms. |
| FirmManagement.AfterFetch | src/components/management/FirmManagementTable.tsx:118-124 | For anyone but a super admin, the firm list is cleared. |
| FirmManagement.CreateForm | src/components/management/FirmManagementTable.tsx:215-225 | The new-firm form has an empty name and all other fields null. |
| FirmManagement.EditForm | src/components/management/FirmManagementTable.tsx:227-237 | The edit form carries the firm's five attributes. |
| FirmManagement.OnFormChange | src/components/management/FirmManagementTable.tsx:271-278 | An input stores its text as typed, the empty text included. No other field changes. |
| FirmManagement.SaveFirm | src/components/management/FirmManagementTable.tsx:284-322 | A save is rejected exactly when name or contact email is missing. Otherwise it writes them, with empty optional fields as null. |
| FirmManagement.SavedFirmNormalised | src/components/management/FirmManagementTable.tsx:290-296 | No saved firm has an empty optional attribute. |
| FirmManagement.EditSaveRoundTrip | src/components/management/FirmManagementTable.tsx:227-237 | Opening a stored firm and saving it unchanged writes the same firm back. |
| FirmManagement.ClearedOptionalFieldSavedAsNull | src/components/management/FirmManagementTable.tsx:271-296 | Clearing industry, phone or address stores "" in the form, and the save writes null. |
| FirmManagement.SaveErrorText | src/components/management/FirmManagementTable.tsx:332-339 | A duplicate on a 409 gets its own explanation; anything else gets the default text. |
| FirmManagement.DeleteErrorMessage | src/components/management/FirmManagementTable.tsx:259-264 | The firm delete toast, with its own conflict explanation. |
| LocationManagement.FilteredLocations | src/components/management/LocationManagement.tsx:125-135 | An empty term lists every location. Otherwise the result is the subsequence matching name or address, ignoring case. |
| LocationManagement.AfterFetch | src/components/management/LocationManagement.tsx:142-158 | A caller who is not a firm admin gets an empty list silently. A firm admin without a firm gets an empty list plus the unassigned error. |
| LocationManagement.CreateForm | src/components/management/LocationManagement.tsx:274-284 | The new-location form is empty and pre-filled with the caller's firm, or "". |
| LocationManagement.EditForm | src/components/management/LocationManagement.tsx:286-298 | The edit form carries the location's own attributes. |
| LocationManagement.OnTextChange | src/components/management/LocationManagement.tsx:338-345 | The name and address inputs store their text as typed. No other field changes. |
| LocationManagement.OnMapClick | src/components/management/LocationManagement.tsx:347-352 | A map click sets both coordinates and changes nothing else. |
| LocationManagement.ParseCoordinateAsWritten | src/components/management/LocationManagement.tsx:648-653 | As written, the coordinate input keeps a parsed number only when it is non-zero. |
| LocationManagement.ParseCoordinate | src/components/management/LocationManagement.tsx:648-668 | As intended, the coordinate input keeps every parsed number. |
| LocationManagement.ParseAgreesExceptZero | src/components/management/LocationManagement.tsx:651 | The as-written and intended parses differ exactly on a typed 0. |
| LocationManagement.OnCoordinateInput | src/components/management/LocationManagement.tsx:648-668 | Typing a coordinate stores its parsed value. Nothing else changes. |
| LocationManagement.OnCoordinateInputAsWritten | src/components/management/LocationManagement.tsx:648-668 | The same handler with the as-written parse. |
| LocationManagement.SaveLocation | src/components/management/LocationManagement.tsx:364-418 | A save is rejected exactly when name, address or a coordinate is missing (the fields message), or the caller has no firm (its own message, checked second). Otherwise it writes the four fields in the caller's firm. |
| LocationManagement.SavedInCallerFirm | src/components/management/LocationManagement.tsx:386-392 | The form's firm never matters: a saved location is in the caller's firm. |
| LocationManagement.MapClickSatisfiesCoordinates | src/components/management/LocationManagement.tsx:347-352 | After a map click the coordinates never block a save, and the clicked values are written. |
| LocationManagement.EditSaveRoundTrip | src/components/management/LocationManagement.tsx:286-298 | Saving a complete location of the caller's firm unchanged writes the same location back. |
| LocationManagement.TypedZeroLatitude | src/components/management/LocationManagement.tsx:648-653 | As written, a typed latitude 0 is stored as null, so the save handler rejects the form. With the intended parse, the save writes latitude 0. |
| LocationManagement.SaveErrorText | src/components/management/LocationManagement.tsx:429-436 | A duplicate name on a 409 gets its own explanation; anything else gets the default text. |
| LocationManagement.DeleteErrorMessage | src/components/management/LocationManagement.tsx:326-332 | The location delete toast, with its own conflict explanation. |
| AlertLog.QueryFor | src/components/dashboard/EmergencyAlertLogTable.tsx:100-129 | A query exists exactly for a firm admin with a firm. It is scoped to that firm, limited to one page at offset (page-1)*size, and carries only the active filters. |
| AlertLog.AfterFetch | src/components/dashboard/EmergencyAlertLogTable.tsx:100-112 | A refused fetch clears incidents and profiles and sets the total to 0. |
| AlertLog.Trigger | src/components/dashboard/EmergencyAlertLogTable.tsx:187-189 | An incident's employee is the first profile whose user id triggered it. An incident with no trigger has none. |
| AlertLog.JoinEntry | src/components/dashboard/EmergencyAlertLogTable.tsx:186-197 | A row carries the employee's name, email, number and code. "Unknown" or "N/A" replaces a missing profile or an empty field, so no cell is empty. |
| AlertLog.ProcessedLogEntries | src/components/dashboard/EmergencyAlertLogTable.tsx:182-214 | Every fetched incident is joined, in order. A search keeps exactly the rows matching code, name, email, number, type or status, in their fetched order: the result is a subsequence of the joined list. |
| AlertLog.RowsBelongToCallerFirm | src/components/dashboard/EmergencyAlertLogTable.tsx:115-129 | When the backend honours the query, every row is an incident of the caller's firm that passes the active filters. |
| AlertLog.TotalPagesOf | src/components/dashboard/EmergencyAlertLogTable.tsx:216-219 | The page count is the least number of pages holding the backend's total, with a missing total read as 0. |
| AlertLog.PageChange | src/components/dashboard/EmergencyAlertLogTable.tsx:300-304 | A target page outside 1..totalPages is ignored. |
| AlertLog.PageChangeKeepsRange | src/components/dashboard/EmergencyAlertLogTable.tsx:300-304 | A page that is in range stays in range. |
| AlertLog.ItemsPerPageChange | src/components/dashboard/EmergencyAlertLogTable.tsx:285-290 | A page size picked from the offered 10, 25, 50 and 100 is applied, the view restarts at page 1, and the filters are kept. |
| AlertLog.ResetFilters | src/components/dashboard/EmergencyAlertLogTable.tsx:292-298 | Reset clears the search and both filters, goes to page 1, and keeps the page size. |
| AlertLog.ResetQueriesFirstPage | src/components/dashboard/EmergencyAlertLogTable.tsx:292-298 | After a reset the query is the firm's unfiltered first page. |
| AlertLog.OnFilterChangeAsWritten | src/components/dashboard/EmergencyAlertLogTable.tsx:333-348 | As written, a filter select changes its filter and leaves the page where it was. |
| AlertLog.OnFilterChange | src/components/dashboard/EmergencyAlertLogTable.tsx:333-348 | As intended, a filter select changes its filter and restarts at page 1. |
| AlertLog.FilterKeepsStalePage | src/components/dashboard/EmergencyAlertLogTable.tsx:115-121 | As written, filtering on page 3 down to 4 incidents queries an offset past the last row, and the Previous button is ignored. |
| AlertLog.FilterChangeStartsAtFirstRow | src/components/dashboard/EmergencyAlertLogTable.tsx:115-121 | With the intended select, the query after a filter change starts at row 0, on a page in range. |
| Login.SessionRedirect | src/components/login/LoginPage.tsx:95-106 | An existing session is sent to /super-admin/firm-management, /locations or /dashboard, depending on the role. |
| Login.LoginRedirect | src/components/login/LoginPage.tsx:170-181 | A fresh login is sent to /dashboard/super-admin, /dashboard/firm-admin or /dashboard, depending on the role. |
| Login.RedirectTablesDiffer | src/components/login/LoginPage.tsx:95-181 | The two tables agree only for non-admin roles, and every path is absolute. |
| Login.CheckActiveSession | src/components/login/LoginPage.tsx:53-118 | No session shows the form with no error. A session without a profile is ended and reported. Otherwise the browser goes to the role's page. |
| Login.LoginErrorText | src/components/login/LoginPage.tsx:193-214 | The login error message, in source order: active session, 401, 429, network, then the raw message or a generic text. It is never empty. |
| Login.HandleLogin | src/components/login/LoginPage.tsx:124-220 | Login succeeds exactly when a profile is read; it reports the role and firm and navigates by callback or location. A missing profile ends the session. An active-session error re-runs the session check. |
| Login.ActiveSessionRecovers | src/components/login/LoginPage.tsx:193-201 | Logging in while already logged in is reported and answered with a session check, which redirects. |
| Login.ProfileRequired | src/components/login/LoginPage.tsx:71-81 | An account without a profile never gets past the login page. |
| SafetyClasses.AfterFetch | src/components/dashboard/SafetyClassesTable.tsx:73-83 | A refused fetch empties the training list. |
| SafetyClasses.OnTab | src/components/dashboard/SafetyClassesTable.tsx:120-140 | A training is on a tab only with both dates valid: on Completed when it ended before now, on Upcoming when it starts now or later. |
| SafetyClasses.DatedTrainingPlaced | src/components/dashboard/SafetyClassesTable.tsx:133-140 | A training with valid, ordered dates is on exactly one of: the Completed tab, the Upcoming tab, or neither because it is in progress. |
| SafetyClasses.FilteredTrainings | src/components/dashboard/SafetyClassesTable.tsx:110-142 | The subsequence of trainings with valid dates that ended before now (Completed) or start now or later (Upcoming). |
| SafetyClasses.TabsDisjoint | src/components/dashboard/SafetyClassesTable.tsx:133-140 | A training that does not end before it starts is never on both tabs. |
| SafetyClasses.RunningOrUndatedOnNeitherTab | src/components/dashboard/SafetyClassesTable.tsx:120-140 | A class in progress, or one with an invalid date, is on neither tab. |
| SafetyClasses.BadgeClass | src/components/dashboard/SafetyClassesTable.tsx:333-338 | The badge class is the lowered status, or "unknown" for a null or empty status. |
| SafetyClasses.Icon | src/components/dashboard/SafetyClassesTable.tsx:342-352 | Approved or completed get a check icon and pending gets a clock, in any letter case. |
| SafetyClasses.StatusLabel | src/components/dashboard/SafetyClassesTable.tsx:353-356 | The label is the status with its first letter capitalised, or "Unknown". |
| SafetyClasses.LabelMatchesBadge | src/components/dashboard/SafetyClassesTable.tsx:333-356 | The lowered label is the badge class suffix. |
| SafetyClasses.DurationText | src/components/dashboard/SafetyClassesTable.tsx:329-331 | The duration cell is the duration, or "N/A". |
| CircularCharts.Compliance | src/components/dashboard/FirmAdminCircularCharts.tsx:97-106 | Compliance lies between 0 and 100. Below the cap it is drills per workshop times 100, and it is 0 exactly when there are no drills. |
| CircularCharts.FullComplianceIff | src/components/dashboard/FirmAdminCircularCharts.tsx:97-104 | Compliance is 100 exactly when there is at least one drill and at least as many drills as workshops. |
| CircularCharts.ComplianceMonotoneInDrills | src/components/dashboard/FirmAdminCircularCharts.tsx:98-100 | More drills never lower compliance. |
| CircularCharts.ComplianceAntitoneInWorkshops | src/components/dashboard/FirmAdminCircularCharts.tsx:98-100 | More workshops never raise compliance. |
| CircularCharts.AfterFetch | src/components/dashboard/FirmAdminCircularCharts.tsx:66-106 | A refused fetch sets all three values to null. Otherwise they are the two totals and their compliance. |
| CircularCharts.GaugeFill | src/components/dashboard/FirmAdminCircularCharts.tsx:235 | A gauge's fill is count times scale, capped at 100, or 0 while the count is unknown. |
| CircularCharts.GaugesFullAt | src/components/dashboard/FirmAdminCircularCharts.tsx:235-268 | The drill gauge is full from 10 drills, and the workshop gauge from 4 workshops. |
| CircularCharts.Round | src/components/dashboard/FirmAdminCircularCharts.tsx:302-306 | `Math.round` gives the nearest integer, with halves rounded up. |
| CircularCharts.IntToString | src/components/dashboard/FirmAdminCircularCharts.tsx:302-306 | The decimal text of an integer: the digits of its magnitude, with a minus sign before a negative value. |
| CircularCharts.ComplianceText | src/components/dashboard/FirmAdminCircularCharts.tsx:302-306 | The centre text is the rounded percentage followed by "%", or "...%" while the value is unknown. |
| CircularCharts.ComplianceTextRange | src/components/dashboard/FirmAdminCircularCharts.tsx:302-306 | The displayed compliance reads as a number from 0 to 100. |
| AlertBarChart.MonthlyCounts | src/components/dashboard/EmergencyAlertBarChart.tsx:114-119 | There are twelve buckets, one per month. Each holds the incidents created in that month, and an undated incident lands in none. |
| AlertBarChart.AfterFetch | src/components/dashboard/EmergencyAlertBarChart.tsx:83-119 | A refused fetch gives twelve zeros. Otherwise it gives the monthly counts. |
| AlertBarChart.FirstMax | src/components/dashboard/EmergencyAlertBarChart.tsx:229-238 | The first index holding the largest count. |
| AlertBarChart.Highest | src/components/dashboard/EmergencyAlertBarChart.tsx:229-238 | No month is highlighted only when there are no counts. Otherwise the highlighted month is the first busiest month. |
| AlertBarChart.ScanHighest | src/components/dashboard/EmergencyAlertBarChart.tsx:229-238 | The scan from -1 that takes only a strictly larger count finds the first busiest month. |
| AlertBarChart.EqualCountsHighlightJanuary | src/components/dashboard/EmergencyAlertBarChart.tsx:229-238 | When every month has the same count, no incidents included, January is the highlighted month. |
| AlertBarChart.BarStyles | src/components/dashboard/EmergencyAlertBarChart.tsx:210-244 | The current month is orange, and the busiest month is red unless it is the current month. Every other bar is light blue with a blue border. |
| AlertBarChart.OneCurrentAtMostOneHighest | src/components/dashboard/EmergencyAlertBarChart.tsx:210-244 | Exactly one bar is orange, and at most one is red. |
| AlertBarChart.TooltipTitle | src/components/dashboard/EmergencyAlertBarChart.tsx:293-302 | The tooltip reads "<count> Emergency in <MONTH>", or "" for an empty month. |
| AlertBarChart.TooltipNamesMonth | src/components/dashboard/EmergencyAlertBarChart.tsx:293-302 | The tooltip starts with the count in decimal and ends with the month label. |
| DashboardCards.AfterFetch | src/components/dashboard/FirmAdminDashboardCards.tsx:59-103 | A refused fetch gives three nulls. Otherwise the cards count the firm's locations, its employee, security and volunteer profiles, and its volunteer-flagged profiles. |
| DashboardCards.VolunteersWithinStaff | src/components/dashboard/FirmAdminDashboardCards.tsx:81-103 | The volunteer card never exceeds the employee card while every flagged volunteer has a staff role. |
| DashboardCards.FlaggedAdminCountsOnlyAsVolunteer | src/components/dashboard/FirmAdminDashboardCards.tsx:81-103 | A volunteer-flagged firm admin counts as a volunteer but not as an employee. |
| DashboardCards.CardText | src/components/dashboard/FirmAdminDashboardCards.tsx:259 | A card shows its count as the `${n}` decimal text, or "..." while the count is null. |
| DashboardCards.Render | src/components/dashboard/FirmAdminDashboardCards.tsx:200-239 | The card area shows loading, then any error, then the role check, then the firm check, then the cards. |
| DashboardCards.RefusalShowsAuthMessage | src/components/dashboard/FirmAdminDashboardCards.tsx:160-175 | After a refusal the panel shows the check's own message; the render's fallback messages are never reached. |
| Button.VariantClass | src/components/ui/button.tsx:26-38 | Primary and default map to the brand class, and destructive and outline to their own classes. Other variants, or none, map to no class. |
| Button.SizeClass | src/components/ui/button.tsx:40-51 | Small and large map to their classes; the default and icon sizes, or none, map to no class. |
| Button.ClassName | src/components/ui/button.tsx:55-57 | The class list starts with the base class. Its length is that of the base class, the variant class, the size class and the caller's classes, plus three spaces. |
| Button.ClassNameDecodes | src/components/ui/button.tsx:55-57 | The variant class, the size class and the caller's classes can be read back from the class list. |
| Button.OmittedVariantIsNotDefault | src/components/ui/button.tsx:26-38 | An omitted variant renders differently from the default variant, while primary and default render the same. |
| Button.BareButton | src/components/ui/button.tsx:55-57 | A button with no props still carries three separating spaces. |

## Left out

- Backend calls. Account, session and database calls, with their
  permissions, are not modelled. Their results (profile lookups, fetched
  lists, totals, thrown errors) are inputs. Their requests (queries,
  created or updated attributes) are outputs. Server-side ordering
  (`orderAsc`/`orderDesc`) is not modelled: fetched lists keep whatever
  order the backend returns. The alert log's page query models its
  `limit` and `offset`. The other limits are not modelled: `limit(1)` on
  profile lookups, `limit(100)` on trainings and `limit(5000)` on the bar
  chart's incidents and the alert log's profiles.
- Browser effects. Toasts, loading flags, `window.confirm`, console
  logging, the success toasts, dialog open/close and rendering are not
  modelled beyond the decisions listed above.
- Dates. A timestamp is an integer (trainings) or a month of the year
  (incidents), or none when it does not parse. Local time zones are not
  modelled.
- Floating point. `Compliance` and the coordinates use exact reals, not
  IEEE doubles. `parseFloat` is abstracted to "a number or NaN".
- Delete success paths and re-fetches after a write are not modelled:
  they change no decision the model makes.
- The user id of a newly created account is assigned by the backend and
  does not appear in the created profile record.
- Unreachable paths. The alert log search is modelled, but no input on
  that screen sets the search term, only the reset clears it.
- Login.LoginErrorText: the initial "Login failed. Please check your
  credentials." value is never shown, because every branch overwrites it.
- SafetyClasses.StatusLabel: capitalises the first character with `Text.UpperChar`, which maps ASCII letters only. `toUpperCase` also maps other letters and can lengthen the label (for example "ß" becomes "SS"), so the length promise holds only for the ASCII case.
- Text.UpperChar: maps ASCII letters only, for the same reason as `Text.Lower`.
- Text.Lower: folds ASCII letters only. `toLowerCase` also folds other
  letters.
- Login.CheckActiveSession: the `onRedirect` callback is not used for
  this redirect, as in the source.
- The map component and the logout button are not part of this model.

## Findings

| source | as written | input that shows it | evidently intended | confidence | as-written member | corrected member |
|---|---|---|---|---|---|---|
| src/components/management/LocationManagement.tsx:648-668 | `parseFloat(value) \|\| null` turns a typed 0 into null, because 0 is falsy | typing 0 as the latitude of an otherwise complete form; the 0 disappears from the field because the input shows an empty value for null, and the form cannot be submitted: the input is required, so the browser blocks the submit | keep every number and map only NaN to null | high; not executed | LocationManagement.ParseCoordinateAsWritten (with LocationManagement.TypedZeroLatitude) | LocationManagement.ParseCoordinate |
| src/components/dashboard/EmergencyAlertLogTable.tsx:333-348 | the status and type selects keep the current page, unlike the reset and the page-size select | on page 3 of 10-row pages, choosing a status that 4 incidents have; the query asks for offset 20, the pager shows one page, and Previous (target 2) is ignored | a filter change restarts at page 1 | medium; not executed | AlertLog.OnFilterChangeAsWritten (with AlertLog.FilterKeepsStalePage) | AlertLog.OnFilterChange (with AlertLog.FilterChangeStartsAtFirstRow) |
