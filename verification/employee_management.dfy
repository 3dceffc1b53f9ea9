/**
 * The firm admin's employee screen: search and location filter, client-side
 * pages of ten, the fetch guard, and the create/update decision of the
 * employee dialog.
 */
module EmployeeManagement {
  import opened Wrappers
  import opened Text
  import opened Lists
  import opened Paging
  import opened Entities
  import opened Session

  /** The search box matches full name, official email, role or firm id, ignoring case; null fields never match. */
  predicate SearchHit(e: Profile, lowerTerm: string) {
    (e.fullName.Some? && MatchesFolded(e.fullName.value, lowerTerm)) ||
    MatchesFolded(e.officialEmail, lowerTerm) ||
    MatchesFolded(e.role, lowerTerm) ||
    (e.firmId.Some? && MatchesFolded(e.firmId.value, lowerTerm))
  }

  /** An employee passes both filters; an empty term or an empty location means "no filter". */
  predicate Shown(e: Profile, searchTerm: string, locationFilter: string) {
    (searchTerm == "" || SearchHit(e, Lower(searchTerm))) &&
    (locationFilter == "" || e.locationId == Some(locationFilter))
  }

  /** `filteredEmployees`: the search filter, then the location filter. */
  function FilteredEmployees(employees: seq<Profile>, searchTerm: string, locationFilter: string): (r: seq<Profile>)
    ensures IsSubseq(r, employees)
    ensures forall i :: 0 <= i < |r| ==> Shown(r[i], searchTerm, locationFilter)
    ensures forall i :: 0 <= i < |employees| && Shown(employees[i], searchTerm, locationFilter) ==>
      employees[i] in r
  {
    var hit := (e: Profile) => SearchHit(e, Lower(searchTerm));
    var atLocation := (e: Profile) => e.locationId == Some(locationFilter);
    if searchTerm == "" then
      if locationFilter == "" then SubseqRefl(employees); employees else Filter(employees, atLocation)
    else if locationFilter == "" then Filter(employees, hit)
    else
      FilterFilter(employees, hit, atLocation);
      Filter(Filter(employees, hit), atLocation)
  }

  /** With no search term and no location selected, every employee is listed, in order. */
  lemma NoFilterKeepsAll(employees: seq<Profile>)
    ensures FilteredEmployees(employees, "", "") == employees
  {
  }

  /** `paginatedEmployees` and `totalPages` for a list view. */
  function VisibleEmployees(employees: seq<Profile>, view: ListView): (r: seq<Profile>)
    ensures |r| <= ItemsPerPage
    ensures forall i :: 0 <= i < |r| ==> Shown(r[i], view.searchTerm, view.locationFilter)
    ensures view.page >= 1 ==> forall i :: 0 <= i < |r| ==>
      var filtered := FilteredEmployees(employees, view.searchTerm, view.locationFilter);
      PageStart(view.page, ItemsPerPage) + i < |filtered| &&
      r[i] == filtered[PageStart(view.page, ItemsPerPage) + i]
    ensures view.page >= 1 ==>
      var filtered := FilteredEmployees(employees, view.searchTerm, view.locationFilter);
      var start := PageStart(view.page, ItemsPerPage);
      |r| == (if start >= |filtered| then 0 else if |filtered| - start < ItemsPerPage then |filtered| - start else ItemsPerPage)
  {
    var filtered := FilteredEmployees(employees, view.searchTerm, view.locationFilter);
    PageItems(filtered, view.page, ItemsPerPage)
  }

  function EmployeePageCount(employees: seq<Profile>, view: ListView): (r: nat)
    ensures var n := |FilteredEmployees(employees, view.searchTerm, view.locationFilter)|;
      r * ItemsPerPage >= n && (r > 0 ==> (r - 1) * ItemsPerPage < n)
  {
    TotalPages(|FilteredEmployees(employees, view.searchTerm, view.locationFilter)|, ItemsPerPage)
  }

  /** The three lists the screen holds. */
  datatype EmployeeLists = EmployeeLists(employees: seq<Profile>, firms: seq<Firm>, locations: seq<Location>)

  /** The profiles the employee query asks for: the caller's firm, roles employee, security or volunteer. */
  predicate InEmployeeQuery(p: Profile, firm: string) {
    p.firmId == Some(firm) && p.role in {Employee, Security, Volunteer}
  }

  /**
   * `fetchEmployeesAndRelatedData`: without a firm admin who has a firm it
   * clears all three lists and queries nothing; otherwise the lists are what
   * the three queries returned.
   */
  function AfterFetch(caller: Option<UserData>, fetched: EmployeeLists): (r: EmployeeLists)
    ensures FirmScopedFetch(caller).None? ==> r == EmployeeLists([], [], [])
    ensures FirmScopedFetch(caller).Some? ==> r == fetched
  {
    if FirmScopedFetch(caller).Some? then fetched else EmployeeLists([], [], [])
  }

  /**
   * Tenant isolation of the table: when the backend honours the employee
   * query, every row on every page belongs to the caller's firm.
   */
  lemma RowsBelongToCallerFirm(caller: Option<UserData>, fetched: EmployeeLists, view: ListView)
    requires FirmScopedFetch(caller).Some?
    requires forall i :: 0 <= i < |fetched.employees| ==>
      InEmployeeQuery(fetched.employees[i], FirmScopedFetch(caller).value)
    ensures forall e :: e in VisibleEmployees(AfterFetch(caller, fetched).employees, view) ==>
      e.firmId == caller.value.firmId && e.role in {Employee, Security, Volunteer}
  {
    var employees := AfterFetch(caller, fetched).employees;
    var filtered := FilteredEmployees(employees, view.searchTerm, view.locationFilter);
    SubseqMembers(filtered, employees);
  }

  /** No delete button for the row of the signed-in firm admin. */
  predicate DeleteOffered(row: Profile, caller: Option<UserData>) {
    !NoDeleteButton(row.userId, caller)
  }

  /** The rows of a page that get a delete button. */
  function DeletableRows(rows: seq<Profile>, caller: Option<UserData>): (r: seq<Profile>)
    ensures forall i :: 0 <= i < |r| ==> caller.Some? && r[i].userId != caller.value.id
    ensures forall i :: 0 <= i < |rows| && caller.Some? && rows[i].userId != caller.value.id ==> rows[i] in r
  {
    Filter(rows, (p: Profile) => DeleteOffered(p, caller))
  }

  /** The dialog's state: every input as typed, `null` where cleared. */
  datatype EmployeeForm = EmployeeForm(
    fullName: Option<string>,
    officialEmail: Option<string>,
    role: Option<string>,
    password: Option<string>,
    firmId: Option<string>,
    contactNumber: Option<string>,
    emergencyContactNumber: Option<string>,
    bloodGroup: Option<string>,
    ageGroup: Option<string>,
    gender: Option<string>,
    isVolunteer: Option<bool>,
    locationId: Option<string>)

  /** The dialog's text inputs and selects, by element id. */
  datatype TextField =
    | FullNameInput | OfficialEmailInput | PasswordInput | RoleInput | LocationInput
    | ContactInput | EmergencyContactInput | BloodGroupInput | AgeGroupInput | GenderInput

  /** A change event: a text input or select, or the volunteer checkbox. */
  datatype FormEvent = TextChange(field: TextField, value: string) | VolunteerChange(checked: bool)

  /** The form attribute behind an input. */
  function FieldValue(f: EmployeeForm, field: TextField): Option<string> {
    match field
    case FullNameInput => f.fullName
    case OfficialEmailInput => f.officialEmail
    case PasswordInput => f.password
    case RoleInput => f.role
    case LocationInput => f.locationId
    case ContactInput => f.contactNumber
    case EmergencyContactInput => f.emergencyContactNumber
    case BloodGroupInput => f.bloodGroup
    case AgeGroupInput => f.ageGroup
    case GenderInput => f.gender
  }

  /**
   * `handleFormChange`: the checkbox stores its checked state; any other
   * input stores its value, an emptied input stores null; nothing else changes.
   */
  function OnFormChange(f: EmployeeForm, ev: FormEvent): (r: EmployeeForm)
    ensures ev.VolunteerChange? ==> r == f.(isVolunteer := Some(ev.checked))
    ensures ev.TextChange? ==> FieldValue(r, ev.field) == (if ev.value == "" then None else Some(ev.value))
    ensures ev.TextChange? ==> forall g :: g != ev.field ==> FieldValue(r, g) == FieldValue(f, g)
    ensures ev.TextChange? ==> r.firmId == f.firmId && r.isVolunteer == f.isVolunteer
  {
    match ev
    case VolunteerChange(checked) => f.(isVolunteer := Some(checked))
    case TextChange(field, value) =>
      var v := if value == "" then None else Some(value);
      match field
      case FullNameInput => f.(fullName := v)
      case OfficialEmailInput => f.(officialEmail := v)
      case PasswordInput => f.(password := v)
      case RoleInput => f.(role := v)
      case LocationInput => f.(locationId := v)
      case ContactInput => f.(contactNumber := v)
      case EmergencyContactInput => f.(emergencyContactNumber := v)
      case BloodGroupInput => f.(bloodGroup := v)
      case AgeGroupInput => f.(ageGroup := v)
      case GenderInput => f.(gender := v)
  }

  /** `handleCreateEmployee`: an empty form for the caller's firm with role "employee". */
  function CreateForm(caller: Option<UserData>): (f: EmployeeForm)
    ensures f.role == Some(Employee) && f.password == Some("") && f.isVolunteer == Some(false)
    ensures f.fullName == Some("") && f.officialEmail == Some("")
    ensures f.firmId == OrNull(if caller.Some? then caller.value.firmId else None)
    ensures f.contactNumber.None? && f.emergencyContactNumber.None? && f.bloodGroup.None?
    ensures f.ageGroup.None? && f.gender.None? && f.locationId.None?
  {
    EmployeeForm(Some(""), Some(""), Some(Employee), Some(""),
                 OrNull(if caller.Some? then caller.value.firmId else None),
                 None, None, None, None, None, Some(false), None)
  }

  /** `handleEditEmployee`: the employee's own fields, with an empty password. */
  function EditForm(e: Profile): (f: EmployeeForm)
    ensures f.fullName == e.fullName && f.officialEmail == Some(e.officialEmail) && f.role == Some(e.role)
    ensures f.firmId == e.firmId && f.locationId == e.locationId && f.isVolunteer == e.isVolunteer
    ensures f.contactNumber == e.contactNumber && f.emergencyContactNumber == e.emergencyContactNumber
    ensures f.bloodGroup == e.bloodGroup && f.ageGroup == e.ageGroup && f.gender == e.gender
    ensures f.password == Some("")
  {
    EmployeeForm(e.fullName, Some(e.officialEmail), Some(e.role), Some(""), e.firmId,
                 e.contactNumber, e.emergencyContactNumber, e.bloodGroup, e.ageGroup, e.gender,
                 e.isVolunteer, e.locationId)
  }

  /** The profile attributes written by a create or an update. */
  datatype EmployeeRecord = EmployeeRecord(
    fullName: string,
    officialEmail: string,
    role: string,
    firmId: string,
    contactNumber: Option<string>,
    emergencyContactNumber: Option<string>,
    bloodGroup: Option<string>,
    ageGroup: Option<string>,
    gender: Option<string>,
    isVolunteer: bool,
    locationId: Option<string>)

  datatype SaveOutcome =
    | Rejected(message: string)
      /** Create the sign-in account, then a profile document for it. */
    | CreateAccount(email: string, password: string, name: string, profile: EmployeeRecord)
    | UpdateProfile(docId: string, profile: EmployeeRecord)

  const FieldsRequired := "Full Name, Official Email, and Role are required."
  const PasswordRequired := "Password is required for new employee accounts."
  const NoCallerFirm := "Firm Admin's firm ID not found. Cannot save employee."

  /** The record saved for a validated form, in the caller's firm. */
  function Record(f: EmployeeForm, firm: string): (r: EmployeeRecord)
    requires Truthy(f.fullName) && Truthy(f.officialEmail) && Truthy(f.role)
    ensures r.firmId == firm
    ensures r.fullName == f.fullName.value && r.officialEmail == f.officialEmail.value && r.role == f.role.value
    ensures r.contactNumber == OrNull(f.contactNumber) && r.emergencyContactNumber == OrNull(f.emergencyContactNumber)
    ensures r.bloodGroup == OrNull(f.bloodGroup) && r.ageGroup == OrNull(f.ageGroup) && r.gender == OrNull(f.gender)
    ensures r.locationId == OrNull(f.locationId)
    ensures r.isVolunteer <==> f.isVolunteer == Some(true)
  {
    EmployeeRecord(f.fullName.value, f.officialEmail.value, f.role.value, firm,
                   OrNull(f.contactNumber), OrNull(f.emergencyContactNumber), OrNull(f.bloodGroup),
                   OrNull(f.ageGroup), OrNull(f.gender), f.isVolunteer.GetOr(false), OrNull(f.locationId))
  }

  /**
   * `handleSaveEmployee`: validation in source order, then a create (no
   * employee being edited) or an update of the edited employee's document.
   */
  function SaveEmployee(f: EmployeeForm, editing: Option<Profile>, caller: Option<UserData>): (r: SaveOutcome)
    ensures r.Rejected? <==>
      !Truthy(f.fullName) || !Truthy(f.officialEmail) || !Truthy(f.role) ||
      (editing.None? && !Truthy(f.password)) || CallerFirm(caller).None?
    ensures !Truthy(f.fullName) || !Truthy(f.officialEmail) || !Truthy(f.role) ==> r == Rejected(FieldsRequired)
    ensures (Truthy(f.fullName) && Truthy(f.officialEmail) && Truthy(f.role) &&
             editing.None? && !Truthy(f.password)) ==> r == Rejected(PasswordRequired)
    ensures (Truthy(f.fullName) && Truthy(f.officialEmail) && Truthy(f.role) &&
             (editing.Some? || Truthy(f.password)) && CallerFirm(caller).None?) ==> r == Rejected(NoCallerFirm)
    ensures r.CreateAccount? <==> !r.Rejected? && editing.None?
    ensures r.UpdateProfile? ==> editing.Some? && r.docId == editing.value.docId
    ensures r.CreateAccount? ==>
      r.email == f.officialEmail.value && r.password == f.password.value && r.name == f.fullName.value
    ensures !r.Rejected? ==> r.profile.firmId == CallerFirm(caller).value
    ensures !r.Rejected? ==> r.profile == Record(f, CallerFirm(caller).value)
  {
    if !Truthy(f.fullName) || !Truthy(f.officialEmail) || !Truthy(f.role) then Rejected(FieldsRequired)
    else if editing.None? && !Truthy(f.password) then Rejected(PasswordRequired)
    else if CallerFirm(caller).None? then Rejected(NoCallerFirm)
    else
      var record := Record(f, CallerFirm(caller).value);
      if editing.None? then CreateAccount(f.officialEmail.value, f.password.value, f.fullName.value, record)
      else UpdateProfile(editing.value.docId, record)
  }

  /** The firm typed into the form never matters: the caller's firm is written instead. */
  lemma FormFirmIgnored(f: EmployeeForm, firm: Option<string>, editing: Option<Profile>, caller: Option<UserData>)
    ensures SaveEmployee(f.(firmId := firm), editing, caller) == SaveEmployee(f, editing, caller)
  {
  }

  /** An update never needs a password, but a create always does. */
  lemma PasswordOnlyForCreate(f: EmployeeForm, e: Profile, caller: Option<UserData>)
    requires Truthy(f.fullName) && Truthy(f.officialEmail) && Truthy(f.role) && CallerFirm(caller).Some?
    ensures SaveEmployee(f.(password := None), Some(e), caller).UpdateProfile?
    ensures SaveEmployee(f.(password := None), None, caller) == Rejected(PasswordRequired)
  {
  }

  /** Emptying the name, email or role input always blocks the save with the required-fields message. */
  lemma ClearedRequiredFieldRejects(f: EmployeeForm, field: TextField, editing: Option<Profile>, caller: Option<UserData>)
    requires field in {FullNameInput, OfficialEmailInput, RoleInput}
    ensures SaveEmployee(OnFormChange(f, TextChange(field, "")), editing, caller) == Rejected(FieldsRequired)
  {
  }

  /** `handleSaveEmployee`'s failure toast: an existing sign-in account is checked before a duplicate profile. */
  function SaveErrorText(err: BackendError): (r: string)
    ensures err.code == 409 && Contains(err.message, "user_email_already_exists") ==>
      r == WithRawMessage("An account with this email already exists in Appwrite Auth.", err)
    ensures err.code == 409 && !Contains(err.message, "user_email_already_exists") &&
            Contains(err.message, "document_attribute_unique") ==>
      r == WithRawMessage("Profile with this email or User ID already exists.", err)
    ensures !(err.code == 409 && (Contains(err.message, "user_email_already_exists") ||
                                  Contains(err.message, "document_attribute_unique"))) ==>
      r == WithRawMessage("Failed to save Employee.", err)
  {
    var text :=
      if err.code == 409 && Contains(err.message, "user_email_already_exists") then
        "An account with this email already exists in Appwrite Auth."
      else if err.code == 409 && Contains(err.message, "document_attribute_unique") then
        "Profile with this email or User ID already exists."
      else "Failed to save Employee.";
    WithRawMessage(text, err)
  }

  /** `handleDeleteEmployee`'s failure toast. */
  function DeleteErrorMessage(err: BackendError): (r: string)
    ensures err.code == 409 ==> r == WithRawMessage(
      "Cannot delete: This employee is linked to other records or permissions prevent deletion.", err)
    ensures err.code != 409 ==> r == WithRawMessage("Failed to delete employee profile.", err)
  {
    DeleteErrorText("Failed to delete employee profile.",
                    "Cannot delete: This employee is linked to other records or permissions prevent deletion.", err)
  }
}
