/**
 * The super admin's firm admin screen: search (including by the admin's firm
 * name), client-side pages of ten, the fetch guard and the create/update
 * decision of the firm admin dialog.
 */
module FirmAdminManagement {
  import opened Wrappers
  import opened Text
  import opened Lists
  import opened Paging
  import opened Entities
  import opened Session
  import EmployeeManagement

  /** `firms.find(f => f.$id === admin.firmId)`: the first firm with the admin's id; none when the admin has no firm. */
  function FirmOf(admin: Profile, firms: seq<Firm>): (r: Option<Firm>)
    ensures r.Some? ==> admin.firmId == Some(r.value.id) && r.value in firms
    ensures r.None? <==> forall j :: 0 <= j < |firms| ==> admin.firmId != Some(firms[j].id)
    ensures forall i :: (0 <= i < |firms| && admin.firmId == Some(firms[i].id) &&
                          (forall j :: 0 <= j < i ==> firms[j].id != firms[i].id)) ==> r == Some(firms[i])
  {
    match FindFirst(firms, (f: Firm) => admin.firmId == Some(f.id))
    case None => None
    case Some(i) => Some(firms[i])
  }

  /** The search box matches the full name, the official email or the name of the admin's firm, ignoring case. */
  predicate SearchHit(admin: Profile, firms: seq<Firm>, lowerTerm: string) {
    (admin.fullName.Some? && MatchesFolded(admin.fullName.value, lowerTerm)) ||
    MatchesFolded(admin.officialEmail, lowerTerm) ||
    (FirmOf(admin, firms).Some? && MatchesFolded(FirmOf(admin, firms).value.name, lowerTerm))
  }

  /** `filteredFirmAdmins`: an empty term lists everyone. */
  function FilteredFirmAdmins(admins: seq<Profile>, firms: seq<Firm>, searchTerm: string): (r: seq<Profile>)
    ensures IsSubseq(r, admins)
    ensures searchTerm == "" ==> r == admins
    ensures forall i :: 0 <= i < |r| ==> searchTerm == "" || SearchHit(r[i], firms, Lower(searchTerm))
    ensures forall i :: 0 <= i < |admins| && (searchTerm == "" || SearchHit(admins[i], firms, Lower(searchTerm))) ==>
      admins[i] in r
  {
    if searchTerm == "" then SubseqRefl(admins); admins
    else Filter(admins, (a: Profile) => SearchHit(a, firms, Lower(searchTerm)))
  }

  /**
   * Searching for a firm's name finds an admin of that firm whose own name and
   * email do not mention it, provided that firm is the first with its id.
   */
  lemma FoundByFirmName(admins: seq<Profile>, firms: seq<Firm>, searchTerm: string, k: nat, i: nat)
    requires k < |admins| && i < |firms|
    requires admins[k].firmId == Some(firms[i].id)
    requires forall j :: 0 <= j < i ==> firms[j].id != firms[i].id
    requires Contains(Lower(firms[i].name), Lower(searchTerm))
    ensures admins[k] in FilteredFirmAdmins(admins, firms, searchTerm)
  {
  }

  /** The rows of the current page. */
  function VisibleFirmAdmins(admins: seq<Profile>, firms: seq<Firm>, view: ListView): (r: seq<Profile>)
    ensures |r| <= ItemsPerPage
    ensures forall x :: x in r ==> x in admins
    ensures view.page >= 1 ==> forall i :: 0 <= i < |r| ==>
      var filtered := FilteredFirmAdmins(admins, firms, view.searchTerm);
      PageStart(view.page, ItemsPerPage) + i < |filtered| &&
      r[i] == filtered[PageStart(view.page, ItemsPerPage) + i]
    ensures view.page >= 1 ==>
      var filtered := FilteredFirmAdmins(admins, firms, view.searchTerm);
      var start := PageStart(view.page, ItemsPerPage);
      |r| == (if start >= |filtered| then 0 else if |filtered| - start < ItemsPerPage then |filtered| - start else ItemsPerPage)
  {
    var filtered := FilteredFirmAdmins(admins, firms, view.searchTerm);
    SubseqMembers(filtered, admins);
    PageItems(filtered, view.page, ItemsPerPage)
  }

  datatype AdminLists = AdminLists(admins: seq<Profile>, firms: seq<Firm>)

  /** `fetchFirmAdminsAndFirms`: anyone but a super admin gets two empty lists and no query. */
  function AfterFetch(caller: Option<UserData>, fetched: AdminLists): (r: AdminLists)
    ensures SuperAdminFetch(caller) ==> r == fetched
    ensures !SuperAdminFetch(caller) ==> r.admins == [] && r.firms == []
  {
    if SuperAdminFetch(caller) then fetched else AdminLists([], [])
  }

  /** No delete button on the signed-in super admin's own row. */
  predicate DeleteOffered(row: Profile, caller: Option<UserData>) {
    !NoDeleteButton(row.userId, caller)
  }

  /** The dialog's state. The role has no input: it is "firm_admin" for a new admin and kept on edit. */
  datatype AdminForm = AdminForm(
    fullName: Option<string>,
    officialEmail: Option<string>,
    role: Option<string>,
    firmId: Option<string>,
    password: Option<string>)

  /** `handleCreateFirmAdmin`. */
  function CreateForm(): (f: AdminForm)
    ensures f.role == Some(FirmAdmin) && f.firmId.None?
    ensures f.fullName == Some("") && f.officialEmail == Some("") && f.password == Some("")
  {
    AdminForm(Some(""), Some(""), Some(FirmAdmin), None, Some(""))
  }

  /** `handleEditFirmAdmin`: the admin's own fields, with an empty password. */
  function EditForm(admin: Profile): (f: AdminForm)
    ensures f.fullName == admin.fullName && f.officialEmail == Some(admin.officialEmail)
    ensures f.role == Some(admin.role) && f.firmId == admin.firmId && f.password == Some("")
  {
    AdminForm(admin.fullName, Some(admin.officialEmail), Some(admin.role), admin.firmId, Some(""))
  }

  /** The dialog's inputs, by element id (the email input is disabled while editing). */
  datatype AdminField = FullNameInput | OfficialEmailInput | PasswordInput | FirmSelect

  function FieldValue(f: AdminForm, field: AdminField): Option<string> {
    match field
    case FullNameInput => f.fullName
    case OfficialEmailInput => f.officialEmail
    case PasswordInput => f.password
    case FirmSelect => f.firmId
  }

  /** `handleFormChange`: an emptied input (or "Select a firm") stores null; nothing else changes. */
  function OnFormChange(f: AdminForm, field: AdminField, value: string): (r: AdminForm)
    ensures FieldValue(r, field) == (if value == "" then None else Some(value))
    ensures forall g :: g != field ==> FieldValue(r, g) == FieldValue(f, g)
    ensures r.role == f.role
  {
    var v := if value == "" then None else Some(value);
    match field
    case FullNameInput => f.(fullName := v)
    case OfficialEmailInput => f.(officialEmail := v)
    case PasswordInput => f.(password := v)
    case FirmSelect => f.(firmId := v)
  }

  /** The attributes of a new profile document (`userId` is the new account's id, assigned by the backend). */
  datatype NewAdminProfile = NewAdminProfile(fullName: string, officialEmail: string, role: Option<string>, firmId: Option<string>)

  /** The attributes an update writes; the email is not among them. */
  datatype AdminUpdate = AdminUpdate(fullName: string, firmId: Option<string>, role: Option<string>)

  datatype SaveOutcome =
    | Rejected(message: string)
    | CreateAccount(email: string, password: string, name: string, profile: NewAdminProfile)
    | UpdateProfile(docId: string, update: AdminUpdate)

  const FieldsRequired := "Full Name and Official Email are required."
  const PasswordRequired := "Password is required for new Firm Admin accounts."
  const FirmRequired := "Firm Admins must be assigned to a firm."

  /** `handleSaveFirmAdmin`: the three checks in source order, then a create or an update. */
  function SaveFirmAdmin(f: AdminForm, editing: Option<Profile>): (r: SaveOutcome)
    ensures r.Rejected? <==>
      !Truthy(f.fullName) || !Truthy(f.officialEmail) || (editing.None? && !Truthy(f.password)) ||
      (f.role == Some(FirmAdmin) && !Truthy(f.firmId))
    ensures !Truthy(f.fullName) || !Truthy(f.officialEmail) ==> r == Rejected(FieldsRequired)
    ensures Truthy(f.fullName) && Truthy(f.officialEmail) && editing.None? && !Truthy(f.password) ==>
      r == Rejected(PasswordRequired)
    ensures (Truthy(f.fullName) && Truthy(f.officialEmail) && (editing.Some? || Truthy(f.password)) &&
             f.role == Some(FirmAdmin) && !Truthy(f.firmId)) ==> r == Rejected(FirmRequired)
    ensures r.CreateAccount? <==> !r.Rejected? && editing.None?
    ensures r.CreateAccount? ==>
      r.email == f.officialEmail.value && r.password == f.password.value && r.name == f.fullName.value &&
      r.profile == NewAdminProfile(f.fullName.value, f.officialEmail.value, f.role, OrNull(f.firmId))
    ensures r.UpdateProfile? ==>
      editing.Some? && r.docId == editing.value.docId &&
      r.update == AdminUpdate(f.fullName.value, OrNull(f.firmId), f.role)
  {
    if !Truthy(f.fullName) || !Truthy(f.officialEmail) then Rejected(FieldsRequired)
    else if editing.None? && !Truthy(f.password) then Rejected(PasswordRequired)
    else if f.role == Some(FirmAdmin) && !Truthy(f.firmId) then Rejected(FirmRequired)
    else if editing.None? then
      CreateAccount(f.officialEmail.value, f.password.value, f.fullName.value,
                    NewAdminProfile(f.fullName.value, f.officialEmail.value, f.role, OrNull(f.firmId)))
    else UpdateProfile(editing.value.docId, AdminUpdate(f.fullName.value, OrNull(f.firmId), f.role))
  }

  /** Every firm admin the dialog writes is assigned to a (non-empty) firm. */
  lemma SavedFirmAdminHasFirm(f: AdminForm, editing: Option<Profile>)
    requires f.role == Some(FirmAdmin)
    ensures SaveFirmAdmin(f, editing).CreateAccount? ==>
      SaveFirmAdmin(f, editing).profile.firmId.Some? && SaveFirmAdmin(f, editing).profile.firmId.value != ""
    ensures SaveFirmAdmin(f, editing).UpdateProfile? ==>
      SaveFirmAdmin(f, editing).update.firmId.Some? && SaveFirmAdmin(f, editing).update.firmId.value != ""
  {
  }

  /** A freshly opened create dialog cannot be saved until a firm is picked, whatever else is typed. */
  lemma NewAdminNeedsFirm(name: string, email: string, password: string)
    requires name != "" && email != "" && password != ""
    ensures var f := OnFormChange(OnFormChange(OnFormChange(CreateForm(), FullNameInput, name),
                                               OfficialEmailInput, email), PasswordInput, password);
      SaveFirmAdmin(f, None) == Rejected(FirmRequired)
  {
  }

  /** `handleSaveFirmAdmin`'s failure toast: a duplicate profile is checked before an existing account. */
  function SaveErrorText(err: BackendError): (r: string)
    ensures err.code == 409 && Contains(err.message, "document_attribute_unique") ==>
      r == WithRawMessage("Email or User ID already exists in profile.", err)
    ensures err.code == 409 && !Contains(err.message, "document_attribute_unique") &&
            Contains(err.message, "user_email_already_exists") ==>
      r == WithRawMessage("An account with this email already exists in Appwrite Auth.", err)
    ensures err.code == 400 && Contains(err.message, "Invalid `userId`") ==>
      r == WithRawMessage("Invalid User ID provided for Appwrite Auth. This should be unique.", err)
    ensures !(err.code == 409 && (Contains(err.message, "document_attribute_unique") ||
                                  Contains(err.message, "user_email_already_exists"))) &&
            !(err.code == 400 && Contains(err.message, "Invalid `userId`")) ==>
      r == WithRawMessage("Failed to save Firm Admin.", err)
  {
    var text :=
      if err.code == 409 && Contains(err.message, "document_attribute_unique") then
        "Email or User ID already exists in profile."
      else if err.code == 409 && Contains(err.message, "user_email_already_exists") then
        "An account with this email already exists in Appwrite Auth."
      else if err.code == 400 && Contains(err.message, "Invalid `userId`") then
        "Invalid User ID provided for Appwrite Auth. This should be unique."
      else "Failed to save Firm Admin.";
    WithRawMessage(text, err)
  }

  /**
   * The two account dialogs test the same two conflict markers in opposite
   * orders, so a conflict naming both is reported differently by each.
   */
  lemma ConflictOrderDiffersFromEmployees(err: BackendError)
    requires err.code == 409
    requires Contains(err.message, "document_attribute_unique") && Contains(err.message, "user_email_already_exists")
    ensures StartsWith(SaveErrorText(err), "Email or User ID already exists in profile.")
    ensures StartsWith(EmployeeManagement.SaveErrorText(err), "An account with this email already exists in Appwrite Auth.")
  {
  }

  /** `handleDeleteFirmAdmin`'s failure toast. */
  function DeleteErrorMessage(err: BackendError): (r: string)
    ensures err.code == 409 ==> r == WithRawMessage(
      "Cannot delete profile: It might be linked to active records or permissions prevent deletion.", err)
    ensures err.code != 409 ==> r == WithRawMessage("Failed to delete Firm Admin profile.", err)
  {
    DeleteErrorText("Failed to delete Firm Admin profile.",
                    "Cannot delete profile: It might be linked to active records or permissions prevent deletion.", err)
  }
}
