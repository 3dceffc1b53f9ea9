/**
 * The super admin's firm screen: search, client-side pages of ten, the fetch
 * guard and the create/update decision of the firm dialog.
 */
module FirmManagement {
  import opened Wrappers
  import opened Text
  import opened Lists
  import opened Paging
  import opened Entities
  import opened Session

  /**
   * The search box matches name, contact email, industry or address ignoring
   * case; the phone number is searched as stored, for the lower-cased term.
   */
  predicate SearchHit(firm: Firm, lowerTerm: string) {
    MatchesFolded(firm.name, lowerTerm) ||
    (firm.contactEmail.Some? && MatchesFolded(firm.contactEmail.value, lowerTerm)) ||
    (firm.industry.Some? && MatchesFolded(firm.industry.value, lowerTerm)) ||
    (firm.address.Some? && MatchesFolded(firm.address.value, lowerTerm)) ||
    (firm.phoneNumber.Some? && Contains(firm.phoneNumber.value, lowerTerm))
  }

  /** `filteredFirms`: an empty term lists every firm. */
  function FilteredFirms(firms: seq<Firm>, searchTerm: string): (r: seq<Firm>)
    ensures IsSubseq(r, firms)
    ensures searchTerm == "" ==> r == firms
    ensures forall i :: 0 <= i < |r| ==> searchTerm == "" || SearchHit(r[i], Lower(searchTerm))
    ensures forall i :: 0 <= i < |firms| && (searchTerm == "" || SearchHit(firms[i], Lower(searchTerm))) ==>
      firms[i] in r
  {
    if searchTerm == "" then SubseqRefl(firms); firms
    else Filter(firms, (f: Firm) => SearchHit(f, Lower(searchTerm)))
  }

  /**
   * Because the phone number is not lower-cased, a firm that only its phone
   * number would match is missed whenever the lower-cased term does not occur
   * in that number (a term with a capital letter that the stored number
   * carries in upper case), although a case-insensitive match would find it.
   */
  lemma PhoneNotCaseFolded(f: Firm, term: string)
    requires term != "" && f.phoneNumber.Some?
    requires Contains(f.phoneNumber.value, term) && !Contains(f.phoneNumber.value, Lower(term))
    requires !SearchHit(f.(phoneNumber := None), Lower(term))
    ensures FilteredFirms([f], term) == []
    ensures MatchesFolded(f.phoneNumber.value, Lower(term))
  {
    ContainsLower(f.phoneNumber.value, term);
    assert !SearchHit(f, Lower(term));
  }

  /** The rows of the current page. */
  function VisibleFirms(firms: seq<Firm>, view: ListView): (r: seq<Firm>)
    ensures |r| <= ItemsPerPage
    ensures forall x :: x in r ==> x in firms
    ensures view.page >= 1 ==> forall i :: 0 <= i < |r| ==>
      var filtered := FilteredFirms(firms, view.searchTerm);
      PageStart(view.page, ItemsPerPage) + i < |filtered| &&
      r[i] == filtered[PageStart(view.page, ItemsPerPage) + i]
    ensures view.page >= 1 ==>
      var filtered := FilteredFirms(firms, view.searchTerm);
      var start := PageStart(view.page, ItemsPerPage);
      |r| == (if start >= |filtered| then 0 else if |filtered| - start < ItemsPerPage then |filtered| - start else ItemsPerPage)
  {
    var filtered := FilteredFirms(firms, view.searchTerm);
    SubseqMembers(filtered, firms);
    PageItems(filtered, view.page, ItemsPerPage)
  }

  /** `fetchFirms`: anyone but a super admin gets an empty list and no query. */
  function AfterFetch(caller: Option<UserData>, fetched: seq<Firm>): (r: seq<Firm>)
    ensures SuperAdminFetch(caller) ==> r == fetched
    ensures !SuperAdminFetch(caller) ==> r == []
  {
    if SuperAdminFetch(caller) then fetched else []
  }

  /** The dialog's state. Inputs store their text as typed: an emptied input holds "", not null. */
  datatype FirmForm = FirmForm(
    name: Option<string>,
    industry: Option<string>,
    contactEmail: Option<string>,
    phoneNumber: Option<string>,
    address: Option<string>)

  /** `handleCreateFirm`. */
  function CreateForm(): (f: FirmForm)
    ensures f.name == Some("")
    ensures f.industry.None? && f.contactEmail.None? && f.phoneNumber.None? && f.address.None?
  {
    FirmForm(Some(""), None, None, None, None)
  }

  /** `handleEditFirm`: the firm's five attributes. */
  function EditForm(firm: Firm): (f: FirmForm)
    ensures f.name == Some(firm.name) && f.industry == firm.industry && f.contactEmail == firm.contactEmail
    ensures f.phoneNumber == firm.phoneNumber && f.address == firm.address
  {
    FirmForm(Some(firm.name), firm.industry, firm.contactEmail, firm.phoneNumber, firm.address)
  }

  datatype FirmField = NameInput | IndustryInput | ContactEmailInput | PhoneInput | AddressInput

  function FieldValue(f: FirmForm, field: FirmField): Option<string> {
    match field
    case NameInput => f.name
    case IndustryInput => f.industry
    case ContactEmailInput => f.contactEmail
    case PhoneInput => f.phoneNumber
    case AddressInput => f.address
  }

  /** `handleFormChange`: the input's text, empty text included, and nothing else changes. */
  function OnFormChange(f: FirmForm, field: FirmField, value: string): (r: FirmForm)
    ensures FieldValue(r, field) == Some(value)
    ensures forall g :: g != field ==> FieldValue(r, g) == FieldValue(f, g)
  {
    match field
    case NameInput => f.(name := Some(value))
    case IndustryInput => f.(industry := Some(value))
    case ContactEmailInput => f.(contactEmail := Some(value))
    case PhoneInput => f.(phoneNumber := Some(value))
    case AddressInput => f.(address := Some(value))
  }

  /** `firmDataToSave`. */
  datatype FirmRecord = FirmRecord(
    name: string,
    industry: Option<string>,
    contactEmail: string,
    phoneNumber: Option<string>,
    address: Option<string>)

  datatype SaveOutcome = Rejected(message: string) | CreateFirm(record: FirmRecord) | UpdateFirm(docId: string, record: FirmRecord)

  const FieldsRequired := "Firm Name and Contact Email are required."

  /** `handleSaveFirm`: name and contact email are required; empty optional fields are saved as null. */
  function SaveFirm(f: FirmForm, editing: Option<Firm>): (r: SaveOutcome)
    ensures r.Rejected? <==> !Truthy(f.name) || !Truthy(f.contactEmail)
    ensures r.Rejected? ==> r.message == FieldsRequired
    ensures r.CreateFirm? <==> !r.Rejected? && editing.None?
    ensures r.UpdateFirm? ==> editing.Some? && r.docId == editing.value.id
    ensures !r.Rejected? ==>
      r.record.name == f.name.value && r.record.contactEmail == f.contactEmail.value &&
      r.record.industry == OrNull(f.industry) && r.record.phoneNumber == OrNull(f.phoneNumber) &&
      r.record.address == OrNull(f.address)
  {
    if !Truthy(f.name) || !Truthy(f.contactEmail) then Rejected(FieldsRequired)
    else
      var record := FirmRecord(f.name.value, OrNull(f.industry), f.contactEmail.value,
                               OrNull(f.phoneNumber), OrNull(f.address));
      if editing.None? then CreateFirm(record) else UpdateFirm(editing.value.id, record)
  }

  /** A firm as stored after a save: optional attributes are never the empty string. */
  predicate Normalised(firm: Firm) {
    firm.industry != Some("") && firm.phoneNumber != Some("") && firm.address != Some("")
  }

  /** The firm a record describes once stored under `id`. */
  function Stored(id: string, rec: FirmRecord): (firm: Firm)
    ensures firm.id == id && firm.name == rec.name && firm.contactEmail == Some(rec.contactEmail)
  {
    Firm(id, rec.name, rec.industry, Some(rec.contactEmail), rec.phoneNumber, rec.address)
  }

  /** Every saved firm is normalised. */
  lemma SavedFirmNormalised(f: FirmForm, editing: Option<Firm>, id: string)
    requires !SaveFirm(f, editing).Rejected?
    ensures Normalised(Stored(id, SaveFirm(f, editing).record))
  {
  }

  /** Opening a stored firm for editing and saving it unchanged writes the firm back as it was. */
  lemma EditSaveRoundTrip(firm: Firm)
    requires firm.name != "" && Truthy(firm.contactEmail) && Normalised(firm)
    ensures SaveFirm(EditForm(firm), Some(firm)).UpdateFirm?
    ensures Stored(firm.id, SaveFirm(EditForm(firm), Some(firm)).record) == firm
  {
  }

  /** Clearing an optional input stores "" in the form, and the save turns it into null. */
  lemma ClearedOptionalFieldSavedAsNull(f: FirmForm, field: FirmField, editing: Option<Firm>)
    requires field in {IndustryInput, PhoneInput, AddressInput}
    requires Truthy(f.name) && Truthy(f.contactEmail)
    ensures var r := SaveFirm(OnFormChange(f, field, ""), editing);
      !r.Rejected? &&
      (field == IndustryInput ==> r.record.industry.None?) &&
      (field == PhoneInput ==> r.record.phoneNumber.None?) &&
      (field == AddressInput ==> r.record.address.None?)
  {
  }

  /** `handleSaveFirm`'s failure toast. */
  function SaveErrorText(err: BackendError): (r: string)
    ensures err.code == 409 && Contains(err.message, "document_attribute_unique") ==>
      r == WithRawMessage("Firm name or contact email already exists.", err)
    ensures !(err.code == 409 && Contains(err.message, "document_attribute_unique")) ==>
      r == WithRawMessage("Failed to save firm.", err)
  {
    if err.code == 409 && Contains(err.message, "document_attribute_unique") then
      WithRawMessage("Firm name or contact email already exists.", err)
    else WithRawMessage("Failed to save firm.", err)
  }

  /** `handleDeleteFirm`'s failure toast. */
  function DeleteErrorMessage(err: BackendError): (r: string)
    ensures err.code == 409 ==> r == WithRawMessage(
      "Cannot delete firm: It might be linked to existing Firm Admins or Locations.", err)
    ensures err.code != 409 ==> r == WithRawMessage("Failed to delete firm.", err)
  {
    DeleteErrorText("Failed to delete firm.",
                    "Cannot delete firm: It might be linked to existing Firm Admins or Locations.", err)
  }
}
