/**
 * The firm admin's location screen: search, the fetch guard, the location
 * dialog (text inputs, coordinate inputs and the map picker) and its
 * create/update decision.
 */
module LocationManagement {
  import opened Wrappers
  import opened Text
  import opened Lists
  import opened Entities
  import opened Session

  /** The search box matches the name or the address, ignoring case. */
  predicate SearchHit(loc: Location, lowerTerm: string) {
    MatchesFolded(loc.name, lowerTerm) || (loc.address.Some? && MatchesFolded(loc.address.value, lowerTerm))
  }

  /** `filteredLocations`: an empty term lists every location; the list is not paginated. */
  function FilteredLocations(locations: seq<Location>, searchTerm: string): (r: seq<Location>)
    ensures IsSubseq(r, locations)
    ensures searchTerm == "" ==> r == locations
    ensures forall i :: 0 <= i < |r| ==> searchTerm == "" || SearchHit(r[i], Lower(searchTerm))
    ensures forall i :: 0 <= i < |locations| && (searchTerm == "" || SearchHit(locations[i], Lower(searchTerm))) ==>
      locations[i] in r
  {
    if searchTerm == "" then SubseqRefl(locations); locations
    else Filter(locations, (l: Location) => SearchHit(l, Lower(searchTerm)))
  }

  datatype FetchResult = FetchResult(locations: seq<Location>, error: Option<string>)

  const Unassigned := "Firm Admin not assigned to a firm. Please contact your Super Admin."

  /**
   * `fetchLocations`: a caller who is not a firm admin gets an empty list
   * silently; a firm admin without a firm gets an empty list and an error.
   */
  function AfterFetch(caller: Option<UserData>, fetched: seq<Location>): (r: FetchResult)
    ensures FirmScopedFetch(caller).Some? ==> r == FetchResult(fetched, None)
    ensures FirmScopedFetch(caller).None? ==> r.locations == []
    ensures r.error.Some? <==> caller.Some? && caller.value.role == FirmAdmin && !Truthy(caller.value.firmId)
    ensures r.error.Some? ==> r.error.value == Unassigned
  {
    if caller.None? || caller.value.role != FirmAdmin then FetchResult([], None)
    else if !Truthy(caller.value.firmId) then FetchResult([], Some(Unassigned))
    else FetchResult(fetched, None)
  }

  /** The dialog's state. */
  datatype LocationForm = LocationForm(
    name: Option<string>,
    address: Option<string>,
    latitude: Option<real>,
    longitude: Option<real>,
    firmId: string)

  /** `handleCreateLocation`: empty fields, pre-filled with the caller's firm or "". */
  function CreateForm(caller: Option<UserData>): (f: LocationForm)
    ensures f.name == Some("") && f.address.None? && f.latitude.None? && f.longitude.None?
    ensures CallerFirm(caller).Some? ==> f.firmId == CallerFirm(caller).value
    ensures CallerFirm(caller).None? ==> f.firmId == ""
  {
    LocationForm(Some(""), None, None, None,
                 if caller.Some? then OrElse(caller.value.firmId, "") else "")
  }

  /** `handleEditLocation`: the location's own attributes. */
  function EditForm(loc: Location): (f: LocationForm)
    ensures f.name == Some(loc.name) && f.address == loc.address
    ensures f.latitude == loc.latitude && f.longitude == loc.longitude && f.firmId == loc.firmId
  {
    LocationForm(Some(loc.name), loc.address, loc.latitude, loc.longitude, loc.firmId)
  }

  datatype TextField = NameInput | AddressInput

  /** `handleFormChange`: the name or address input stores its text as typed; nothing else changes. */
  function OnTextChange(f: LocationForm, field: TextField, value: string): (r: LocationForm)
    ensures field == NameInput ==> r.name == Some(value) && r.address == f.address
    ensures field == AddressInput ==> r.address == Some(value) && r.name == f.name
    ensures r.latitude == f.latitude && r.longitude == f.longitude && r.firmId == f.firmId
  {
    match field
    case NameInput => f.(name := Some(value))
    case AddressInput => f.(address := Some(value))
  }

  /** `handleMapClickInDialog`: a click on the map sets both coordinates and nothing else. */
  function OnMapClick(f: LocationForm, lat: real, lng: real): (r: LocationForm)
    ensures r.latitude == Some(lat) && r.longitude == Some(lng)
    ensures r.name == f.name && r.address == f.address && r.firmId == f.firmId
  {
    f.(latitude := Some(lat), longitude := Some(lng))
  }

  /** What `parseFloat` makes of a coordinate input's text: NaN, or a number (with -0 as 0). */
  datatype ParsedNumber = NotANumber | Number(value: real)

  /**
   * The coordinate inputs as written: `parseFloat(value) || null`. Zero is
   * falsy in JavaScript, so a typed 0 becomes null just like unparsable text.
   */
  function ParseCoordinateAsWritten(p: ParsedNumber): (r: Option<real>)
    ensures r.Some? <==> p.Number? && p.value != 0.0
    ensures r.Some? ==> r.value == p.value
  {
    if p.Number? && p.value != 0.0 then Some(p.value) else None
  }

  /** The coordinate inputs as intended: every number is kept, only NaN becomes null. */
  function ParseCoordinate(p: ParsedNumber): (r: Option<real>)
    ensures r.Some? <==> p.Number?
    ensures r.Some? ==> r.value == p.value
  {
    if p.Number? then Some(p.value) else None
  }

  /** The two agree on every input except a typed zero. */
  lemma ParseAgreesExceptZero(p: ParsedNumber)
    ensures ParseCoordinateAsWritten(p) == ParseCoordinate(p) <==> p != Number(0.0)
  {
  }

  datatype CoordinateField = LatitudeInput | LongitudeInput

  /** Typing into a coordinate input stores the parsed number; nothing else changes. */
  function OnCoordinateInput(f: LocationForm, field: CoordinateField, p: ParsedNumber): (r: LocationForm)
    ensures field == LatitudeInput ==> r.latitude == ParseCoordinate(p) && r.longitude == f.longitude
    ensures field == LongitudeInput ==> r.longitude == ParseCoordinate(p) && r.latitude == f.latitude
    ensures r.name == f.name && r.address == f.address && r.firmId == f.firmId
  {
    match field
    case LatitudeInput => f.(latitude := ParseCoordinate(p))
    case LongitudeInput => f.(longitude := ParseCoordinate(p))
  }

  /** The same handler with the coordinate parse as written. */
  function OnCoordinateInputAsWritten(f: LocationForm, field: CoordinateField, p: ParsedNumber): (r: LocationForm)
    ensures field == LatitudeInput ==> r.latitude == ParseCoordinateAsWritten(p) && r.longitude == f.longitude
    ensures field == LongitudeInput ==> r.longitude == ParseCoordinateAsWritten(p) && r.latitude == f.latitude
    ensures r.name == f.name && r.address == f.address && r.firmId == f.firmId
  {
    match field
    case LatitudeInput => f.(latitude := ParseCoordinateAsWritten(p))
    case LongitudeInput => f.(longitude := ParseCoordinateAsWritten(p))
  }

  /** `locationDataToSave`. */
  datatype LocationRecord = LocationRecord(name: string, address: string, latitude: real, longitude: real, firmId: string)

  datatype SaveOutcome = Rejected(message: string) | CreateLocation(record: LocationRecord) | UpdateLocation(docId: string, record: LocationRecord)

  const FieldsRequired := "Location Name, Address, Latitude, and Longitude are required."
  const NoCallerFirm := "Error: Firm Admin's firm ID not found. Cannot save location."

  /** `handleSaveLocation`: four required fields, then the caller's firm, which the saved location always gets. */
  function SaveLocation(f: LocationForm, editing: Option<Location>, caller: Option<UserData>): (r: SaveOutcome)
    ensures r.Rejected? <==>
      !Truthy(f.name) || !Truthy(f.address) || f.latitude.None? || f.longitude.None? || CallerFirm(caller).None?
    ensures !Truthy(f.name) || !Truthy(f.address) || f.latitude.None? || f.longitude.None? ==>
      r == Rejected(FieldsRequired)
    ensures (Truthy(f.name) && Truthy(f.address) && f.latitude.Some? && f.longitude.Some? &&
             CallerFirm(caller).None?) ==> r == Rejected(NoCallerFirm)
    ensures r.CreateLocation? <==> !r.Rejected? && editing.None?
    ensures r.UpdateLocation? ==> editing.Some? && r.docId == editing.value.id
    ensures !r.Rejected? ==>
      r.record == LocationRecord(f.name.value, f.address.value, f.latitude.value, f.longitude.value,
                                 CallerFirm(caller).value)
  {
    if !Truthy(f.name) || !Truthy(f.address) || f.latitude.None? || f.longitude.None? then Rejected(FieldsRequired)
    else if CallerFirm(caller).None? then Rejected(NoCallerFirm)
    else
      var record := LocationRecord(f.name.value, f.address.value, f.latitude.value, f.longitude.value,
                                   CallerFirm(caller).value);
      if editing.None? then CreateLocation(record) else UpdateLocation(editing.value.id, record)
  }

  /** The firm in the form never matters: every save goes to the caller's own firm. */
  lemma SavedInCallerFirm(f: LocationForm, other: string, editing: Option<Location>, caller: Option<UserData>)
    ensures SaveLocation(f.(firmId := other), editing, caller) == SaveLocation(f, editing, caller)
    ensures !SaveLocation(f, editing, caller).Rejected? ==>
      SaveLocation(f, editing, caller).record.firmId == caller.value.firmId.value
  {
  }

  /** A map click always supplies the coordinates the save requires. */
  lemma MapClickSatisfiesCoordinates(f: LocationForm, lat: real, lng: real, editing: Option<Location>, caller: Option<UserData>)
    requires Truthy(f.name) && Truthy(f.address) && CallerFirm(caller).Some?
    ensures !SaveLocation(OnMapClick(f, lat, lng), editing, caller).Rejected?
    ensures SaveLocation(OnMapClick(f, lat, lng), editing, caller).record.latitude == lat
    ensures SaveLocation(OnMapClick(f, lat, lng), editing, caller).record.longitude == lng
  {
  }

  /** The location a record describes once stored under `id`. */
  function Stored(id: string, rec: LocationRecord): (loc: Location)
    ensures loc.id == id && loc.name == rec.name && loc.address == Some(rec.address) && loc.firmId == rec.firmId
    ensures loc.latitude == Some(rec.latitude) && loc.longitude == Some(rec.longitude)
  {
    Location(id, rec.name, Some(rec.address), Some(rec.latitude), Some(rec.longitude), rec.firmId)
  }

  /** Editing a complete location of the caller's firm and saving it unchanged writes it back as it was. */
  lemma EditSaveRoundTrip(loc: Location, caller: Option<UserData>)
    requires loc.name != "" && Truthy(loc.address) && loc.latitude.Some? && loc.longitude.Some?
    requires CallerFirm(caller) == Some(loc.firmId)
    ensures SaveLocation(EditForm(loc), Some(loc), caller).UpdateLocation?
    ensures Stored(loc.id, SaveLocation(EditForm(loc), Some(loc), caller).record) == loc
  {
  }

  /**
   * As written, typing 0 into the latitude input of an otherwise complete
   * form blocks the save with the required-fields message; with the intended
   * parse the same input is saved.
   */
  lemma TypedZeroLatitude(f: LocationForm, editing: Option<Location>, caller: Option<UserData>)
    requires Truthy(f.name) && Truthy(f.address) && f.longitude.Some? && CallerFirm(caller).Some?
    ensures SaveLocation(OnCoordinateInputAsWritten(f, LatitudeInput, Number(0.0)), editing, caller) == Rejected(FieldsRequired)
    ensures SaveLocation(OnCoordinateInput(f, LatitudeInput, Number(0.0)), editing, caller).record.latitude == 0.0
  {
  }

  /** `handleSaveLocation`'s failure toast. */
  function SaveErrorText(err: BackendError): (r: string)
    ensures err.code == 409 && Contains(err.message, "document_attribute_unique") ==>
      r == WithRawMessage("Location name already exists for your firm.", err)
    ensures !(err.code == 409 && Contains(err.message, "document_attribute_unique")) ==>
      r == WithRawMessage("Failed to save location.", err)
  {
    if err.code == 409 && Contains(err.message, "document_attribute_unique") then
      WithRawMessage("Location name already exists for your firm.", err)
    else WithRawMessage("Failed to save location.", err)
  }

  /** `handleDeleteLocation`'s failure toast. */
  function DeleteErrorMessage(err: BackendError): (r: string)
    ensures err.code == 409 ==> r == WithRawMessage(
      "Cannot delete location: It might be linked to other records or permissions prevent deletion.", err)
    ensures err.code != 409 ==> r == WithRawMessage("Failed to delete location.", err)
  {
    DeleteErrorText("Failed to delete location.",
                    "Cannot delete location: It might be linked to other records or permissions prevent deletion.", err)
  }
}
