/** The documents the screens read from the backend, with only the attributes they use. */
module Entities {
  import opened Wrappers

  const SuperAdmin := "super_admin"
  const FirmAdmin := "firm_admin"
  const Employee := "employee"
  const Security := "security"
  const Volunteer := "volunteer"

  /** A document of the user profiles collection: the authorisation record of one account. */
  datatype Profile = Profile(
    docId: string,
    userId: string,
    fullName: Option<string>,
    officialEmail: string,
    role: string,
    firmId: Option<string>,
    contactNumber: Option<string>,
    emergencyContactNumber: Option<string>,
    bloodGroup: Option<string>,
    ageGroup: Option<string>,
    gender: Option<string>,
    isVolunteer: Option<bool>,
    locationId: Option<string>,
    employeeCode: Option<string>)

  /** A document of the firms collection: the tenant. */
  datatype Firm = Firm(
    id: string,
    name: string,
    industry: Option<string>,
    contactEmail: Option<string>,
    phoneNumber: Option<string>,
    address: Option<string>)

  /** A document of the locations collection. Coordinates are `number | null`. */
  datatype Location = Location(
    id: string,
    name: string,
    address: Option<string>,
    latitude: Option<real>,
    longitude: Option<real>,
    firmId: string)

  /** A calendar month as `Date.getMonth()` returns it: 0 is January. */
  type Month = m: int | 0 <= m < 12

  /**
   * A document of the incidents collection. `createdMonth` is the month of
   * `$createdAt` in local time, or None when the timestamp does not parse.
   */
  datatype Incident = Incident(
    id: string,
    firmId: string,
    incidentType: string,
    status: string,
    triggeredByUserId: Option<string>,
    createdMonth: Option<Month>)

  /**
   * A document of the safety trainings collection. Start and end are
   * timestamps, None when the stored string is missing or does not parse.
   */
  datatype Training = Training(
    id: string,
    firmId: string,
    title: string,
    kind: string,
    duration: Option<string>,
    status: Option<string>,
    startTime: Option<int>,
    endTime: Option<int>)
}
