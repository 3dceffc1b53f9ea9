/**
 * The firm admin's three summary cards: locations, employees and volunteers
 * of the caller's firm, and what the card area shows in each state.
 */
module DashboardCards {
  import opened Wrappers
  import opened Text
  import opened Lists
  import opened Entities
  import opened Session

  const Policy := AuthPolicy(FirmAdmin, true,
    "Access Denied: Only Firm Admins can view this dashboard.",
    "Firm Admin not assigned to a firm. Please contact your Super Admin.",
    false)

  /** The employees card counts profiles of the firm whose role is employee, security or volunteer. */
  predicate IsStaff(p: Profile, firm: string) {
    p.firmId == Some(firm) && p.role in {Employee, Security, Volunteer}
  }

  /** The volunteers card counts profiles of the firm flagged as volunteers, whatever their role. */
  predicate IsVolunteerOf(p: Profile, firm: string) {
    p.firmId == Some(firm) && p.isVolunteer == Some(true)
  }

  /** The three counts; null while unknown or after a refused fetch. */
  datatype CardCounts = CardCounts(locations: Option<nat>, employees: Option<nat>, volunteers: Option<nat>)

  /**
   * `fetchDashboardCounts` over the whole locations and profiles collections:
   * the totals of the three firm-scoped queries, or three nulls when refused.
   */
  function AfterFetch(caller: Option<UserData>, locations: seq<Location>, profiles: seq<Profile>): (r: CardCounts)
    ensures FirmScopedFetch(caller).None? ==> r == CardCounts(None, None, None)
    ensures FirmScopedFetch(caller).Some? ==>
      var firm := FirmScopedFetch(caller).value;
      r.locations == Some(Count(locations, (l: Location) => l.firmId == firm)) &&
      r.employees == Some(Count(profiles, (p: Profile) => IsStaff(p, firm))) &&
      r.volunteers == Some(Count(profiles, (p: Profile) => IsVolunteerOf(p, firm)))
  {
    match FirmScopedFetch(caller)
    case None => CardCounts(None, None, None)
    case Some(firm) =>
      var atFirm := (l: Location) => l.firmId == firm;
      var staff := (p: Profile) => IsStaff(p, firm);
      var volunteer := (p: Profile) => IsVolunteerOf(p, firm);
      FilterLength(locations, atFirm);
      FilterLength(profiles, staff);
      FilterLength(profiles, volunteer);
      CardCounts(Some(|Filter(locations, atFirm)|), Some(|Filter(profiles, staff)|), Some(|Filter(profiles, volunteer)|))
  }

  /**
   * The volunteers card never exceeds the employees card as long as every
   * volunteer-flagged profile of the firm has one of the three staff roles.
   */
  lemma VolunteersWithinStaff(caller: Option<UserData>, locations: seq<Location>, profiles: seq<Profile>)
    requires FirmScopedFetch(caller).Some?
    requires forall i :: 0 <= i < |profiles| && IsVolunteerOf(profiles[i], FirmScopedFetch(caller).value) ==>
      profiles[i].role in {Employee, Security, Volunteer}
    ensures AfterFetch(caller, locations, profiles).volunteers.value <= AfterFetch(caller, locations, profiles).employees.value
  {
    var firm := FirmScopedFetch(caller).value;
    CountMono(profiles, (p: Profile) => IsVolunteerOf(p, firm), (p: Profile) => IsStaff(p, firm));
  }

  /** A volunteer-flagged firm admin is counted as a volunteer but not as an employee. */
  lemma FlaggedAdminCountsOnlyAsVolunteer(caller: Option<UserData>, admin: Profile)
    requires FirmScopedFetch(caller).Some?
    requires admin.firmId == caller.value.firmId && admin.role == FirmAdmin && admin.isVolunteer == Some(true)
    ensures AfterFetch(caller, [], [admin]) == CardCounts(Some(0), Some(0), Some(1))
  {
  }

  /** A card's number, or "..." while the count is null. */
  function CardText(count: Option<nat>): (r: string)
    ensures count.None? ==> r == "..."
    ensures count.Some? ==> AllDigits(r) && DigitsValue(r) == count.value
    ensures count.Some? ==> r == NatToString(count.value)
  {
    match count
    case None => "..."
    case Some(n) => NatToString(n)
  }

  datatype CardsView = Loading | ErrorPanel(message: string) | Cards(counts: CardCounts)

  const NotAllowed := "Access Denied: You do not have permission to view this dashboard."
  const NoFirm := "Firm Admin not assigned to a firm. Cannot display dashboard data."

  /** The card area: loading, then any error, then the role and firm checks, then the cards. */
  function Render(loading: bool, user: Option<UserData>, error: Option<string>, counts: CardCounts): (r: CardsView)
    ensures r == Loading <==> loading || user.None?
    ensures !loading && user.Some? && Truthy(error) ==> r == ErrorPanel(error.value)
    ensures !loading && user.Some? && !Truthy(error) && user.value.role != FirmAdmin ==> r == ErrorPanel(NotAllowed)
    ensures !loading && user.Some? && !Truthy(error) && user.value.role == FirmAdmin && !Truthy(user.value.firmId) ==>
      r == ErrorPanel(NoFirm)
    ensures r.Cards? <==> !loading && FirmScopedFetch(user).Some? && !Truthy(error)
    ensures r.Cards? ==> r.counts == counts
  {
    if loading || user.None? then Loading
    else if Truthy(error) then ErrorPanel(error.value)
    else if user.value.role != FirmAdmin then ErrorPanel(NotAllowed)
    else if !Truthy(user.value.firmId) then ErrorPanel(NoFirm)
    else Cards(counts)
  }

  /**
   * After a refusing authorisation check the panel shows the check's own
   * message; the render's fallback messages are never reached.
   */
  lemma RefusalShowsAuthMessage(lookup: ProfileLookup, counts: CardCounts)
    requires CheckAuth(Policy, lookup).Denied?
    ensures var d := CheckAuth(Policy, lookup);
      Render(false, Some(d.user), Some(d.message), counts) == ErrorPanel(d.message) &&
      d.message != NotAllowed && d.message != NoFirm
  {
  }
}
